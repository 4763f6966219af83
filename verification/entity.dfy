/** Database row shapes the lobby logic handles. */
module Entity {

  /** A row of the `characters` table: the owning Discord user's id as decimal
      text, the guild it belongs to, its name, the display name of its class
      and its item level (`i32`). The `last_updated` stamp is not modelled. */
  datatype Character = Character(
    id: string,
    guildId: string,
    name: string,
    className: string,
    itemLevel: int)
}
