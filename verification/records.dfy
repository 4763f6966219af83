/** The stored lobby row, as far as the lobby commands read it, and the
    checks `change_lobby_time` and `close_lobby` both make on it before they
    address the lobby's task. */
module Records {
  import opened Common
  import opened Text
  import opened Uuid

  /** A row of the `lobby` table: its id, the guild id as decimal text, and
      whether the lobby is still active. */
  datatype LobbyRecord = LobbyRecord(lobbyId: Uuid, guildId: string, active: bool)

  datatype RecordCheck =
    | RecordOk(record: LobbyRecord)
    | NoSuchLobby
    | RecordDbError
    | GuildIdPanicked
    | OtherGuild
    | Inactive

  /** The checks on the row lookup, in the commands' order: no row, a
      database error, then the row's guild (its text is unwrapped as a `u64`)
      before its activity. */
  function CheckRecord(lookup: DbResult<LobbyRecord>, guildId: nat): RecordCheck
  {
    match lookup
    case RecordNotFound => NoSuchLobby
    case DbError => RecordDbError
    case Ok(r) =>
      var owner := ParseUnsigned(r.guildId, U64_MAX);
      if owner.None? then GuildIdPanicked
      else if owner.value != guildId then OtherGuild
      else if !r.active then Inactive
      else RecordOk(r)
  }

  /** A row passes exactly when it exists, belongs to the guild and is
      active; a row of another guild is reported as such whether or not it
      is active. */
  lemma CheckRecordOutcomes(lookup: DbResult<LobbyRecord>, guildId: nat)
    ensures CheckRecord(lookup, guildId).RecordOk? <==>
      lookup.Ok? && ParseUnsigned(lookup.value.guildId, U64_MAX) == Some(guildId) && lookup.value.active
    ensures CheckRecord(lookup, guildId).RecordOk? ==> CheckRecord(lookup, guildId).record == lookup.value
    ensures CheckRecord(lookup, guildId).OtherGuild? <==>
      lookup.Ok? && ParseUnsigned(lookup.value.guildId, U64_MAX).Some?
      && ParseUnsigned(lookup.value.guildId, U64_MAX).value != guildId
    ensures CheckRecord(lookup, guildId).Inactive? <==>
      lookup.Ok? && ParseUnsigned(lookup.value.guildId, U64_MAX) == Some(guildId) && !lookup.value.active
    ensures CheckRecord(lookup, guildId).GuildIdPanicked? <==>
      lookup.Ok? && ParseUnsigned(lookup.value.guildId, U64_MAX).None?
  {
  }

  /** A row written with the guild's own id text passes exactly when it is
      active. */
  lemma OwnRowPassesWhenActive(r: LobbyRecord, guildId: nat)
    requires guildId <= U64_MAX && r.guildId == NatToString(guildId)
    ensures CheckRecord(Ok(r), guildId).RecordOk? <==> r.active
  {
    ParseNatToString(guildId, U64_MAX);
  }
}
