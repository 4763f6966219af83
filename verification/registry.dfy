/** `active_lobbies`: the shared map from a lobby's hyphenated id to the
    sending half of its event channel. Each lobby task owns the receiving
    half and consumes the events in the order they were sent. */
module Registry {
  import opened Common
  import opened Helper

  /** The sending half of an unbounded channel: whether the receiving task is
      still alive, and the events queued for it, oldest first. */
  datatype Mailbox = Mailbox(open: bool, pending: seq<LobbyEvent>)

  type LobbyMap = map<string, Mailbox>

  /** A freshly created channel. */
  function NewMailbox(): Mailbox
  {
    Mailbox(true, [])
  }

  /** `UnboundedSender::send`: fails only when the receiver is gone. */
  function Send(mb: Mailbox, e: LobbyEvent): Option<Mailbox>
  {
    if mb.open then Some(mb.(pending := mb.pending + [e])) else None
  }

  /** Events sent one after another, stopping at the first failure. */
  function SendAll(mb: Mailbox, es: seq<LobbyEvent>): Option<Mailbox>
    decreases |es|
  {
    if es == [] then Some(mb)
    else
      var next := Send(mb, es[0]);
      if next.None? then None else SendAll(next.value, es[1..])
  }

  /** The channel is FIFO: an open mailbox receives every event, in order,
      after those already queued; a closed one refuses the first. */
  lemma {:induction false} SendAllQueuesInOrder(mb: Mailbox, es: seq<LobbyEvent>)
    ensures mb.open ==> SendAll(mb, es) == Some(Mailbox(true, mb.pending + es))
    ensures !mb.open && es != [] ==> SendAll(mb, es).None?
    decreases |es|
  {
    if es != [] && mb.open {
      var next := mb.(pending := mb.pending + [es[0]]);
      SendAllQueuesInOrder(next, es[1..]);
      assert es == [es[0]] + es[1..];
      assert next.pending + es[1..] == mb.pending + es;
    } else if es == [] {
      assert mb.pending + es == mb.pending;
    }
  }

  function Lookup(m: LobbyMap, id: string): Option<Mailbox>
  {
    if id in m then Some(m[id]) else None
  }

  /** `HashMap::insert`: replaces any channel already stored under `id`. */
  function Insert(m: LobbyMap, id: string, mb: Mailbox): LobbyMap
  {
    m[id := mb]
  }

  /** `HashMap::remove`, ignoring the removed value. */
  function Remove(m: LobbyMap, id: string): LobbyMap
  {
    m - {id}
  }

  /** After inserting, the id finds the new channel and every other id what
      it found before. */
  lemma LookupAfterInsert(m: LobbyMap, id: string, mb: Mailbox, other: string)
    ensures Lookup(Insert(m, id, mb), other) ==
      if other == id then Some(mb) else Lookup(m, other)
  {
  }

  /** After removing, the id finds nothing and every other id what it found
      before. */
  lemma LookupAfterRemove(m: LobbyMap, id: string, other: string)
    ensures Lookup(Remove(m, id), other) ==
      if other == id then None else Lookup(m, other)
  {
  }

  /** Removing twice (expiry after close, or close after expiry) is the same
      as removing once. */
  lemma RemoveIdempotent(m: LobbyMap, id: string)
    ensures Remove(Remove(m, id), id) == Remove(m, id)
  {
  }

  /** Registering a new lobby and deregistering it leaves the map as it was. */
  lemma RemoveUndoesInsert(m: LobbyMap, id: string, mb: Mailbox)
    requires id !in m
    ensures Remove(Insert(m, id, mb), id) == m
  {
  }
}
