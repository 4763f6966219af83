/** `listener`: every component interaction the bot receives is routed here.
    The custom id is read as a 36-character lobby id followed by an event
    suffix; a tracked suffix becomes a `LobbyEvent` sent to that lobby's
    mailbox. The result says how the routing ended; `Delivered` carries the
    registry with the event queued. */
module Listener {
  import opened Common
  import opened Text
  import opened Uuid
  import opened Helper
  import opened Registry
  import opened Context

  datatype Routing =
    | SplitPanicked
    | Untracked
    | RouteBuildFailed(error: BuildError)
    | NoLobbyPanicked
    | SendFailed
    | Delivered(reg: LobbyMap)

  /** The routing after the id has been split: the suffix filter, the build
      with both the interaction and the HTTP client set, the registry lookup
      (unwrapped) and the send (a failure is only logged). */
  function RouteSplit(lobbyId: string, suffix: string, comp: Component, reg: LobbyMap): Routing
  {
    if suffix !in LOBBY_EVENTS then Untracked
    else
      match Build(WithHttpClient(WithInteraction(NewBuilder(), comp)), suffix)
      case BuildFailed(e) => RouteBuildFailed(e)
      case Built(ev) =>
        if lobbyId !in reg then NoLobbyPanicked
        else
          var sent := Send(reg[lobbyId], ev);
          if sent.None? then SendFailed else Delivered(reg[lobbyId := sent.value])
  }

  /** The listener as written: `split_at(36)` panics on a shorter id. */
  function Listen(customId: string, comp: Component, reg: LobbyMap): Routing
  {
    if |customId| < HYPHENATED_LENGTH then SplitPanicked
    else RouteSplit(customId[..HYPHENATED_LENGTH], customId[HYPHENATED_LENGTH..], comp, reg)
  }

  /** The event a tracked suffix stands for. */
  function SuffixEvent(suffix: string, comp: Component): (e: LobbyEvent)
    requires suffix in LOBBY_EVENTS
    ensures EventSuffix(e) == Some(suffix) && e.component == comp
  {
    if suffix == "lobby-join" then LobbyJoin(comp)
    else if suffix == "player-join" then PlayerJoin(comp)
    else LobbyLeave(comp)
  }

  /** Routing once split, outcome by outcome: the build never fails, an
      unregistered lobby panics, a dead task refuses the event, and a live
      one gets it queued last in its own mailbox; no key is added or
      removed and no other mailbox changes. */
  lemma RouteSplitOutcomes(lobbyId: string, suffix: string, comp: Component, reg: LobbyMap)
    ensures RouteSplit(lobbyId, suffix, comp, reg).Untracked? <==> suffix !in LOBBY_EVENTS
    ensures !RouteSplit(lobbyId, suffix, comp, reg).RouteBuildFailed?
    ensures RouteSplit(lobbyId, suffix, comp, reg).NoLobbyPanicked? <==>
      suffix in LOBBY_EVENTS && lobbyId !in reg
    ensures RouteSplit(lobbyId, suffix, comp, reg).SendFailed? <==>
      suffix in LOBBY_EVENTS && lobbyId in reg && !reg[lobbyId].open
    ensures RouteSplit(lobbyId, suffix, comp, reg).Delivered? <==>
      suffix in LOBBY_EVENTS && lobbyId in reg && reg[lobbyId].open
    ensures RouteSplit(lobbyId, suffix, comp, reg).Delivered? ==>
      var r := RouteSplit(lobbyId, suffix, comp, reg).reg;
      r.Keys == reg.Keys
      && r[lobbyId] == Mailbox(true, reg[lobbyId].pending + [SuffixEvent(suffix, comp)])
      && forall other :: other in reg && other != lobbyId ==> r[other] == reg[other]
  {
    if suffix in LOBBY_EVENTS {
      ListenerBuilderAlwaysBuilds(comp, suffix);
      BuildAcceptsExactlyLobbyEvents(WithHttpClient(WithInteraction(NewBuilder(), comp)), suffix);
    }
  }

  /** The lobby buttons route to their lobby: pressing "Join Lobby!" or
      "Leave Lobby!" of a registered, live lobby queues `LobbyJoin` or
      `LobbyLeave` with the press in that lobby's mailbox and nowhere else;
      so does a selection in the `player-join` menu. */
  lemma LobbyComponentsRouteToLobby(ctx: LobbyContext, suffix: string, comp: Component, reg: LobbyMap)
    requires ctx.idAsString == Hyphenated(ctx.id)
    requires suffix in LOBBY_EVENTS
    requires ctx.idAsString in reg && reg[ctx.idAsString].open
    ensures Listen(ctx.idAsString + suffix, comp, reg) ==
      Delivered(reg[ctx.idAsString := Mailbox(true, reg[ctx.idAsString].pending + [SuffixEvent(suffix, comp)])])
  {
    var customId := ctx.idAsString + suffix;
    assert customId[..HYPHENATED_LENGTH] == ctx.idAsString;
    assert customId[HYPHENATED_LENGTH..] == suffix;
    RouteSplitOutcomes(ctx.idAsString, suffix, comp, reg);
  }

  /** The buttons `create_user_buttons` puts under a posted lobby reach
      that lobby as `LobbyJoin` and `LobbyLeave`. */
  lemma UserButtonsRoute(ctx: LobbyContext, i: nat, comp: Component, reg: LobbyMap)
    requires ctx.idAsString == Hyphenated(ctx.id)
    requires i < 2
    requires ctx.idAsString in reg && reg[ctx.idAsString].open
    ensures Listen(ctx.CreateUserButtons()[i].customId, comp, reg) ==
      Delivered(reg[ctx.idAsString := Mailbox(true, reg[ctx.idAsString].pending
                                                    + [if i == 0 then LobbyJoin(comp) else LobbyLeave(comp)])])
  {
    LobbyComponentsRouteToLobby(ctx, USER_BUTTONS[i], comp, reg);
  }

  /** The components of the formation dialogue (the content buttons, the
      content menu, the add and remove menus and the three lobby buttons) are
      ignored by the listener whatever the registry holds: they are handled by
      the dialogue's own collector. */
  lemma FormationComponentsUntracked(u: Uuid, suffix: string, comp: Component, reg: LobbyMap)
    requires suffix in ["", "guardian-raid", "abyss-dungeon", "abyss-raid", "add", "remove"] + LOBBY_BUTTONS
    ensures Listen(Hyphenated(u) + suffix, comp, reg) == Untracked
  {
    var customId := Hyphenated(u) + suffix;
    assert customId[HYPHENATED_LENGTH..] == suffix;
  }

  /** After the lobby leaves the registry (closed or expired), its buttons
      panic the listener instead of being reported as stale. */
  lemma ClosedLobbyButtonsPanic(u: Uuid, suffix: string, comp: Component, reg: LobbyMap)
    requires suffix in LOBBY_EVENTS
    ensures Listen(Hyphenated(u) + suffix, comp, Remove(reg, Hyphenated(u))) == NoLobbyPanicked
  {
    var customId := Hyphenated(u) + suffix;
    assert customId[..HYPHENATED_LENGTH] == Hyphenated(u);
    assert customId[HYPHENATED_LENGTH..] == suffix;
  }

  /** As written, the listener panics on the select menu `delete_character`
      posts, whose custom id is the command's numeric id: a `u64` printed in
      decimal, at most 20 characters. */
  lemma DeleteMenuPanicsListener(commandId: nat, comp: Component, reg: LobbyMap)
    requires commandId <= U64_MAX
    ensures Listen(NatToString(commandId), comp, reg) == SplitPanicked
  {
    U64TextIsShort(commandId);
  }

  /** The listener with the split guarded: an id too short to hold a lobby id
      is not a lobby event and is ignored like an untracked suffix. */
  function ListenChecked(customId: string, comp: Component, reg: LobbyMap): (r: Routing)
    ensures !r.SplitPanicked? && !r.RouteBuildFailed?
    ensures |customId| < HYPHENATED_LENGTH ==> r == Untracked
  {
    if |customId| < HYPHENATED_LENGTH then Untracked
    else
      RouteSplitOutcomes(customId[..HYPHENATED_LENGTH], customId[HYPHENATED_LENGTH..], comp, reg);
      RouteSplit(customId[..HYPHENATED_LENGTH], customId[HYPHENATED_LENGTH..], comp, reg)
  }

  /** The guarded listener differs from the written one only on the ids the
      written one panics on. */
  lemma ListenCheckedAgrees(customId: string, comp: Component, reg: LobbyMap)
    ensures Listen(customId, comp, reg).SplitPanicked? <==> |customId| < HYPHENATED_LENGTH
    ensures |customId| >= HYPHENATED_LENGTH ==> ListenChecked(customId, comp, reg) == Listen(customId, comp, reg)
    ensures |customId| < HYPHENATED_LENGTH ==> ListenChecked(customId, comp, reg) == Untracked
  {
  }

  /** With the guard, the delete menu is ignored. */
  lemma DeleteMenuIgnoredWhenChecked(commandId: nat, comp: Component, reg: LobbyMap)
    requires commandId <= U64_MAX
    ensures ListenChecked(NatToString(commandId), comp, reg) == Untracked
  {
    U64TextIsShort(commandId);
  }
}
