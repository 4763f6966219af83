/** `process_lobby_event`: what a posted lobby's task does with each event it
    receives, and what its timer tasks do. Each event is one atomic step on
    the context and the registry; the replies and message edits the handlers
    send are reduced to the decision they announce. Database calls are inputs:
    their answers are parameters. */
module Process {
  import opened Common
  import opened Text
  import opened Entity
  import opened Helper
  import opened Schedule
  import opened Registry
  import opened Context

  /** One option per character, valued by the character's name. */
  method NamedOptions(cs: seq<Character>) returns (os: seq<MenuOption>)
    ensures |os| == |cs|
    ensures forall i :: 0 <= i < |cs| ==> os[i] == CharacterOption(cs[i], cs[i].name)
  {
    os := Enumerate(cs, (c: Character, i: nat) => CharacterOption(c, c.name));
  }

  /** The answer to a press of "Join Lobby!". */
  datatype JoinReply =
    | JoinPromptPanicked
    | LobbyFull
    | AlreadyInLobby
    | NoCharacters
    | CharacterPrompt(title: string, menu: SelectMenu)
    | DatabaseError

  /** `LobbyJoin`: refuses a full lobby first and a user already in it second;
      otherwise offers the user's qualifying characters (`userChars`, the
      answer to the item-level query) in a menu that sends `player-join`.
      The context is only read. A lobby posted before its content was chosen
      has no content info, and the capacity check panics on it. */
  method OnLobbyJoin(ctx: LobbyContext, userId: nat, userChars: DbResult<seq<Character>>)
    returns (reply: JoinReply)
    requires ctx.Valid()
    ensures reply == JoinPromptPanicked <==> ctx.contentInfo.None?
    ensures ctx.contentInfo.Some? ==>
      (reply == LobbyFull <==> |ctx.activePlayers| == ctx.contentInfo.value.contentSize)
    ensures ctx.contentInfo.Some? ==>
      (reply == AlreadyInLobby <==>
         |ctx.activePlayers| != ctx.contentInfo.value.contentSize && UserInRoster(ctx.activePlayers, userId))
    ensures reply == NoCharacters <==>
      !(reply == JoinPromptPanicked || reply == LobbyFull || reply == AlreadyInLobby) && userChars.RecordNotFound?
    ensures reply == DatabaseError <==>
      !(reply == JoinPromptPanicked || reply == LobbyFull || reply == AlreadyInLobby) && userChars.DbError?
    ensures reply.CharacterPrompt? ==>
      ctx.contentInfo.Some? && userChars.Ok? && reply.title == ctx.contentInfo.value.name
      && reply.menu.customId == ctx.idAsString + "player-join" && !reply.menu.disabled
      && |reply.menu.options| == |userChars.value|
      && forall i :: 0 <= i < |userChars.value| ==>
           reply.menu.options[i] == CharacterOption(userChars.value[i], userChars.value[i].name)
  {
    if ctx.contentInfo.None? {
      return JoinPromptPanicked;
    }
    if ctx.contentInfo.value.contentSize == |ctx.activePlayers| {
      return LobbyFull;
    }
    var already := ctx.IsActivePlayer(userId);
    if already {
      return AlreadyInLobby;
    }
    match userChars {
      case RecordNotFound => reply := NoCharacters;
      case Ok(cs) =>
        var os := NamedOptions(cs);
        reply := CharacterPrompt(ctx.contentInfo.value.name,
                                 SelectMenu(ctx.idAsString + "player-join", false, None, os));
      case DbError => reply := DatabaseError;
    }
  }

  datatype PlayerJoinOutcome = JoinPanicked | InsertFailed | RosterFull | Added(player: Character)

  /** The selection, the guild and the character lookup are all unwrapped. */
  predicate LookupPanics(comp: Component, getCharacter: (string, nat) -> DbResult<Character>)
  {
    comp.values == [] || comp.guildId.None? || !getCharacter(comp.values[0], comp.guildId.value).Ok?
  }

  /** `PlayerJoin`: looks the selected character up (a missing selection, a
      missing guild or a failed lookup panics the lobby's task), records it in the
      database (a failure ends the handler with an error), and only then
      checks capacity: a full roster is left alone, otherwise the character
      takes the next slot. Nothing checks that its owner is already active.
      Without content info the capacity check panics, after the insert. */
  method OnPlayerJoin(ctx: LobbyContext, comp: Component,
                      getCharacter: (string, nat) -> DbResult<Character>, insertOk: bool)
    returns (out: PlayerJoinOutcome)
    requires ctx.Valid()
    modifies ctx`activePlayers, ctx.playerList
    ensures ctx.Valid()
    ensures out.JoinPanicked? <==>
      LookupPanics(comp, getCharacter) || (insertOk && ctx.contentInfo.None?)
    ensures out.InsertFailed? <==> !LookupPanics(comp, getCharacter) && !insertOk
    ensures out.RosterFull? <==>
      !out.JoinPanicked? && insertOk && |old(ctx.activePlayers)| == ctx.contentInfo.value.contentSize
    ensures out.Added? ==>
      out.player == getCharacter(comp.values[0], comp.guildId.value).value
      && ctx.activePlayers == old(ctx.activePlayers) + [out.player]
      && ctx.playerList[..] == old(ctx.playerList[..])[|old(ctx.activePlayers)| := SlotText(out.player)]
    ensures !out.Added? ==>
      ctx.activePlayers == old(ctx.activePlayers) && ctx.playerList[..] == old(ctx.playerList[..])
  {
    if comp.values == [] || comp.guildId.None? {
      return JoinPanicked;
    }
    var lookup := getCharacter(comp.values[0], comp.guildId.value);
    if !lookup.Ok? {
      return JoinPanicked;
    }
    if !insertOk {
      return InsertFailed;
    }
    if ctx.contentInfo.None? {
      return JoinPanicked;
    }
    if ctx.contentInfo.value.contentSize == |ctx.activePlayers| {
      return RosterFull;
    }
    ctx.AddActivePlayerByModel(lookup.value);
    out := Added(lookup.value);
  }

  datatype LeaveOutcome = Removed(index: nat) | RemoveFailed | NotInLobby

  /** `LobbyLeave`: scans the roster for the first character of the user's;
      that one is deleted from the database (a failure ends the handler with
      an error and no change) and removed from both lists. A user with no
      character in the roster is told so and nothing changes. */
  method OnLobbyLeave(ctx: LobbyContext, userId: nat, removeOk: bool) returns (out: LeaveOutcome)
    requires ctx.Valid()
    modifies ctx`activePlayers, ctx.playerList
    ensures ctx.Valid()
    ensures out.NotInLobby? <==> !UserInRoster(old(ctx.activePlayers), userId)
    ensures out.RemoveFailed? <==> UserInRoster(old(ctx.activePlayers), userId) && !removeOk
    ensures out.Removed? ==>
      out.index < |old(ctx.activePlayers)| && old(ctx.activePlayers)[out.index].id == NatToString(userId)
      && (forall k :: 0 <= k < out.index ==> old(ctx.activePlayers)[k].id != NatToString(userId))
      && ctx.activePlayers == old(ctx.activePlayers)[..out.index] + old(ctx.activePlayers)[out.index + 1..]
      && ctx.playerList[..] ==
         old(ctx.playerList[..])[..out.index] + old(ctx.playerList[..])[out.index + 1..] + [EMPTY_SLOT]
    ensures !out.Removed? ==>
      ctx.activePlayers == old(ctx.activePlayers) && ctx.playerList[..] == old(ctx.playerList[..])
  {
    var idText := NatToString(userId);
    var i := 0;
    while i < |ctx.activePlayers| && ctx.activePlayers[i].id != idText
      invariant 0 <= i <= |ctx.activePlayers|
      invariant forall k :: 0 <= k < i ==> ctx.activePlayers[k].id != idText
    {
      i := i + 1;
    }
    if i == |ctx.activePlayers| {
      return NotInLobby;
    }
    assert UserInRoster(ctx.activePlayers, userId);
    if !removeOk {
      return RemoveFailed;
    }
    ctx.RemoveActivePlayerWithoutFilter(i);
    out := Removed(i);
  }

  /** `ChangeTime`: the schedule is replaced first, then the stored timer
      task is aborted and the new one stored. Returns the aborted task. */
  method OnChangeTime(ctx: LobbyContext, c: TimeChange) returns (aborted: Option<TimerTask>)
    modifies ctx`lobbyTime
    ensures Reschedule(old(ctx.lobbyTime), c) == Rescheduled(ctx.lobbyTime, aborted)
  {
    ctx.lobbyTime := ctx.lobbyTime.(schedule := Some(c.time));
    aborted := ctx.lobbyTime.task;
    ctx.lobbyTime := ctx.lobbyTime.(task := Some(SpawnedTask(c)));
  }

  /** `CloseLobby`: the lobby leaves the registry. */
  function CloseLobbyEffect(reg: LobbyMap, id: string): (r: LobbyMap)
    ensures id !in r && r.Keys == reg.Keys - {id}
    ensures forall other :: other in r ==> r[other] == reg[other]
  {
    Remove(reg, id)
  }

  datatype ReminderOutcome = Reminded(reg: LobbyMap, channel: Mailbox) | ReminderPanicked

  /** The reminder of a timer task of the lobby registered (or once
      registered) under `id`, whose event channel is `channel`; while the
      lobby is registered, the registry's entry is a sender of that channel.
      The timer task spawned at publication sends through the clone of the
      sender it captured, so its reminder reaches the channel whether or not
      the lobby is still registered. The timer task spawned by `ChangeTime`
      fetches the sender from the registry and panics when the lobby is
      gone. A failed send is ignored. */
  function FireReminder(reg: LobbyMap, id: string, channel: Mailbox, viaRegistry: bool): (r: ReminderOutcome)
    requires id in reg ==> reg[id] == channel
    ensures r.ReminderPanicked? <==> viaRegistry && id !in reg
    ensures r.Reminded? && channel.open ==> r.channel == Mailbox(true, channel.pending + [LobbyIsDue])
    ensures r.Reminded? && !channel.open ==> r.channel == channel
    ensures r.Reminded? ==> r.reg.Keys == reg.Keys && (id in reg ==> r.reg[id] == r.channel)
    ensures r.Reminded? ==> forall other :: other in reg && other != id ==> r.reg[other] == reg[other]
  {
    if viaRegistry && id !in reg then ReminderPanicked
    else
      var ch := match Send(channel, LobbyIsDue) case Some(mb) => mb case None => channel;
      Reminded(if id in reg then reg[id := ch] else reg, ch)
  }

  /** The expiry of a timer task: the lobby leaves the registry (after the
      database row, when found, is disabled). */
  function FireExpiry(reg: LobbyMap, id: string): (r: LobbyMap)
    ensures id !in r && r.Keys == reg.Keys - {id}
  {
    Remove(reg, id)
  }

  /** While the lobby is registered, both timers' reminders have the same
      effect: the registry's sender and the first timer's clone feed the
      same channel. */
  lemma RemindersAgreeWhileRegistered(reg: LobbyMap, id: string)
    requires id in reg
    ensures FireReminder(reg, id, reg[id], true) == FireReminder(reg, id, reg[id], false)
    ensures FireReminder(reg, id, reg[id], true).Reminded?
  {
  }

  /** After `CloseLobby` the lobby's task keeps receiving, because the first
      timer's clone of the sender is still alive: that timer's reminder is
      queued last in the lobby's channel (and handled), while the reminder
      of a timer spawned by `ChangeTime` panics on the missing entry. */
  lemma ReminderAfterClose(reg: LobbyMap, id: string)
    requires id in reg && reg[id].open
    ensures FireReminder(CloseLobbyEffect(reg, id), id, reg[id], true) == ReminderPanicked
    ensures FireReminder(CloseLobbyEffect(reg, id), id, reg[id], false)
         == Reminded(CloseLobbyEffect(reg, id), Mailbox(true, reg[id].pending + [LobbyIsDue]))
  {
  }

  /** The answers of the database and the clock for one event. */
  datatype Env = Env(
    userChars: DbResult<seq<Character>>,
    getCharacter: (string, nat) -> DbResult<Character>,
    insertOk: bool,
    removeOk: bool,
    now: int,
    handle: nat)

  /** Whether handling `event` panics the lobby task: a failed character
      lookup, or any use of the content info of a lobby posted without one
      (`LobbyLeave` and `ChangeTime` reach it when they redraw the embed,
      after their change; `LobbyIsDue` only for active players, of which
      such a lobby has none). */
  predicate EventPanics(event: LobbyEvent, hasContentInfo: bool, env: Env)
  {
    match event
    case LobbyJoin(_) => !hasContentInfo
    case PlayerJoin(comp) => LookupPanics(comp, env.getCharacter) || (env.insertOk && !hasContentInfo)
    case LobbyLeave(_) => !hasContentInfo
    case ChangeTime(_) => !hasContentInfo
    case LobbyIsDue => false
    case CloseLobby => false
  }

  /** `process_lobby_event` dispatched on the event, with its effect on the
      registry: `CloseLobby` deregisters the lobby, and a handler that panics
      kills the lobby task, so its channel stops accepting events. */
  method ProcessLobbyEvent(ctx: LobbyContext, reg: LobbyMap, event: LobbyEvent, env: Env)
    returns (reg': LobbyMap, panicked: bool)
    requires ctx.Valid()
    modifies ctx`activePlayers, ctx`lobbyTime, ctx.playerList
    ensures ctx.Valid()
    ensures panicked <==> EventPanics(event, ctx.contentInfo.Some?, env)
    ensures event.CloseLobby? ==> reg' == Remove(reg, ctx.idAsString)
    ensures panicked ==>
      reg' == if ctx.idAsString in reg then reg[ctx.idAsString := reg[ctx.idAsString].(open := false)] else reg
    ensures !panicked && !event.CloseLobby? ==> reg' == reg
    ensures !event.PlayerJoin? && !event.LobbyLeave? ==> ctx.activePlayers == old(ctx.activePlayers)
    ensures !event.ChangeTime? ==> ctx.lobbyTime == old(ctx.lobbyTime)
    ensures event.ChangeTime? ==>
      ctx.lobbyTime == Reschedule(old(ctx.lobbyTime), TimeChange(event.time, env.now, env.handle)).time
    ensures event.PlayerJoin? ==>
      if !LookupPanics(event.component, env.getCharacter) && env.insertOk && ctx.contentInfo.Some?
         && |old(ctx.activePlayers)| < ctx.contentInfo.value.contentSize
      then ctx.activePlayers == old(ctx.activePlayers)
             + [env.getCharacter(event.component.values[0], event.component.guildId.value).value]
      else ctx.activePlayers == old(ctx.activePlayers)
    ensures event.LobbyLeave? ==>
      if UserInRoster(old(ctx.activePlayers), event.component.userId) && env.removeOk
      then exists i :: 0 <= i < |old(ctx.activePlayers)|
             && old(ctx.activePlayers)[i].id == NatToString(event.component.userId)
             && (forall k :: 0 <= k < i ==> old(ctx.activePlayers)[k].id != NatToString(event.component.userId))
             && ctx.activePlayers == old(ctx.activePlayers)[..i] + old(ctx.activePlayers)[i + 1..]
      else ctx.activePlayers == old(ctx.activePlayers)
  {
    reg', panicked := reg, false;
    match event {
      case LobbyJoin(comp) =>
        var reply := OnLobbyJoin(ctx, comp.userId, env.userChars);
        panicked := reply == JoinPromptPanicked;
      case PlayerJoin(comp) =>
        var out := OnPlayerJoin(ctx, comp, env.getCharacter, env.insertOk);
        panicked := out.JoinPanicked?;
      case LobbyLeave(comp) =>
        var out := OnLobbyLeave(ctx, comp.userId, env.removeOk);
        if out.Removed? {
          assert old(ctx.activePlayers)[out.index].id == NatToString(comp.userId);
        }
        panicked := ctx.contentInfo.None?;
      case ChangeTime(time) =>
        var _ := OnChangeTime(ctx, TimeChange(time, env.now, env.handle));
        panicked := ctx.contentInfo.None?;
      case LobbyIsDue =>
      case CloseLobby =>
        reg' := CloseLobbyEffect(reg, ctx.idAsString);
    }
    if panicked && ctx.idAsString in reg {
      reg' := reg[ctx.idAsString := reg[ctx.idAsString].(open := false)];
    }
  }
}
