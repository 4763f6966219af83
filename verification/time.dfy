/** `change_lobby_time`: reschedules a posted lobby by sending it a
    `ChangeTime` event, after checking the id, the time and the lobby's row. */
module TimeCommand {
  import opened Common
  import opened Uuid
  import opened Helper
  import opened Schedule
  import opened Registry
  import opened Records

  datatype TimeReply =
    | InvalidLobbyId
    | ServerLookupFailed
    | TimeRejected(timeCheck: TimeCheck)
    | RecordRejected(check: RecordCheck)
    | ChannelNotTracked
    | TimeSendFailed
    | TimeChangeSent(reg: LobbyMap)

  /** The command, for the given lobby id text: the id is parsed, the guild's
      server row is read (its time zone is used to parse the time), the
      parsed time is checked against the creation window at `now`, the lobby
      row is checked, and the lobby's mailbox is looked up under the row's id
      text. `lookup` is the row query by id. */
  function ChangeLobbyTime(lobbyIdText: string, guildId: nat, serverOk: bool, parsedTime: Option<int>,
                           now: int, lookup: Uuid -> DbResult<LobbyRecord>, reg: LobbyMap): TimeReply
  {
    var id := ParseStr(lobbyIdText);
    if id.None? then InvalidLobbyId
    else if !serverOk then ServerLookupFailed
    else
      var timeCheck := CheckTime(now, parsedTime);
      if !timeCheck.Accepted? then TimeRejected(timeCheck)
      else
        var recordCheck := CheckRecord(lookup(id.value), guildId);
        if !recordCheck.RecordOk? then RecordRejected(recordCheck)
        else
          var key := Hyphenated(recordCheck.record.lobbyId);
          if key !in reg then ChannelNotTracked
          else
            var sent := Send(reg[key], ChangeTime(timeCheck.time));
            if sent.None? then TimeSendFailed else TimeChangeSent(reg[key := sent.value])
  }

  /** The checks come in order and nothing is sent unless all pass: an event
      is queued exactly when the id parses, the server row is read, the time
      is in the window, the row passes and the lobby's task is registered
      and alive; it is then the one `ChangeTime` with the requested time,
      queued last in that lobby's mailbox, and no other mailbox changes. */
  lemma ChangeLobbyTimeOutcomes(lobbyIdText: string, guildId: nat, serverOk: bool, parsedTime: Option<int>,
                                now: int, lookup: Uuid -> DbResult<LobbyRecord>, reg: LobbyMap)
    ensures var r := ChangeLobbyTime(lobbyIdText, guildId, serverOk, parsedTime, now, lookup, reg);
      && (r.InvalidLobbyId? <==> ParseStr(lobbyIdText).None?)
      && (r.TimeRejected? ==>
            ParseStr(lobbyIdText).Some? && serverOk
            && r.timeCheck == CheckTime(now, parsedTime) && !r.timeCheck.Accepted?)
      && (r.RecordRejected? ==> parsedTime.Some? && InWindow(now, parsedTime.value))
      && (r.TimeChangeSent? <==>
            ParseStr(lobbyIdText).Some? && serverOk && parsedTime.Some? && InWindow(now, parsedTime.value)
            && CheckRecord(lookup(ParseStr(lobbyIdText).value), guildId).RecordOk?
            && var key := Hyphenated(lookup(ParseStr(lobbyIdText).value).value.lobbyId);
               key in reg && reg[key].open)
      && (r.TimeChangeSent? ==>
            var key := Hyphenated(lookup(ParseStr(lobbyIdText).value).value.lobbyId);
            r.reg.Keys == reg.Keys
            && r.reg[key] == Mailbox(true, reg[key].pending + [ChangeTime(parsedTime.value)])
            && forall other :: other in reg && other != key ==> r.reg[other] == reg[other])
  {
    CheckTimeKeepsExactlyWindow(now, parsedTime);
    var id := ParseStr(lobbyIdText);
    if id.Some? {
      CheckRecordOutcomes(lookup(id.value), guildId);
    }
  }

  /** The mailbox is found under the canonical text of the row's id, so a
      lobby id typed in any accepted form (upper-case digits, without
      hyphens, as a URN) reaches the lobby registered under its hyphenated
      text, provided the row found has that id. */
  lemma KeyIsCanonical(lobbyIdText: string, u: Uuid, r: LobbyRecord)
    requires ParseStr(lobbyIdText) == Some(u) && r.lobbyId == u
    ensures Hyphenated(r.lobbyId) == Hyphenated(u)
    ensures ParseStr(Hyphenated(r.lobbyId)) == ParseStr(lobbyIdText)
  {
    ParseHyphenatedRoundTrip(u);
  }
}
