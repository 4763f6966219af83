/** `close_lobby`: tells a posted lobby's task to close, after checking the
    id and the lobby's row. */
module CloseCommand {
  import opened Common
  import opened Uuid
  import opened Helper
  import opened Registry
  import opened Records

  datatype CloseReply =
    | InvalidLobbyId
    | RecordRejected(check: RecordCheck)
    | LobbyNotTracked
    | CloseSendFailed
    | CloseSent(reg: LobbyMap)

  /** The command: the id is parsed, the lobby row checked and the lobby's
      mailbox looked up under the row's id text; then `CloseLobby` is sent. */
  function CloseLobbyCommand(lobbyIdText: string, guildId: nat,
                             lookup: Uuid -> DbResult<LobbyRecord>, reg: LobbyMap): CloseReply
  {
    var id := ParseStr(lobbyIdText);
    if id.None? then InvalidLobbyId
    else
      var recordCheck := CheckRecord(lookup(id.value), guildId);
      if !recordCheck.RecordOk? then RecordRejected(recordCheck)
      else
        var key := Hyphenated(recordCheck.record.lobbyId);
        if key !in reg then LobbyNotTracked
        else
          var sent := Send(reg[key], CloseLobby);
          if sent.None? then CloseSendFailed else CloseSent(reg[key := sent.value])
  }

  /** `CloseLobby` is queued exactly when the id parses, the row passes and
      the lobby's task is registered and alive; it is queued last in that
      lobby's mailbox and nothing else changes. The command itself never
      removes the lobby: the lobby's own task does, when it handles the event. */
  lemma CloseLobbyCommandOutcomes(lobbyIdText: string, guildId: nat,
                                  lookup: Uuid -> DbResult<LobbyRecord>, reg: LobbyMap)
    ensures var r := CloseLobbyCommand(lobbyIdText, guildId, lookup, reg);
      && (r.InvalidLobbyId? <==> ParseStr(lobbyIdText).None?)
      && (r.RecordRejected? ==>
            ParseStr(lobbyIdText).Some? && r.check == CheckRecord(lookup(ParseStr(lobbyIdText).value), guildId))
      && (r.CloseSent? <==>
            ParseStr(lobbyIdText).Some?
            && CheckRecord(lookup(ParseStr(lobbyIdText).value), guildId).RecordOk?
            && var key := Hyphenated(lookup(ParseStr(lobbyIdText).value).value.lobbyId);
               key in reg && reg[key].open)
      && (r.CloseSent? ==>
            var key := Hyphenated(lookup(ParseStr(lobbyIdText).value).value.lobbyId);
            r.reg.Keys == reg.Keys
            && r.reg[key] == Mailbox(true, reg[key].pending + [CloseLobby])
            && forall other :: other in reg && other != key ==> r.reg[other] == reg[other])
  {
    var id := ParseStr(lobbyIdText);
    if id.Some? {
      CheckRecordOutcomes(lookup(id.value), guildId);
    }
  }
}
