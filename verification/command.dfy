/** `create_lobby`: the creator check, the schedule check, the formation
    dialogue driven by the lobby master's component interactions, and the
    publication that registers the lobby and installs its timer. */
module Command {
  import opened Common
  import opened Text
  import opened Uuid
  import opened Info
  import opened Entity
  import opened Helper
  import opened Schedule
  import opened Registry
  import opened Context

  /** The creator check, on the creator's guildmate record: a failed lookup,
      a missing record and the plain guildmate role each end the command
      with their own reply. `isPlainGuildmate` is the role comparison. */
  datatype Gate = Allowed | OnlyAdministration | NotRegistered | LookupFailed

  function CheckCreator(isPlainGuildmate: DbResult<bool>): (g: Gate)
    ensures g.Allowed? <==> isPlainGuildmate == Ok(false)
    ensures g.OnlyAdministration? <==> isPlainGuildmate == Ok(true)
    ensures g.NotRegistered? <==> isPlainGuildmate.RecordNotFound?
    ensures g.LookupFailed? <==> isPlainGuildmate.DbError?
  {
    match isPlainGuildmate
    case Ok(plain) => if plain then OnlyAdministration else Allowed
    case RecordNotFound => NotRegistered
    case DbError => LookupFailed
  }

  /** How far along the dialogue a state is. */
  function Rank(s: State): nat
  {
    match s
    case ContentSelection => 0
    case LobbyFirstPrompt => 1
    case CollectPlayers => 2
    case PrivateLobby => 3
    case PublicLobby => 3
    case Generated => 4
  }

  predicate IsExit(s: State)
  {
    s == PrivateLobby || s == PublicLobby
  }

  /** The state a step leaves the dialogue in, when it goes on: `None` for
      `close-lobby` and for the suffixes and states the loop treats as
      unreachable. */
  function NextState(s: State, suffix: string): Option<State>
  {
    match s
    case ContentSelection => if IsContentKey(suffix) then Some(LobbyFirstPrompt) else None
    case LobbyFirstPrompt => Some(CollectPlayers)
    case CollectPlayers =>
      if suffix == "add" || suffix == "remove" then Some(CollectPlayers)
      else if suffix == "post-lobby" then Some(PrivateLobby)
      else if suffix == "open-lobby" then Some(PublicLobby)
      else None
    case _ => None
  }

  /** The dialogue only moves forward: every transition raises the rank
      except the add and remove steps, which stay in `CollectPlayers`; no
      transition enters `ContentSelection` or `Generated`, and nothing
      follows an exit state. */
  lemma NextStateGoesForward(s: State, suffix: string)
    ensures NextState(s, suffix).Some? ==>
      Rank(NextState(s, suffix).value) > Rank(s)
      || (s == CollectPlayers && NextState(s, suffix) == Some(CollectPlayers)
          && (suffix == "add" || suffix == "remove"))
    ensures NextState(s, suffix).Some? ==>
      NextState(s, suffix).value != ContentSelection && NextState(s, suffix).value != Generated
    ensures IsExit(s) || s == Generated ==> NextState(s, suffix).None?
    ensures NextState(s, suffix).Some? && IsExit(NextState(s, suffix).value) <==>
      s == CollectPlayers && (suffix == "post-lobby" || suffix == "open-lobby")
  {
  }

  /** What each formation state requires besides the roster invariant: no
      content info before the instance is chosen, and the category chosen
      before that. */
  predicate Staged(state: State, content: Option<LobbyContent>, contentInfo: Option<ContentInfo>)
  {
    match state
    case ContentSelection => contentInfo.None?
    case LobbyFirstPrompt => content.Some? && contentInfo.None?
    case _ => contentInfo.Some?
  }

  predicate Stage(ctx: LobbyContext)
    reads ctx
  {
    Staged(ctx.state, ctx.content, ctx.contentInfo)
  }

  datatype StepOutcome = Continue | Exit | Closed | StepPanicked

  /** The data the dialogue works on: the state, the chosen category and
      instance, the candidates offered in the add menu, the roster, and the
      number of slots (whose texts `Valid` fixes from the roster). */
  datatype Draft = Draft(state: State, content: Option<LobbyContent>, contentInfo: Option<ContentInfo>,
                         candidates: seq<Character>, roster: seq<Character>, capacity: nat)

  /** The draft of a fresh context. */
  const FRESH_DRAFT := Draft(ContentSelection, None, None, [], [], 0)

  /** The draft a context holds. */
  function Snapshot(ctx: LobbyContext): Draft
    reads ctx
  {
    Draft(ctx.state, ctx.content, ctx.contentInfo, ctx.players, ctx.activePlayers, ctx.playerList.Length)
  }

  /** What `Valid` and `Stage` ask of a draft: the stage's data, a roster
      that fits its slots, no slot before the instance is chosen and one per
      place after. */
  predicate Fits(d: Draft)
  {
    Staged(d.state, d.content, d.contentInfo)
    && |d.roster| <= d.capacity
    && (if d.contentInfo.Some? then d.capacity == d.contentInfo.value.contentSize else d.capacity == 0)
  }

  lemma SnapshotFits(ctx: LobbyContext)
    requires ctx.Valid() && Stage(ctx)
    ensures Fits(Snapshot(ctx))
  {
  }

  datatype Stepped = Stepped(out: StepOutcome, next: Draft)

  /** The `ContentSelection` step on a draft: the category is chosen. */
  function ChooseCategory(d: Draft, suffix: string): Stepped
  {
    if !IsContentKey(suffix) then Stepped(StepPanicked, d)
    else Stepped(Continue, d.(state := LobbyFirstPrompt, content := Some(ContentFrom(suffix))))
  }

  /** The `LobbyFirstPrompt` step on a draft: the instance is chosen, with
      one slot per place, and the guild's characters meeting its item level
      become the candidates when the query succeeds. */
  function ChooseInstance(d: Draft, values: seq<string>, guildId: nat,
                          byMinIlvl: (nat, int) -> DbResult<seq<Character>>,
                          contentData: map<string, ContentInfo>): Stepped
  {
    if values == [] || values[0] !in contentData then Stepped(StepPanicked, d)
    else
      var info := contentData[values[0]];
      var found := byMinIlvl(guildId, info.ilvlReq);
      Stepped(Continue, d.(state := CollectPlayers, contentInfo := Some(info), capacity := info.contentSize,
                           candidates := if found.Ok? then found.value else d.candidates))
  }

  /** The `CollectPlayers` step on a draft: a candidate is added or an
      active player removed, and the candidates become the query's
      characters not in the new roster (none when it fails); or the lobby is
      posted privately, opened, or closed. */
  function Collect(d: Draft, suffix: string, values: seq<string>, guildId: nat,
                   filterOut: (nat, int, seq<Character>) -> DbResult<seq<Character>>): Stepped
    requires d.contentInfo.Some?
  {
    if CollectPanics(suffix, values, |d.candidates|, |d.roster|, d.capacity) then Stepped(StepPanicked, d)
    else if suffix == "add" || suffix == "remove" then
      var idx := ParseUnsigned(values[0], U64_MAX).value;
      var roster := if suffix == "add" then d.roster + [d.candidates[idx]]
                    else d.roster[..idx] + d.roster[idx + 1..];
      Stepped(Continue, d.(roster := roster,
                           candidates := OrEmpty(filterOut(guildId, d.contentInfo.value.ilvlReq, roster))))
    else if suffix == "post-lobby" then Stepped(Exit, d.(state := PrivateLobby))
    else if suffix == "open-lobby" then Stepped(Exit, d.(state := PublicLobby))
    else Stepped(Closed, d)
  }

  /** `ContentSelection`: the suffix of the pressed button is the category
      (`LobbyContent::from`, which panics on anything else). */
  method SelectContent(ctx: LobbyContext, suffix: string) returns (out: StepOutcome)
    requires ctx.Valid() && ctx.state == ContentSelection && ctx.contentInfo.None?
    modifies ctx`content, ctx`state
    ensures ctx.Valid() && Stage(ctx)
    ensures out == StepPanicked <==> !IsContentKey(suffix)
    ensures out != StepPanicked ==>
      out == Continue && ctx.content == Some(ContentFrom(suffix)) && ctx.state == LobbyFirstPrompt
    ensures out == StepPanicked ==> ctx.content == old(ctx.content) && ctx.state == old(ctx.state)
    ensures Stepped(out, Snapshot(ctx)) == ChooseCategory(old(Snapshot(ctx)), suffix)
  {
    if !IsContentKey(suffix) {
      return StepPanicked;
    }
    ctx.content := Some(ContentFrom(suffix));
    ctx.state := LobbyFirstPrompt;
    out := Continue;
  }

  /** `LobbyFirstPrompt`: the selected instance's data (`CONTENT_DATA`,
      unwrapped) becomes the content info, the roster gets one empty slot
      per place, and the guild's characters that meet the item level become
      the candidates when the query succeeds. */
  method SelectInstance(ctx: LobbyContext, values: seq<string>,
                        byMinIlvl: (nat, int) -> DbResult<seq<Character>>,
                        contentData: map<string, ContentInfo>)
    returns (out: StepOutcome)
    requires ctx.Valid() && ctx.state == LobbyFirstPrompt && ctx.content.Some? && ctx.contentInfo.None?
    modifies ctx`contentInfo, ctx`playerList, ctx`players, ctx`state
    ensures ctx.Valid() && Stage(ctx)
    ensures ctx.playerList == old(ctx.playerList) || fresh(ctx.playerList)
    ensures out == StepPanicked <==> values == [] || values[0] !in contentData
    ensures out == StepPanicked ==>
      ctx.state == old(ctx.state) && ctx.contentInfo == old(ctx.contentInfo)
      && ctx.playerList == old(ctx.playerList) && ctx.players == old(ctx.players)
    ensures out != StepPanicked ==>
      out == Continue && ctx.state == CollectPlayers
      && ctx.contentInfo == Some(contentData[values[0]])
      && ctx.playerList[..] == seq(contentData[values[0]].contentSize, _ => EMPTY_SLOT)
      && ctx.activePlayers == []
      && ctx.players == match byMinIlvl(ctx.guildId, contentData[values[0]].ilvlReq)
                        case Ok(cs) => cs
                        case _ => old(ctx.players)
    ensures Stepped(out, Snapshot(ctx)) == ChooseInstance(old(Snapshot(ctx)), values, ctx.guildId, byMinIlvl, contentData)
  {
    if values == [] || values[0] !in contentData {
      return StepPanicked;
    }
    var info := contentData[values[0]];
    ctx.InitRoster(info);
    match byMinIlvl(ctx.guildId, info.ilvlReq) {
      case Ok(cs) => ctx.players := cs;
      case RecordNotFound =>
      case DbError =>
    }
    ctx.state := CollectPlayers;
    out := Continue;
  }

  /** Whether the `CollectPlayers` step for `suffix` panics: the selected
      value of "add" and "remove" is unwrapped and parsed as a `usize`, and
      the index is used unchecked (a candidate for "add", which also writes
      the slot after the roster; an active player for "remove"); any suffix
      other than the five known ones is unreachable. */
  predicate CollectPanics(suffix: string, values: seq<string>, candidates: nat, active: nat, capacity: nat)
  {
    if suffix == "add" || suffix == "remove" then
      values == [] || ParseUnsigned(values[0], U64_MAX).None?
      || (suffix == "add" && (ParseUnsigned(values[0], U64_MAX).value >= candidates || active >= capacity))
      || (suffix == "remove" && ParseUnsigned(values[0], U64_MAX).value >= active)
    else
      !(suffix == "post-lobby" || suffix == "open-lobby" || suffix == "close-lobby")
  }

  /** `CollectPlayers`: add a candidate, remove an active player, or leave
      the dialogue by posting the lobby privately, opening it, or closing it. */
  method CollectStep(ctx: LobbyContext, suffix: string, values: seq<string>,
                     filterOut: (nat, int, seq<Character>) -> DbResult<seq<Character>>)
    returns (out: StepOutcome)
    requires ctx.Valid() && ctx.state == CollectPlayers && ctx.contentInfo.Some?
    modifies ctx`state, ctx`players, ctx`activePlayers, ctx.playerList
    ensures ctx.Valid() && Stage(ctx)
    ensures out == StepPanicked <==>
      CollectPanics(suffix, values, |old(ctx.players)|, |old(ctx.activePlayers)|, ctx.playerList.Length)
    ensures out == Closed <==> suffix == "close-lobby"
    ensures out == Exit <==> suffix == "post-lobby" || suffix == "open-lobby"
    ensures out == Continue || out == Exit ==> NextState(old(ctx.state), suffix) == Some(ctx.state)
    ensures out == Closed || out == StepPanicked ==> ctx.state == old(ctx.state)
    ensures out != Continue ==>
      ctx.activePlayers == old(ctx.activePlayers) && ctx.playerList[..] == old(ctx.playerList[..])
      && ctx.players == old(ctx.players)
    ensures out == Continue && suffix == "add" ==>
      var idx := ParseUnsigned(values[0], U64_MAX).value;
      ctx.activePlayers == old(ctx.activePlayers) + [old(ctx.players)[idx]]
      && ctx.playerList[..] == old(ctx.playerList[..])[|old(ctx.activePlayers)| := SlotText(old(ctx.players)[idx])]
      && ctx.players == OrEmpty(filterOut(ctx.guildId, ctx.contentInfo.value.ilvlReq, ctx.activePlayers))
    ensures out == Continue && suffix == "remove" ==>
      var idx := ParseUnsigned(values[0], U64_MAX).value;
      ctx.activePlayers == old(ctx.activePlayers[..idx] + ctx.activePlayers[idx + 1..])
      && ctx.playerList[..] == old(ctx.playerList[..idx] + ctx.playerList[idx + 1..]) + [EMPTY_SLOT]
      && ctx.players == OrEmpty(filterOut(ctx.guildId, ctx.contentInfo.value.ilvlReq, ctx.activePlayers))
    ensures old(Snapshot(ctx)).contentInfo.Some? &&
      Stepped(out, Snapshot(ctx)) == Collect(old(Snapshot(ctx)), suffix, values, ctx.guildId, filterOut)
  {
    if suffix == "add" || suffix == "remove" {
      if values == [] {
        return StepPanicked;
      }
      var parsed := ParseUnsigned(values[0], U64_MAX);
      if parsed.None? {
        return StepPanicked;
      }
      var idx := parsed.value;
      if suffix == "add" {
        if idx >= |ctx.players| || |ctx.activePlayers| >= ctx.playerList.Length {
          return StepPanicked;
        }
        ctx.AddActivePlayer(idx, filterOut);
      } else {
        if idx >= |ctx.activePlayers| {
          return StepPanicked;
        }
        ctx.RemoveActivePlayer(idx, filterOut);
      }
      out := Continue;
    } else if suffix == "post-lobby" {
      ctx.state := PrivateLobby;
      out := Exit;
    } else if suffix == "open-lobby" {
      ctx.state := PublicLobby;
      out := Exit;
    } else if suffix == "close-lobby" {
      out := Closed;
    } else {
      out := StepPanicked;
    }
  }

  /** A component interaction of the lobby master's, as the dialogue's
      collector delivers it. */
  datatype Interaction = Interaction(customId: string, values: seq<string>)

  /** The data and queries the dialogue uses: the instance data by name,
      the guild's characters meeting an item level, and the same excluding
      a roster. */
  datatype FormationEnv = FormationEnv(
    contentData: map<string, ContentInfo>,
    byMinIlvl: (nat, int) -> DbResult<seq<Character>>,
    filterOut: (nat, int, seq<Character>) -> DbResult<seq<Character>>)

  /** The event suffix: the custom id with the lobby id removed. */
  function SuffixOf(customId: string, lobbyId: string): (suffix: string)
    requires StartsWith(customId, lobbyId)
    ensures lobbyId + suffix == customId
  {
    customId[|lobbyId|..]
  }

  /** Whether the step of state `s` panics on `suffix` and the selected
      `values`: a suffix that is not a category in `ContentSelection`, a
      missing or unknown instance in `LobbyFirstPrompt`, the conditions of
      `CollectPanics` in `CollectPlayers` (with the numbers of candidates
      and active players and the roster's capacity), and any step once the
      dialogue has left the loop. */
  predicate StepPanics(s: State, suffix: string, values: seq<string>, candidates: nat, active: nat,
                       capacity: nat, contentData: map<string, ContentInfo>)
  {
    match s
    case ContentSelection => !IsContentKey(suffix)
    case LobbyFirstPrompt => values == [] || values[0] !in contentData
    case CollectPlayers => CollectPanics(suffix, values, candidates, active, capacity)
    case _ => true
  }

  /** One step of the dialogue on a draft, as the three step methods take
      it: the category is chosen; the instance is chosen, with one empty
      slot per place and the guild's characters meeting its item level as
      candidates when the query succeeds; a candidate is added or an active
      player removed, and the candidates become the query's characters not
      in the new roster (none when it fails); the lobby is posted privately,
      opened, or closed. A step panics exactly when `StepPanics` says so,
      and then the draft is as it was. */
  function Step(d: Draft, suffix: string, values: seq<string>, guildId: nat, env: FormationEnv): (r: Stepped)
    requires Fits(d)
    ensures Fits(r.next)
    ensures r.out == StepPanicked <==>
      StepPanics(d.state, suffix, values, |d.candidates|, |d.roster|, d.capacity, env.contentData)
    ensures r.out == StepPanicked || r.out == Closed ==> r.next == d
    ensures r.out == Closed <==> d.state == CollectPlayers && suffix == "close-lobby"
    ensures r.out == Continue || r.out == Exit ==> NextState(d.state, suffix) == Some(r.next.state)
    ensures r.out == Exit <==> r.out != StepPanicked && IsExit(r.next.state)
  {
    match d.state
    case ContentSelection => ChooseCategory(d, suffix)
    case LobbyFirstPrompt => ChooseInstance(d, values, guildId, env.byMinIlvl, env.contentData)
    case CollectPlayers => Collect(d, suffix, values, guildId, env.filterOut)
    case _ => Stepped(StepPanicked, d)
  }

  /** One pass of the dialogue loop: the step of the current state. */
  method FormationStep(ctx: LobbyContext, inter: Interaction, env: FormationEnv) returns (out: StepOutcome)
    requires ctx.Valid() && Stage(ctx) && StartsWith(inter.customId, ctx.idAsString)
    modifies ctx`state, ctx`content, ctx`contentInfo, ctx`players, ctx`activePlayers, ctx`playerList, ctx.playerList
    ensures ctx.Valid() && Stage(ctx)
    ensures ctx.playerList == old(ctx.playerList) || fresh(ctx.playerList)
    ensures out == Continue || out == Exit ==>
      NextState(old(ctx.state), SuffixOf(inter.customId, ctx.idAsString)) == Some(ctx.state)
    ensures out == Exit <==> out != StepPanicked && IsExit(ctx.state)
    ensures out == Closed || out == StepPanicked ==> ctx.state == old(ctx.state)
    ensures out == Closed ==> ctx.state == CollectPlayers
    ensures out == Closed ==> NextState(old(ctx.state), SuffixOf(inter.customId, ctx.idAsString)).None?
    ensures Rank(ctx.state) >= Rank(old(ctx.state))
    ensures out == StepPanicked <==>
      StepPanics(old(ctx.state), SuffixOf(inter.customId, ctx.idAsString), inter.values,
                 |old(ctx.players)|, |old(ctx.activePlayers)|, old(ctx.playerList).Length, env.contentData)
    ensures out == Closed <==>
      old(ctx.state) == CollectPlayers && SuffixOf(inter.customId, ctx.idAsString) == "close-lobby"
    ensures out == StepPanicked ==>
      ctx.players == old(ctx.players) && ctx.activePlayers == old(ctx.activePlayers)
      && ctx.playerList == old(ctx.playerList)
    ensures Fits(old(Snapshot(ctx))) &&
      Stepped(out, Snapshot(ctx)) == Step(old(Snapshot(ctx)), SuffixOf(inter.customId, ctx.idAsString),
                                          inter.values, ctx.guildId, env)
  {
    var suffix := SuffixOf(inter.customId, ctx.idAsString);
    SnapshotFits(ctx);
    NextStateGoesForward(ctx.state, suffix);
    match ctx.state {
      case ContentSelection =>
        out := SelectContent(ctx, suffix);
      case LobbyFirstPrompt =>
        out := SelectInstance(ctx, inter.values, env.byMinIlvl, env.contentData);
      case CollectPlayers =>
        out := CollectStep(ctx, suffix, inter.values, env.filterOut);
      case _ =>
        out := StepPanicked;
    }
  }

  /** How far the dialogue has got: going on in a state, or stopped. */
  datatype Progress = Going(state: State) | Stopped(state: State)

  /** The course `NextState` prescribes for the dialogue over the
      interactions whose custom id starts with the lobby id: from
      `ContentSelection`, each one moves the state on, until one reaches an
      exit or has no successor: `close-lobby`, and the suffixes the code
      panics on (one that is not a category in `ContentSelection`, an
      unknown one in `CollectPlayers`); the ones after that change nothing.
      Panics that depend on the selected values are not its concern. */
  function Dialogue(inters: seq<Interaction>, lobbyId: string): Progress
  {
    if inters == [] then Going(ContentSelection)
    else
      var p := Dialogue(inters[..|inters| - 1], lobbyId);
      var last := inters[|inters| - 1];
      if p.Stopped? || !StartsWith(last.customId, lobbyId) then p
      else match NextState(p.state, SuffixOf(last.customId, lobbyId))
        case None => Stopped(p.state)
        case Some(t) => if IsExit(t) then Stopped(t) else Going(t)
  }

  /** What one more interaction does to a dialogue still going on. */
  lemma DialogueSnoc(inters: seq<Interaction>, lobbyId: string, i: nat, s: State)
    requires i < |inters| && Dialogue(inters[..i], lobbyId) == Going(s)
    ensures !StartsWith(inters[i].customId, lobbyId) ==> Dialogue(inters[..i + 1], lobbyId) == Going(s)
    ensures StartsWith(inters[i].customId, lobbyId) ==>
      Dialogue(inters[..i + 1], lobbyId) ==
        match NextState(s, SuffixOf(inters[i].customId, lobbyId))
        case None => Stopped(s)
        case Some(t) => if IsExit(t) then Stopped(t) else Going(t)
  {
    assert inters[..i + 1][..i] == inters[..i];
  }

  /** Once stopped, the dialogue stays where it stopped. */
  lemma {:induction false} StoppedStaysStopped(inters: seq<Interaction>, lobbyId: string, k: nat)
    requires k <= |inters| && Dialogue(inters[..k], lobbyId).Stopped?
    ensures Dialogue(inters, lobbyId) == Dialogue(inters[..k], lobbyId)
    decreases |inters|
  {
    if k == |inters| {
      assert inters[..k] == inters;
    } else {
      var init := inters[..|inters| - 1];
      assert init[..k] == inters[..k];
      StoppedStaysStopped(init, lobbyId, k);
    }
  }

  /** The dialogue never reaches `Generated`, goes on only outside the
      exit states, and stops at an exit or where a step has no successor:
      in `ContentSelection` on a suffix that is not a category, or in
      `CollectPlayers`. */
  lemma {:induction false} DialogueStates(inters: seq<Interaction>, lobbyId: string)
    ensures Dialogue(inters, lobbyId).state != Generated
    ensures Dialogue(inters, lobbyId).Going? ==> !IsExit(Dialogue(inters, lobbyId).state)
    ensures Dialogue(inters, lobbyId).Stopped? ==>
      IsExit(Dialogue(inters, lobbyId).state)
      || Dialogue(inters, lobbyId).state == ContentSelection
      || Dialogue(inters, lobbyId).state == CollectPlayers
  {
    if inters != [] {
      var init := inters[..|inters| - 1];
      DialogueStates(init, lobbyId);
      var p := Dialogue(init, lobbyId);
      var last := inters[|inters| - 1];
      if p.Going? && StartsWith(last.customId, lobbyId) {
        NextStateGoesForward(p.state, SuffixOf(last.customId, lobbyId));
      }
    }
  }

  datatype FormationEnd = ReadyToPost | ClosedByMaster | FormationPanicked

  /** Where the dialogue's data stands: still going with a draft, or ended
      at the `at`-th interaction by an exit (ready to post), a close or a
      panic, with the draft the ending step left. */
  datatype Run = Running(draft: Draft) | Finished(end: FormationEnd, draft: Draft, at: nat)

  /** How the loop ends on a run: a run still going ends when the collector
      times out, ready to post. */
  function Outcome(r: Run): FormationEnd
  {
    if r.Running? then ReadyToPost else r.end
  }

  /** The dialogue's data over the interactions the collector yields, from
      the draft `start`: each of the lobby's own interactions is a `Step`,
      until one exits, closes or panics; the others, and all interactions
      after the end, change nothing. */
  function Formation(inters: seq<Interaction>, lobbyId: string, guildId: nat, env: FormationEnv,
                     start: Draft): (r: Run)
    requires Fits(start)
    ensures Fits(r.draft)
    ensures r.Finished? ==> r.at < |inters| && StartsWith(inters[r.at].customId, lobbyId)
  {
    if inters == [] then Running(start)
    else
      var r := Formation(inters[..|inters| - 1], lobbyId, guildId, env, start);
      var last := inters[|inters| - 1];
      if r.Finished? || !StartsWith(last.customId, lobbyId) then r
      else
        var s := Step(r.draft, SuffixOf(last.customId, lobbyId), last.values, guildId, env);
        match s.out
        case Continue => Running(s.next)
        case Exit => Finished(ReadyToPost, s.next, |inters| - 1)
        case Closed => Finished(ClosedByMaster, s.next, |inters| - 1)
        case StepPanicked => Finished(FormationPanicked, s.next, |inters| - 1)
  }

  /** What one more interaction does to a run still going. */
  lemma FormationSnoc(inters: seq<Interaction>, lobbyId: string, guildId: nat, env: FormationEnv,
                      start: Draft, i: nat, d: Draft)
    requires Fits(start) && Fits(d) && i < |inters|
    requires Formation(inters[..i], lobbyId, guildId, env, start) == Running(d)
    ensures !StartsWith(inters[i].customId, lobbyId) ==>
      Formation(inters[..i + 1], lobbyId, guildId, env, start) == Running(d)
    ensures StartsWith(inters[i].customId, lobbyId) ==>
      var s := Step(d, SuffixOf(inters[i].customId, lobbyId), inters[i].values, guildId, env);
      Formation(inters[..i + 1], lobbyId, guildId, env, start) ==
        match s.out
        case Continue => Running(s.next)
        case Exit => Finished(ReadyToPost, s.next, i)
        case Closed => Finished(ClosedByMaster, s.next, i)
        case StepPanicked => Finished(FormationPanicked, s.next, i)
  {
    assert inters[..i + 1][..i] == inters[..i];
  }

  /** Once ended, the run stays as it ended. */
  lemma {:induction false} FinishedStaysFinished(inters: seq<Interaction>, lobbyId: string, guildId: nat,
                                                 env: FormationEnv, start: Draft, k: nat)
    requires Fits(start) && k <= |inters|
    requires Formation(inters[..k], lobbyId, guildId, env, start).Finished?
    ensures Formation(inters, lobbyId, guildId, env, start) == Formation(inters[..k], lobbyId, guildId, env, start)
    decreases |inters|
  {
    if k == |inters| {
      assert inters[..k] == inters;
    } else {
      var init := inters[..|inters| - 1];
      assert init[..k] == inters[..k];
      FinishedStaysFinished(init, lobbyId, guildId, env, start, k);
    }
  }

  /** The run follows the course `Dialogue` prescribes: going on, its state
      is the dialogue's; ended by an exit or a close, the dialogue stopped
      in its state; ended by a panic, the dialogue was still going in its
      state before the panicking interaction, and `StepPanics` holds there.
      A close comes on `close-lobby` in `CollectPlayers`. */
  lemma {:induction false} FormationFollowsDialogue(inters: seq<Interaction>, lobbyId: string, guildId: nat,
                                                    env: FormationEnv, start: Draft)
    requires Fits(start) && start.state == ContentSelection
    ensures var r := Formation(inters, lobbyId, guildId, env, start);
      && (r.Running? ==> Dialogue(inters, lobbyId) == Going(r.draft.state))
      && (r.Finished? && r.end != FormationPanicked ==> Dialogue(inters, lobbyId) == Stopped(r.draft.state))
      && (r.Finished? && r.end != ReadyToPost ==> Dialogue(inters[..r.at], lobbyId) == Going(r.draft.state))
      && (r.Finished? && r.end == ReadyToPost ==>
            IsExit(r.draft.state) && Dialogue(inters[..r.at], lobbyId) == Going(CollectPlayers))
      && (r.Finished? && r.end == ClosedByMaster ==>
            r.draft.state == CollectPlayers && SuffixOf(inters[r.at].customId, lobbyId) == "close-lobby")
      && (r.Finished? && r.end == FormationPanicked ==>
            StepPanics(r.draft.state, SuffixOf(inters[r.at].customId, lobbyId), inters[r.at].values,
                       |r.draft.candidates|, |r.draft.roster|, r.draft.capacity, env.contentData))
    decreases |inters|
  {
    if inters != [] {
      var init := inters[..|inters| - 1];
      FormationFollowsDialogue(init, lobbyId, guildId, env, start);
      var r := Formation(init, lobbyId, guildId, env, start);
      var last := inters[|inters| - 1];
      if r.Finished? {
        assert init[..r.at] == inters[..r.at];
      } else if StartsWith(last.customId, lobbyId) {
        assert inters[..|inters| - 1] == init;
        var suffix := SuffixOf(last.customId, lobbyId);
        NextStateGoesForward(r.draft.state, suffix);
      }
    }
  }

  /** One pass of the loop on the `i`-th interaction: an interaction of
      another lobby is skipped; the lobby's own is handled, and the dialogue
      advances as `Dialogue` prescribes unless the step panics. The context
      then holds the draft `Formation` gives for one interaction more. */
  method FormationTurn(ctx: LobbyContext, inters: seq<Interaction>, i: nat, env: FormationEnv,
                       ghost start: Draft)
    returns (out: StepOutcome)
    requires i < |inters| && ctx.Valid() && Stage(ctx) && !IsExit(ctx.state)
    requires Dialogue(inters[..i], ctx.idAsString) == Going(ctx.state)
    requires Fits(start) && Formation(inters[..i], ctx.idAsString, ctx.guildId, env, start) == Running(Snapshot(ctx))
    modifies ctx`state, ctx`content, ctx`contentInfo, ctx`players, ctx`activePlayers, ctx`playerList, ctx.playerList
    ensures ctx.Valid() && Stage(ctx) && ctx.state != Generated
    ensures ctx.playerList == old(ctx.playerList) || fresh(ctx.playerList)
    ensures !StartsWith(inters[i].customId, ctx.idAsString) ==> out == Continue && ctx.state == old(ctx.state)
    ensures out == Continue ==> !IsExit(ctx.state) && Dialogue(inters[..i + 1], ctx.idAsString) == Going(ctx.state)
    ensures out == Exit ==> IsExit(ctx.state) && Dialogue(inters[..i + 1], ctx.idAsString) == Stopped(ctx.state)
    ensures out == Closed ==>
      ctx.state == CollectPlayers && Dialogue(inters[..i + 1], ctx.idAsString) == Stopped(ctx.state)
    ensures out == StepPanicked ==> StartsWith(inters[i].customId, ctx.idAsString) && ctx.state == old(ctx.state)
    ensures StartsWith(inters[i].customId, ctx.idAsString) ==>
      (out == StepPanicked <==>
         StepPanics(old(ctx.state), SuffixOf(inters[i].customId, ctx.idAsString), inters[i].values,
                    |old(ctx.players)|, |old(ctx.activePlayers)|, old(ctx.playerList).Length, env.contentData))
    ensures out == Closed <==>
      StartsWith(inters[i].customId, ctx.idAsString) && old(ctx.state) == CollectPlayers
      && SuffixOf(inters[i].customId, ctx.idAsString) == "close-lobby"
    ensures out == StepPanicked ==>
      ctx.players == old(ctx.players) && ctx.activePlayers == old(ctx.activePlayers)
      && ctx.playerList == old(ctx.playerList)
    ensures Formation(inters[..i + 1], ctx.idAsString, ctx.guildId, env, start) ==
      match out
      case Continue => Running(Snapshot(ctx))
      case Exit => Finished(ReadyToPost, Snapshot(ctx), i)
      case Closed => Finished(ClosedByMaster, Snapshot(ctx), i)
      case StepPanicked => Finished(FormationPanicked, Snapshot(ctx), i)
  {
    SnapshotFits(ctx);
    FormationSnoc(inters, ctx.idAsString, ctx.guildId, env, start, i, Snapshot(ctx));
    DialogueSnoc(inters, ctx.idAsString, i, ctx.state);
    DialogueStates(inters[..i], ctx.idAsString);
    if StartsWith(inters[i].customId, ctx.idAsString) {
      out := FormationStep(ctx, inters[i], env);
    } else {
      out := Continue;
    }
  }

  /** The dialogue loop over the interactions the collector yields. Those
      whose custom id does not start with the lobby id are filtered out; the
      loop ends at an exit, at `close-lobby`, at a panic, or when the
      collector times out (the end of the sequence), after which the lobby is
      posted as it stands. Without a panic the final state is the one
      `Dialogue` prescribes. A close or a panic happens at the `handled`-th
      interaction, one of the lobby's own, where `Dialogue` was still going:
      a close on `close-lobby` in `CollectPlayers`, a panic where
      `StepPanics` holds of the context, which the panic leaves as it was.
      In every case the context ends holding the draft `Formation` gives
      from the one it started with, and the loop ends as that run does. */
  method RunFormation(ctx: LobbyContext, inters: seq<Interaction>, env: FormationEnv)
    returns (end: FormationEnd, handled: nat)
    requires ctx.Valid() && Stage(ctx) && ctx.state == ContentSelection
    modifies ctx`state, ctx`content, ctx`contentInfo, ctx`players, ctx`activePlayers, ctx`playerList, ctx.playerList
    ensures ctx.Valid() && Stage(ctx)
    ensures ctx.state != Generated
    ensures IsExit(ctx.state) ==> end.ReadyToPost?
    ensures end.ClosedByMaster? ==> ctx.state == CollectPlayers
    ensures (forall i :: 0 <= i < |inters| ==> !StartsWith(inters[i].customId, ctx.idAsString)) ==>
      end == ReadyToPost && ctx.state == ContentSelection
    ensures end == ReadyToPost ==>
      Dialogue(inters, ctx.idAsString) == if IsExit(ctx.state) then Stopped(ctx.state) else Going(ctx.state)
    ensures end == ClosedByMaster ==> Dialogue(inters, ctx.idAsString) == Stopped(ctx.state)
    ensures end == FormationPanicked ==>
      handled < |inters| && StartsWith(inters[handled].customId, ctx.idAsString)
      && Dialogue(inters[..handled], ctx.idAsString) == Going(ctx.state)
      && StepPanics(ctx.state, SuffixOf(inters[handled].customId, ctx.idAsString), inters[handled].values,
                    |ctx.players|, |ctx.activePlayers|, ctx.playerList.Length, env.contentData)
    ensures end == ClosedByMaster ==>
      handled < |inters| && StartsWith(inters[handled].customId, ctx.idAsString)
      && SuffixOf(inters[handled].customId, ctx.idAsString) == "close-lobby"
      && Dialogue(inters[..handled], ctx.idAsString) == Going(CollectPlayers)
    ensures Fits(old(Snapshot(ctx)))
    ensures var r := Formation(inters, ctx.idAsString, ctx.guildId, env, old(Snapshot(ctx)));
      Snapshot(ctx) == r.draft && end == Outcome(r) && (r.Finished? ==> handled == r.at)
  {
    SnapshotFits(ctx);
    ghost var start := Snapshot(ctx);
    var i := 0;
    end, handled := ReadyToPost, 0;
    while i < |inters|
      invariant 0 <= i <= |inters|
      invariant ctx.Valid() && Stage(ctx) && ctx.state != Generated && !IsExit(ctx.state)
      invariant ctx.playerList == old(ctx.playerList) || fresh(ctx.playerList)
      invariant (forall k :: 0 <= k < |inters| ==> !StartsWith(inters[k].customId, ctx.idAsString)) ==>
        ctx.state == ContentSelection
      invariant Formation(inters[..i], ctx.idAsString, ctx.guildId, env, start) == Running(Snapshot(ctx))
    {
      FormationFollowsDialogue(inters[..i], ctx.idAsString, ctx.guildId, env, start);
      var out := FormationTurn(ctx, inters, i, env, start);
      if out != Continue {
        FinishedStaysFinished(inters, ctx.idAsString, ctx.guildId, env, start, i + 1);
        FormationFollowsDialogue(inters, ctx.idAsString, ctx.guildId, env, start);
        end := if out == Exit then ReadyToPost else if out == Closed then ClosedByMaster else FormationPanicked;
        return end, i;
      }
      i := i + 1;
    }
    assert inters[..i] == inters;
    FormationFollowsDialogue(inters, ctx.idAsString, ctx.guildId, env, start);
  }

  /** Publication: the candidates are dropped; when the lobby row is
      stored, the lobby is registered under its id text with a fresh
      mailbox (replacing any mailbox under that id) and, when it has a
      schedule, a timer task spawned at `now` is stored. */
  method Publish(ctx: LobbyContext, reg: LobbyMap, insertOk: bool, now: int, handle: nat)
    returns (reg': LobbyMap)
    requires ctx.Valid()
    modifies ctx`players, ctx`lobbyTime
    ensures ctx.Valid() && Snapshot(ctx) == old(Snapshot(ctx)).(candidates := [])
    ensures ctx.players == []
    ensures !insertOk ==> reg' == reg && ctx.lobbyTime == old(ctx.lobbyTime)
    ensures insertOk ==> reg' == Insert(reg, ctx.idAsString, NewMailbox())
    ensures insertOk && old(ctx.lobbyTime.schedule).Some? ==>
      ctx.lobbyTime == LobbyTime(old(ctx.lobbyTime.schedule),
                                 Some(TimerTask(handle, now, old(ctx.lobbyTime.schedule).value)))
    ensures insertOk && old(ctx.lobbyTime.schedule).None? ==> ctx.lobbyTime == old(ctx.lobbyTime)
  {
    ctx.players := [];
    if !insertOk {
      return reg;
    }
    reg' := Insert(reg, ctx.idAsString, NewMailbox());
    if ctx.lobbyTime.schedule.Some? {
      ctx.lobbyTime := ctx.lobbyTime.(task := Some(TimerTask(handle, now, ctx.lobbyTime.schedule.value)));
    }
  }

  datatype CreateResult =
    | Refused(gate: Gate)
    | ClosedDuringFormation(ctx: LobbyContext, at: nat)
    | PanickedDuringFormation(ctx: LobbyContext, at: nat)
    | NotStored
    | Posted(ctx: LobbyContext)

  /** What the clock and the database answer during one `create_lobby`. */
  datatype CreateEnv = CreateEnv(
    isPlainGuildmate: DbResult<bool>,
    checkedAt: int,
    insertOk: bool,
    postedAt: int,
    handle: nat)

  /** `create_lobby` end to end: the creator check, the schedule check (an
      unacceptable time only drops the schedule), the dialogue, and the
      publication. A lobby closed or panicked in the dialogue comes with its
      context and the interaction that ended the dialogue, which shows the
      close or the panic; otherwise the lobby is posted exactly when its row
      is stored. Which of these happens, and the data the lobby ends with,
      are the ones `Formation` gives from a fresh draft (a posted lobby's
      candidates are dropped). A posted lobby is registered under its own id text with an
      empty mailbox, keeps exactly the accepted schedule, and has a timer
      task exactly when it has a schedule. */
  method CreateLobby(id: Uuid, guildId: nat, channelId: nat, messageId: nat, author: nat,
                     requested: Option<int>, inters: seq<Interaction>,
                     fenv: FormationEnv, cenv: CreateEnv, reg: LobbyMap)
    returns (result: CreateResult, reg': LobbyMap)
    ensures result.Refused? <==> !CheckCreator(cenv.isPlainGuildmate).Allowed?
    ensures result.Refused? ==> result.gate == CheckCreator(cenv.isPlainGuildmate)
    ensures !result.Posted? ==> reg' == reg
    ensures result.ClosedDuringFormation? ==>
      var ctx := result.ctx;
      ctx.idAsString == Hyphenated(id) && ctx.state == CollectPlayers
      && result.at < |inters| && StartsWith(inters[result.at].customId, Hyphenated(id))
      && SuffixOf(inters[result.at].customId, Hyphenated(id)) == "close-lobby"
      && Dialogue(inters[..result.at], Hyphenated(id)) == Going(CollectPlayers)
      && Dialogue(inters, Hyphenated(id)) == Stopped(CollectPlayers)
    ensures result.PanickedDuringFormation? ==>
      var ctx := result.ctx;
      ctx.idAsString == Hyphenated(id)
      && result.at < |inters| && StartsWith(inters[result.at].customId, Hyphenated(id))
      && Dialogue(inters[..result.at], Hyphenated(id)) == Going(ctx.state)
      && StepPanics(ctx.state, SuffixOf(inters[result.at].customId, Hyphenated(id)), inters[result.at].values,
                    |ctx.players|, |ctx.activePlayers|, ctx.playerList.Length, fenv.contentData)
    ensures result.NotStored? ==> CheckCreator(cenv.isPlainGuildmate).Allowed? && !cenv.insertOk
    ensures result.Posted? ==> CheckCreator(cenv.isPlainGuildmate).Allowed? && cenv.insertOk
    ensures var r := Formation(inters, Hyphenated(id), guildId, fenv, FRESH_DRAFT);
      var allowed := CheckCreator(cenv.isPlainGuildmate).Allowed?;
      && (result.ClosedDuringFormation? <==> allowed && Outcome(r) == ClosedByMaster)
      && (result.PanickedDuringFormation? <==> allowed && Outcome(r) == FormationPanicked)
      && (result.NotStored? <==> allowed && Outcome(r) == ReadyToPost && !cenv.insertOk)
      && (result.Posted? <==> allowed && Outcome(r) == ReadyToPost && cenv.insertOk)
    ensures result.ClosedDuringFormation? || result.PanickedDuringFormation? ==>
      var r := Formation(inters, Hyphenated(id), guildId, fenv, FRESH_DRAFT);
      Snapshot(result.ctx) == r.draft && result.at == r.at
    ensures result.Posted? ==>
      Snapshot(result.ctx) == Formation(inters, Hyphenated(id), guildId, fenv, FRESH_DRAFT).draft.(candidates := [])
    ensures result.Posted? ==>
      var ctx := result.ctx;
      ctx.Valid() && ctx.id == id && ctx.lobbyMaster == author && ctx.guildId == guildId
      && ctx.players == []
      && reg' == Insert(reg, Hyphenated(id), NewMailbox())
      && Dialogue(inters, Hyphenated(id)) == (if IsExit(ctx.state) then Stopped(ctx.state) else Going(ctx.state))
      && ctx.lobbyTime.schedule == KeptSchedule(CheckTime(cenv.checkedAt, requested))
      && (ctx.lobbyTime.task.Some? <==> ctx.lobbyTime.schedule.Some?)
      && (ctx.lobbyTime.task.Some? ==>
            ctx.lobbyTime.task.value == TimerTask(cenv.handle, cenv.postedAt, ctx.lobbyTime.schedule.value))
  {
    var gate := CheckCreator(cenv.isPlainGuildmate);
    if !gate.Allowed? {
      return Refused(gate), reg;
    }
    var schedule := KeptSchedule(CheckTime(cenv.checkedAt, requested));
    var ctx := new LobbyContext(id, guildId, channelId, messageId, author, schedule);
    assert Snapshot(ctx) == FRESH_DRAFT;
    var end, handled := RunFormation(ctx, inters, fenv);
    ghost var r := Formation(inters, Hyphenated(id), guildId, fenv, FRESH_DRAFT);
    assert Snapshot(ctx) == r.draft && end == Outcome(r);
    if end == ClosedByMaster {
      return ClosedDuringFormation(ctx, handled), reg;
    } else if end == FormationPanicked {
      return PanickedDuringFormation(ctx, handled), reg;
    }
    reg' := Publish(ctx, reg, cenv.insertOk, cenv.postedAt, cenv.handle);
    result := if cenv.insertOk then Posted(ctx) else NotStored;
  }
}
