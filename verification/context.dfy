/** `LobbyContext`: the state of one lobby, shared by the formation dialogue,
    the lobby task and the timer. The roster is kept twice: `activePlayers`,
    the confirmed characters in order, and `playerList`, a fixed number of
    display slots (one per place the content has) whose first entries describe
    the active players and whose remaining entries are the empty-slot text. */
module Context {
  import opened Common
  import opened Text
  import opened Uuid
  import opened Entity
  import opened Info
  import opened Helper
  import opened Schedule

  /** The formation states (declared beside `create_lobby`). `Generated` is
      never entered. */
  datatype State = ContentSelection | LobbyFirstPrompt | CollectPlayers | PrivateLobby | PublicLobby | Generated

  const EMPTY_SLOT: string := "\n*This slot is empty*"

  /** The display text of an occupied slot. */
  function SlotText(p: Character): string
  {
    "\n**" + p.name + "** (" + p.className + ") => __**" + IntToString(p.itemLevel)
    + "** Item Level__ | <@" + p.id + ">"
  }

  /** An occupied slot never reads as an empty one. */
  lemma SlotTextNotEmpty(p: Character)
    ensures SlotText(p) != EMPTY_SLOT
  {
    assert SlotText(p)[2] == '*';
    assert EMPTY_SLOT[2] == 'T';
  }

  /** The slots a roster of `size` places shows for `active`. */
  function RosterSlots(active: seq<Character>, size: nat): (slots: seq<string>)
    requires |active| <= size
    ensures |slots| == size
  {
    seq(size, k => if 0 <= k < |active| then SlotText(active[k]) else EMPTY_SLOT)
  }

  /** The first `|active|` slots show the active characters in order; the
      rest are empty. */
  lemma RosterSlotsContents(active: seq<Character>, size: nat)
    requires |active| <= size
    ensures var slots := RosterSlots(active, size);
      (forall k :: 0 <= k < |active| ==> slots[k] == SlotText(active[k]))
      && (forall k :: |active| <= k < size ==> slots[k] == EMPTY_SLOT)
  {
  }

  /** Writing the slot after the roster and appending the player gives the
      slots of the longer roster. */
  lemma RosterSlotsAfterAppend(active: seq<Character>, size: nat, p: Character)
    requires |active| < size
    ensures RosterSlots(active + [p], size) == RosterSlots(active, size)[|active| := SlotText(p)]
  {
  }

  /** Dropping entry `idx` of the roster and of its slots, and appending an
      empty slot, gives the slots of the shorter roster. */
  lemma RosterSlotsAfterRemove(active: seq<Character>, size: nat, idx: nat)
    requires |active| <= size && idx < |active|
    ensures var slots := RosterSlots(active, size);
      RosterSlots(active[..idx] + active[idx + 1..], size) == slots[..idx] + slots[idx + 1..] + [EMPTY_SLOT]
  {
    var slots := RosterSlots(active, size);
    var shorter := active[..idx] + active[idx + 1..];
    var lhs := RosterSlots(shorter, size);
    var rhs := slots[..idx] + slots[idx + 1..] + [EMPTY_SLOT];
    forall k | 0 <= k < size ensures lhs[k] == rhs[k] {
      if k < idx {
        assert shorter[k] == active[k];
      } else if k < |shorter| {
        assert shorter[k] == active[k + 1];
      }
    }
  }

  /** `Vec::remove(idx)` followed by a push of the empty slot, on a list of
      fixed length. */
  method RemoveSlot(a: array<string>, idx: nat)
    requires idx < a.Length
    modifies a
    ensures a[..] == old(a[..])[..idx] + old(a[..])[idx + 1..] + [EMPTY_SLOT]
  {
    ghost var before := a[..];
    var n := a.Length;
    var k := idx;
    while k < n - 1
      invariant idx <= k <= n - 1
      invariant forall j :: 0 <= j < idx ==> a[j] == before[j]
      invariant forall j :: idx <= j < k ==> a[j] == before[j + 1]
      invariant forall j :: k <= j < n ==> a[j] == before[j]
    {
      a[k] := a[k + 1];
      k := k + 1;
    }
    a[n - 1] := EMPTY_SLOT;
    assert a[..] == before[..idx] + before[idx + 1..] + [EMPTY_SLOT];
  }

  /** The number of occupied slots is the number of active players. */
  function Occupied(slots: seq<string>): nat
  {
    if slots == [] then 0
    else (if slots[|slots| - 1] != EMPTY_SLOT then 1 else 0) + Occupied(slots[..|slots| - 1])
  }

  lemma {:induction false} OccupiedCountsActive(active: seq<Character>, size: nat)
    requires |active| <= size
    ensures Occupied(RosterSlots(active, size)) == |active|
  {
    if size > 0 {
      var slots := RosterSlots(active, size);
      var init := if |active| == size then active[..size - 1] else active;
      var shorter := RosterSlots(init, size - 1);
      assert slots[..size - 1] == shorter by {
        forall k | 0 <= k < size - 1 ensures slots[k] == shorter[k] {
          if k < |init| {
            assert init[k] == active[k];
          }
        }
      }
      OccupiedCountsActive(init, size - 1);
      if |active| == size {
        SlotTextNotEmpty(active[size - 1]);
      }
    }
  }

  /** A user is in the roster when one of the active characters belongs to
      them; character owner ids are the user id's decimal text. */
  predicate UserInRoster(active: seq<Character>, userId: nat)
  {
    exists k :: 0 <= k < |active| && active[k].id == NatToString(userId)
  }

  datatype MenuOption = MenuOption(caption: string, value: string, description: Option<string>)

  datatype SelectMenu = SelectMenu(customId: string, disabled: bool, placeholder: Option<string>, options: seq<MenuOption>)

  datatype ButtonStyle = Primary | Success | Danger

  datatype Button = Button(caption: string, style: ButtonStyle, customId: string)

  /** `AddOption::option`: the character's name as label, its class padded to
      15 and its item level padded to 5 as description, and the given value. */
  function CharacterOption(p: Character, value: string): (o: MenuOption)
    ensures o.caption == p.name && o.value == value && o.description.Some?
    ensures |o.description.value| >= 15 + 4 + 5 + 5
    ensures StartsWith(o.description.value, p.className)
    ensures StartsWith(o.description.value, PadRight(p.className, 15, ' ') + " -> ")
    ensures StartsWith(o.description.value[|PadRight(p.className, 15, ' ')| + 4..], IntToString(p.itemLevel))
    ensures o.description.value[|o.description.value| - 5..] == " ilvl"
  {
    var cls := PadRight(p.className, 15, ' ');
    var lvl := PadRight(IntToString(p.itemLevel), 5, ' ');
    var d := cls + " -> " + lvl + " ilvl";
    assert d[..|p.className|] == cls[..|p.className|];
    assert d[..|cls| + 4] == cls + " -> ";
    assert d[|cls| + 4..][..|IntToString(p.itemLevel)|] == lvl[..|IntToString(p.itemLevel)|];
    assert d[|d| - 5..] == " ilvl";
    MenuOption(p.name, value, Some(cls + " -> " + lvl + " ilvl"))
  }

  /** The builder loop over `iter().enumerate()`: one entry per element, in
      order, made from the element and its index. */
  method Enumerate<T, U>(xs: seq<T>, f: (T, nat) -> U) returns (ys: seq<U>)
    ensures |ys| == |xs|
    ensures forall i :: 0 <= i < |xs| ==> ys[i] == f(xs[i], i)
  {
    ys := [];
    var i := 0;
    while i < |xs|
      invariant 0 <= i <= |xs| && |ys| == i
      invariant forall k :: 0 <= k < i ==> ys[k] == f(xs[k], k)
    {
      ys := ys + [f(xs[i], i)];
      i := i + 1;
    }
  }

  /** One option per character, in order, whose value is its index. */
  method IndexedOptions(ps: seq<Character>) returns (os: seq<MenuOption>)
    ensures |os| == |ps|
    ensures forall i :: 0 <= i < |ps| ==> os[i] == CharacterOption(ps[i], NatToString(i))
  {
    os := Enumerate(ps, (p, i) => CharacterOption(p, NatToString(i)));
  }

  /** The value of the option at index `i` parses back to `i`, so the player
      the add and remove handlers pick is the one the option showed. */
  lemma OptionValueSelectsIndex(ps: seq<Character>, os: seq<MenuOption>, i: nat)
    requires |os| == |ps| && i < |ps| && i <= U64_MAX
    requires forall k :: 0 <= k < |ps| ==> os[k] == CharacterOption(ps[k], NatToString(k))
    ensures ParseUnsigned(os[i].value, U64_MAX) == Some(i)
  {
    ParseNatToString(i, U64_MAX);
  }

  class LobbyContext {
    const id: Uuid
    const idAsString: string
    const guildId: nat
    const channelId: nat
    const messageId: nat
    const lobbyMaster: nat
    var state: State
    var content: Option<LobbyContent>
    var contentInfo: Option<ContentInfo>
    var lobbyTime: LobbyTime
    var players: seq<Character>
    var activePlayers: seq<Character>
    var playerList: array<string>

    /** The slot-correspondence invariant: the id text is the rendered id,
        the roster fits its slots, slot `k` describes active player `k` and
        the rest are empty; there is one slot per place of the content, and
        none before the content is chosen (which comes after the category). */
    ghost predicate Valid()
      reads this, playerList
    {
      idAsString == Hyphenated(id)
      && |activePlayers| <= playerList.Length
      && playerList[..] == RosterSlots(activePlayers, playerList.Length)
      && (if contentInfo.Some? then playerList.Length == contentInfo.value.contentSize && content.Some?
          else playerList.Length == 0)
    }

    /** The context as `create_lobby` builds it before the first prompt. */
    constructor (id: Uuid, guildId: nat, channelId: nat, messageId: nat, lobbyMaster: nat,
                 schedule: Option<int>)
      ensures Valid()
      ensures this.id == id && this.guildId == guildId && this.channelId == channelId
      ensures this.messageId == messageId && this.lobbyMaster == lobbyMaster
      ensures state == ContentSelection && content == None && contentInfo == None
      ensures lobbyTime == LobbyTime(schedule, None)
      ensures players == [] && activePlayers == [] && playerList.Length == 0
      ensures fresh(playerList)
    {
      this.id := id;
      idAsString := Hyphenated(id);
      this.guildId := guildId;
      this.channelId := channelId;
      this.messageId := messageId;
      this.lobbyMaster := lobbyMaster;
      state := ContentSelection;
      content := None;
      contentInfo := None;
      lobbyTime := LobbyTime(schedule, None);
      players := [];
      activePlayers := [];
      playerList := new string[0];
    }

    /** Sets the content info and allocates one empty slot per place. */
    method InitRoster(info: ContentInfo)
      requires Valid() && contentInfo.None? && content.Some?
      modifies this`contentInfo, this`playerList
      ensures Valid() && contentInfo == Some(info) && fresh(playerList)
      ensures playerList[..] == seq(info.contentSize, _ => EMPTY_SLOT)
      ensures activePlayers == []
    {
      contentInfo := Some(info);
      playerList := new string[info.contentSize](_ => EMPTY_SLOT);
    }

    /** `add_active_player_by_model`: the slot after the last active player
        gets the player's text and the player is appended. */
    method AddActivePlayerByModel(player: Character)
      requires Valid() && |activePlayers| < playerList.Length
      modifies this`activePlayers, playerList
      ensures Valid()
      ensures activePlayers == old(activePlayers) + [player]
      ensures playerList[..] == old(playerList[..])[|old(activePlayers)| := SlotText(player)]
    {
      RosterSlotsAfterAppend(activePlayers, playerList.Length, player);
      playerList[|activePlayers|] := SlotText(player);
      activePlayers := activePlayers + [player];
    }

    /** `add_active_player`: adds candidate `idx`, then replaces the
        candidates with the guild's characters that qualify and are not
        active (`filterOut`), or with none when that query fails. */
    method AddActivePlayer(idx: nat, filterOut: (nat, int, seq<Character>) -> DbResult<seq<Character>>)
      requires Valid() && idx < |players| && |activePlayers| < playerList.Length
      modifies this`activePlayers, this`players, playerList
      ensures Valid() && contentInfo.Some?
      ensures activePlayers == old(activePlayers) + [old(players)[idx]]
      ensures playerList[..] == old(playerList[..])[|old(activePlayers)| := SlotText(old(players)[idx])]
      ensures players == OrEmpty(filterOut(guildId, contentInfo.value.ilvlReq, activePlayers))
    {
      var player := players[idx];
      AddActivePlayerByModel(player);
      players := OrEmpty(filterOut(guildId, contentInfo.value.ilvlReq, activePlayers));
    }

    /** `remove_active_player_without_filter`: drops entry `idx` of both
        lists, shifting the later slots down, and appends an empty slot. */
    method RemoveActivePlayerWithoutFilter(idx: nat)
      requires Valid() && idx < |activePlayers|
      modifies this`activePlayers, playerList
      ensures Valid()
      ensures activePlayers == old(activePlayers[..idx] + activePlayers[idx + 1..])
      ensures playerList[..] == old(playerList[..])[..idx] + old(playerList[..])[idx + 1..] + [EMPTY_SLOT]
    {
      RosterSlotsAfterRemove(activePlayers, playerList.Length, idx);
      RemoveSlot(playerList, idx);
      activePlayers := activePlayers[..idx] + activePlayers[idx + 1..];
    }

    /** `remove_active_player`: the same removal, then the candidates are
        refreshed against the remaining roster. */
    method RemoveActivePlayer(idx: nat, filterOut: (nat, int, seq<Character>) -> DbResult<seq<Character>>)
      requires Valid() && idx < |activePlayers|
      modifies this`activePlayers, this`players, playerList
      ensures Valid() && contentInfo.Some?
      ensures activePlayers == old(activePlayers[..idx] + activePlayers[idx + 1..])
      ensures playerList[..] == old(playerList[..])[..idx] + old(playerList[..])[idx + 1..] + [EMPTY_SLOT]
      ensures players == OrEmpty(filterOut(guildId, contentInfo.value.ilvlReq, activePlayers))
    {
      RemoveActivePlayerWithoutFilter(idx);
      players := OrEmpty(filterOut(guildId, contentInfo.value.ilvlReq, activePlayers));
    }

    /** `is_active_player`: whether one of the active characters belongs to
        the user. */
    method IsActivePlayer(userId: nat) returns (r: bool)
      ensures r <==> UserInRoster(activePlayers, userId)
    {
      var idText := NatToString(userId);
      var i := 0;
      while i < |activePlayers|
        invariant 0 <= i <= |activePlayers|
        invariant forall k :: 0 <= k < i ==> activePlayers[k].id != idText
      {
        if activePlayers[i].id == idText {
          return true;
        }
        i := i + 1;
      }
      return false;
    }

    /** `players_as_add_options`: disabled when there is no candidate, or,
        failing that, when the roster is full; otherwise one option per
        candidate whose value is its index. */
    method PlayersAsAddOptions() returns (m: SelectMenu)
      requires players == [] || contentInfo.Some?
      ensures m.customId == idAsString + "add"
      ensures m.disabled <==> players == [] || |activePlayers| == contentInfo.value.contentSize
      ensures players == [] ==>
        m.placeholder == Some("No characters available!") && m.options == [MenuOption("Empty", "0", None)]
      ensures players != [] && m.disabled ==>
        m.placeholder == Some("Content size limit reached.") && m.options == [MenuOption("empty", "0", None)]
      ensures !m.disabled ==>
        m.placeholder == Some("Select a player to add.") && |m.options| == |players|
        && forall i :: 0 <= i < |players| ==> m.options[i] == CharacterOption(players[i], NatToString(i))
    {
      if players == [] {
        m := SelectMenu(idAsString + "add", true, Some("No characters available!"), [MenuOption("Empty", "0", None)]);
      } else if |activePlayers| == contentInfo.value.contentSize {
        m := SelectMenu(idAsString + "add", true, Some("Content size limit reached."), [MenuOption("empty", "0", None)]);
      } else {
        var os := IndexedOptions(players);
        m := SelectMenu(idAsString + "add", false, Some("Select a player to add."), os);
      }
    }

    /** `active_players_as_remove_options`: disabled exactly when the roster
        is empty; otherwise option `i` stands for active player `i`. */
    method ActivePlayersAsRemoveOptions() returns (m: SelectMenu)
      ensures m.customId == idAsString + "remove"
      ensures m.disabled <==> activePlayers == []
      ensures m.disabled ==>
        m.placeholder == Some("No active characters available!") && m.options == [MenuOption("Empty", "0", None)]
      ensures !m.disabled ==>
        m.placeholder == Some("Select a player to remove.") && |m.options| == |activePlayers|
        && forall i :: 0 <= i < |activePlayers| ==>
             m.options[i] == CharacterOption(activePlayers[i], NatToString(i))
    {
      if activePlayers == [] {
        m := SelectMenu(idAsString + "remove", true, Some("No active characters available!"), [MenuOption("Empty", "0", None)]);
      } else {
        var os := IndexedOptions(activePlayers);
        m := SelectMenu(idAsString + "remove", false, Some("Select a player to remove."), os);
      }
    }

    /** `create_lobby_buttons`: the three buttons of the formation dialogue. */
    function CreateLobbyButtons(): (bs: seq<Button>)
      ensures |bs| == 3
      ensures forall i :: 0 <= i < 3 ==> bs[i].customId == idAsString + LOBBY_BUTTONS[i]
    {
      [ Button("Post Lobby", Success, idAsString + "post-lobby"),
        Button("Close Lobby", Danger, idAsString + "close-lobby"),
        Button("Open Lobby", Primary, idAsString + "open-lobby") ]
    }

    /** `create_user_buttons`: the join and leave buttons of a posted lobby. */
    function CreateUserButtons(): (bs: seq<Button>)
      ensures |bs| == 2
      ensures forall i :: 0 <= i < 2 ==> bs[i].customId == idAsString + USER_BUTTONS[i]
    {
      [ Button("Join Lobby!", Success, idAsString + "lobby-join"),
        Button("Leave Lobby!", Danger, idAsString + "lobby-leave") ]
    }
  }

  /** The suffixes of the formation buttons and of the posted lobby's buttons. */
  const LOBBY_BUTTONS: seq<string> := ["post-lobby", "close-lobby", "open-lobby"]
  const USER_BUTTONS: seq<string> := ["lobby-join", "lobby-leave"]
}
