/** The lobby vocabulary shared by the command, the listener and the lobby
    task: the three content categories, the tracked event suffixes, the
    `LobbyEvent` type sent through a lobby's mailbox and the builder that turns
    a component interaction into one. */
module Helper {
  import opened Common
  import opened Info

  datatype LobbyContent = GuardianRaid | AbyssDungeon | AbyssRaid

  /** The custom-id suffix of the content button for `c`. */
  function ContentKey(c: LobbyContent): string
  {
    match c
    case GuardianRaid => "guardian-raid"
    case AbyssDungeon => "abyss-dungeon"
    case AbyssRaid => "abyss-raid"
  }

  predicate IsContentKey(s: string)
  {
    s == "guardian-raid" || s == "abyss-dungeon" || s == "abyss-raid"
  }

  /** `LobbyContent::from`: only the three button suffixes are accepted; any
      other string is `unreachable!()`. */
  function ContentFrom(s: string): (c: LobbyContent)
    requires IsContentKey(s)
    ensures ContentKey(c) == s
  {
    if s == "guardian-raid" then GuardianRaid
    else if s == "abyss-dungeon" then AbyssDungeon
    else AbyssRaid
  }

  /** The three buttons of the content prompt decode to their own content. */
  lemma ContentKeyRoundTrip(c: LobbyContent)
    ensures IsContentKey(ContentKey(c)) && ContentFrom(ContentKey(c)) == c
  {
  }

  /** The `Display` text of a content category. */
  function DisplayName(c: LobbyContent): string
  {
    match c
    case GuardianRaid => "Guardian Raid"
    case AbyssDungeon => "Abyss Dungeon"
    case AbyssRaid => "Abyss Raid"
  }

  /** `get_content_list`: the instances offered for a category. */
  function GetContentList(c: LobbyContent, order: seq<Content>): seq<Content>
  {
    match c
    case GuardianRaid => GuardianRaids(order)
    case AbyssDungeon => AbyssDungeons(order)
    case AbyssRaid => AbyssRaids(order)
  }

  /** The category whose list holds `x`, looked up in enumeration order. */
  function CategoryOf(order: seq<Content>, x: Content): LobbyContent
  {
    if x in GuardianRaids(order) then GuardianRaid
    else if x in AbyssDungeons(order) then AbyssDungeon
    else AbyssRaid
  }

  /** Every content instance is offered under exactly one category: `c`'s
      list holds `x` exactly when `c` is `x`'s category. */
  lemma EachContentInOneCategory(order: seq<Content>, x: Content, c: LobbyContent)
    requires Argos1 !in GuardianRaids(order)
    requires forall i, j :: 0 <= i < j < |order| ==> order[i] != order[j]
    requires x in order
    ensures x in GetContentList(c, order) <==> c == CategoryOf(order, x)
  {
    PartitionCoversOrder(order);
    PartitionDisjoint(order);
    OneOfThree(GuardianRaids(order), AbyssDungeons(order), AbyssRaids(order), x);
  }

  lemma OneOfThree<T>(g: seq<T>, d: seq<T>, a: seq<T>, x: T)
    requires x in g + d + a
    requires (forall y :: y in g ==> y !in d && y !in a) && (forall y :: y in d ==> y !in a)
    ensures (x in g && x !in d && x !in a) || (x !in g && x in d && x !in a)
         || (x !in g && x !in d && x in a)
  {
  }

  /** The suffixes the event listener forwards to a lobby; every other
      suffix is filtered out. */
  const LOBBY_EVENTS: seq<string> := ["lobby-join", "player-join", "lobby-leave"]

  /** What a handler reads from a `MessageComponentInteraction`: the clicking
      user, the guild it happened in and the selected menu values. */
  datatype Component = Component(userId: nat, guildId: Option<nat>, values: seq<string>)

  /** The message sent to a lobby's task. The registry handle carried by
      `ChangeTime` and `CloseLobby` is passed to the handler directly. */
  datatype LobbyEvent =
    | LobbyJoin(component: Component)
    | PlayerJoin(component: Component)
    | LobbyLeave(component: Component)
    | ChangeTime(time: int)
    | LobbyIsDue
    | CloseLobby

  /** `EventBuilder`: the interaction and whether an HTTP client was set. */
  datatype EventBuilder = EventBuilder(interaction: Option<Component>, hasHttpClient: bool)

  /** `LobbyEvent::new()`: a builder with nothing set. */
  function NewBuilder(): EventBuilder
  {
    EventBuilder(None, false)
  }

  function WithInteraction(b: EventBuilder, c: Component): EventBuilder
  {
    b.(interaction := Some(c))
  }

  function WithHttpClient(b: EventBuilder): EventBuilder
  {
    b.(hasHttpClient := true)
  }

  datatype BuildError =
    | MissingInteraction(event: string)
    | MissingHttpClient(event: string)
    | NotTracked(event: string)

  datatype BuildResult = Built(event: LobbyEvent) | BuildFailed(error: BuildError)

  /** `check_for_event_component`: the interaction is checked first. */
  function CheckForEventComponent(b: EventBuilder, event: string): Option<BuildError>
  {
    if b.interaction.None? then Some(MissingInteraction(event))
    else if !b.hasHttpClient then Some(MissingHttpClient(event))
    else None
  }

  /** `EventBuilder::build`. */
  function Build(b: EventBuilder, event: string): BuildResult
  {
    if event == "lobby-join" || event == "player-join" || event == "lobby-leave" then
      var missing := CheckForEventComponent(b, event);
      if missing.Some? then BuildFailed(missing.value)
      else if event == "lobby-join" then Built(LobbyJoin(b.interaction.value))
      else if event == "player-join" then Built(PlayerJoin(b.interaction.value))
      else Built(LobbyLeave(b.interaction.value))
    else BuildFailed(NotTracked(event))
  }

  /** The suffix that names a component event, the inverse of `Build`. */
  function EventSuffix(e: LobbyEvent): Option<string>
  {
    match e
    case LobbyJoin(_) => Some("lobby-join")
    case PlayerJoin(_) => Some("player-join")
    case LobbyLeave(_) => Some("lobby-leave")
    case _ => None
  }

  /** `build` succeeds exactly for the tracked suffixes with both parts set,
      and the event it builds carries the interaction and names the suffix. */
  lemma BuildAcceptsExactlyLobbyEvents(b: EventBuilder, event: string)
    ensures Build(b, event).Built? <==>
      event in LOBBY_EVENTS && b.interaction.Some? && b.hasHttpClient
    ensures Build(b, event).Built? ==>
      EventSuffix(Build(b, event).event) == Some(event)
      && Build(b, event).event.component == b.interaction.value
    ensures Build(b, event).BuildFailed? ==>
      (Build(b, event).error.NotTracked? <==> event !in LOBBY_EVENTS)
  {
  }

  /** A missing interaction is reported before a missing HTTP client. */
  lemma BuildReportsInteractionFirst(b: EventBuilder, event: string)
    requires event in LOBBY_EVENTS
    ensures b.interaction.None? ==> Build(b, event) == BuildFailed(MissingInteraction(event))
    ensures b.interaction.Some? && !b.hasHttpClient ==>
      Build(b, event) == BuildFailed(MissingHttpClient(event))
  {
  }

  /** The listener always sets both parts, so a tracked suffix always builds. */
  lemma ListenerBuilderAlwaysBuilds(c: Component, event: string)
    requires event in LOBBY_EVENTS
    ensures Build(WithHttpClient(WithInteraction(NewBuilder(), c)), event).Built?
  {
  }
}
