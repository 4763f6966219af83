# Lobbies of ark-guild-bot, modelled in Dafny

ark-guild-bot is a Discord bot for Lost Ark guilds. Its lobby feature lets a
guild officer form a party for one piece of content, publish it, and keep it
alive until its scheduled start.

**Forming a lobby.** `/create_lobby` first checks the creator and the
requested time. It then runs a dialogue with the lobby master:

- choose a category (Guardian Raid, Abyss Dungeon or Abyss Raid);
- choose an instance;
- add or remove guild characters;
- post the lobby privately, open it to everyone, or close it.

**After publication.** The lobby is registered in a process-wide map from
its id text to the sending half of its event channel. Its own task then
consumes events one at a time:

- join, select a character, and leave;
- reschedule;
- the ten-minute reminder;
- close.

A timer task sends the reminder and deregisters the lobby at its start.

**Routing.** The event listener routes button presses and menu selections to
a lobby by splitting the component's custom id into a 36-character lobby id
and an event suffix. `/change_lobby_time` and `/close_lobby` send their
events after validating the lobby's stored row.

**Characters.** The `character` commands keep each user's characters, and
`construct_character_list` renders them as a fenced table.

**How the model is built.** Each event and each command is one atomic step
on plain data:

- **The context is a class.** `Context.LobbyContext` holds the roster fields
  the code updates in place. The display slots are an `array<string>` whose
  length is the content's capacity. The class invariant `Valid` ties slot
  `k` to active player `k` and makes every later slot the empty placeholder;
  every roster operation preserves it.
- **The dialogue is proved against a fold.** `Command.Step` takes one
  dialogue step on a `Draft`: the state, the content, the content info, the
  candidates, the roster and the number of slots. `Command.Formation` folds
  it over the collected interactions. The loop methods are proved to leave
  the context holding exactly the draft the fold gives, and to end as the
  fold ends.
- **The registry is a map.** It is a `map<string, Mailbox>`. A mailbox is
  the queue of pending events plus whether the receiving task is still
  alive.
- **Time is in milliseconds.** Instants are integer milliseconds and the
  caller supplies them.
- **The database, Discord and the clock are inputs.** Every database answer
  is a parameter: a `DbResult`, a boolean for a write, or a query function.

Panics (`unwrap`, `expect`, index out of range, `unreachable!`, `split_at`
past the end, a `Duration` going negative) are outcomes of their own, such
as `StepPanicked`, `JoinPanicked` or `SplitPanicked`. They are never
preconditions, except where the code's callers cannot reach them.

The modules follow the source:

| module | file |
|---|---|
| `Info` | `info.rs` |
| `Helper` | the vocabulary of `lobby/helper.rs` |
| `Process` | `process_lobby_event` |
| `Context` | `lobby/context.rs` |
| `Command` | `lobby/command.rs` |
| `Listener` | `listener.rs` |
| `TimeCommand` | `lobby/time.rs` |
| `CloseCommand` | `lobby/close_lobby.rs` |
| `Records` | the row checks both commands share |
| `Characters` | `characters.rs` |

Four support modules hold the shared pieces:

| module | what it holds |
|---|---|
| `Schedule` | the time window, the timer task and rescheduling |
| `Registry` | the channel map |
| `Text` | decimal rendering and parsing of integers, and padding |
| `Uuid` | hyphenated rendering and `Uuid::parse_str` |

## Model

| member | source | states |
|---|---|---|
| Info.TakeWhileNot | src/info.rs:25-29 | `take_while(x != stop)` is a prefix of the list without `stop`, followed in the list by `stop` or by nothing |
| Info.SkipWhileNot | src/info.rs:38-42 | `skip_while(x != stop)` is a suffix of the list that starts with `stop` (or is empty), and nothing before it is `stop` |
| Info.TakeSkipSplit | src/info.rs:25-42 | what `take_while` keeps and what `skip_while` keeps concatenate to the whole list |
| Info.GuardianRaidsIsLongestPrefix | src/info.rs:25-29 | the Guardian Raids are the longest prefix of the content order without DemonBeastCanyon |
| Info.AbyssDungeonsBounds | src/info.rs:31-36 | the Abyss Dungeons start at DemonBeastCanyon, hold no Argos1, and are empty when DemonBeastCanyon is missing |
| Info.AbyssRaidsIsSuffix | src/info.rs:38-42 | the Abyss Raids are the suffix of the order from the first Argos1 on |
| Info.ThreeWaySplit | src/info.rs:25-42 | splitting at the first marker and then at the second covers the list, when the second marker does not occur before the first |
| Info.PartitionCoversOrder | src/info.rs:25-42 | when Argos1 does not come before DemonBeastCanyon, the three category lists concatenate to the whole order |
| Info.PartitionDisjoint | src/info.rs:25-42 | for an order without repeats, no content is in two categories |
| Helper.GetContentList | src/commands/lobby/helper.rs:67-75 | `get_content_list`: the instances of one category, in the enumeration's order; membership is stated by `Helper.EachContentInOneCategory` |
| Helper.ContentFrom | src/commands/lobby/helper.rs:56-65 | `LobbyContent::from` accepts exactly the three button suffixes, and the category it returns has that suffix |
| Helper.ContentKeyRoundTrip | src/commands/lobby/helper.rs:56-65 | each category button's suffix decodes back to that category |
| Helper.EachContentInOneCategory | src/commands/lobby/helper.rs:67-75 | `get_content_list(c)` holds an instance exactly when `c` is that instance's category |
| Helper.BuildAcceptsExactlyLobbyEvents | src/commands/lobby/helper.rs:131-156 | `build` succeeds exactly for the suffixes in `LOBBY_EVENTS` with both parts set; the event carries the interaction and names the suffix; a "not tracked" error comes exactly for other suffixes |
| Helper.BuildReportsInteractionFirst | src/commands/lobby/helper.rs:121-129 | a missing interaction is reported before a missing HTTP client |
| Helper.CheckForEventComponent | src/commands/lobby/helper.rs:121-129 | the builder's completeness check: a missing interaction first, then a missing HTTP client; the order is stated by `Helper.BuildReportsInteractionFirst` |
| Helper.Build | src/commands/lobby/helper.rs:131-156 | `build`: the completeness check, then the event for a suffix in `LOBBY_EVENTS` or the "not tracked" error; the accepted set is stated by `Helper.BuildAcceptsExactlyLobbyEvents` |
| Helper.ListenerBuilderAlwaysBuilds | src/listener.rs:25 | the builder the listener assembles always builds a tracked suffix |
| Registry.Send | src/listener.rs:29-38 | an unbounded `send`: it fails only when the receiving task is gone, and otherwise queues the event last; stated with `Registry.SendAllQueuesInOrder` |
| Registry.SendAll | src/commands/lobby/command.rs:425-437 | a series of sends into one channel, as the lobby task receives them; its FIFO order is stated by `Registry.SendAllQueuesInOrder` |
| Registry.Lookup | src/listener.rs:29-33 | `HashMap::get` on the registry; stated by `Registry.LookupAfterInsert` and `Registry.LookupAfterRemove` |
| Registry.Insert | src/commands/lobby/command.rs:382-385 | `HashMap::insert`, which replaces an existing entry; stated by `Registry.LookupAfterInsert` |
| Registry.Remove | src/commands/lobby/helper.rs:511-516 | `HashMap::remove`; stated by `Registry.LookupAfterRemove` and `Registry.RemoveIdempotent` |
| Registry.SendAllQueuesInOrder | src/commands/lobby/command.rs:425-437 | an open channel receives events in send order after those already queued; a closed one refuses them |
| Registry.LookupAfterInsert | src/commands/lobby/command.rs:382-385 | after registration the id finds the new channel, even one already present, and other ids are unaffected |
| Registry.LookupAfterRemove | src/commands/lobby/helper.rs:511-516 | after deregistration the id finds nothing and other ids are unaffected |
| Registry.RemoveIdempotent | src/commands/lobby/helper.rs:434-436 | deregistering twice (expiry after close) is the same as once |
| Registry.RemoveUndoesInsert | src/commands/lobby/command.rs:382-385 | registering a new id and then deregistering it restores the map |
| Schedule.CheckTime | src/commands/lobby/command.rs:67-105 | the window check on a parsed time, in the code's order; stated by `Schedule.CheckTimeKeepsExactlyWindow` |
| Schedule.TimerRunAsWritten | src/commands/lobby/command.rs:399-420 | the timer task as written, with its `unwrap` and `Duration` panics; stated by `Schedule.TimerAsWrittenFiresAtSchedule` |
| Schedule.CheckTimeKeepsExactlyWindow | src/commands/lobby/command.rs:67-105 | the schedule is kept exactly when now + 15 min < t < now + 2 weeks; the rejection names the check it failed, in order: no time, too soon, too late |
| Schedule.TimerAsWrittenFiresAtSchedule | src/commands/lobby/command.rs:399-420 | the timer task as written panics exactly when less than 600 s are left; otherwise it reminds 600 s before the schedule and expires the lobby at the schedule |
| Schedule.TimerAsWrittenSafeWhenSpawnedAtCheck | src/commands/lobby/command.rs:399-411 | a task spawned at the instant the window was checked never panics |
| Schedule.AcceptedScheduleCanPanicLater | src/commands/lobby/command.rs:393-407 | a schedule accepted before the dialogue can make the timer task spawned after it panic (Findings) |
| Schedule.TimerRun | src/commands/lobby/command.rs:399-420 | the corrected task always fires: the reminder no earlier than the spawn, 600 s before the schedule when there is room, and the expiry 600 s after the reminder |
| Schedule.TimerRunAgreesWhenWrittenFires | src/commands/lobby/command.rs:399-420 | the corrected task agrees with the written one wherever that one does not panic |
| Schedule.Reschedule | src/commands/lobby/helper.rs:400-406 | `ChangeTime` replaces the schedule, aborts exactly the stored task, and stores the new task |
| Schedule.RescheduleAll | src/commands/lobby/helper.rs:398-439 | a series of `ChangeTime` events on one lobby, with the tasks they abort; stated by `Schedule.RescheduleAllAbortsAllButLast` |
| Schedule.RescheduleAllAbortsAllButLast | src/commands/lobby/helper.rs:400-406 | after any series of reschedules, only the last task is stored, with the last schedule; every earlier task, the first one included, was aborted once, in order |
| Schedule.LiveTaskNeverAborted | src/commands/lobby/helper.rs:400-406 | with distinct handles, the one live task was never aborted |
| Context.SlotText | src/commands/lobby/context.rs:188-191 | the roster line of one character: name, class, item level and owner mention; that it never reads as the placeholder is `Context.SlotTextNotEmpty` |
| Context.RosterSlots | src/commands/lobby/context.rs:185-214 | the `player_list` a roster should show: as many slots as the capacity; the contents are stated by `Context.RosterSlotsContents`, and `Valid` ties the array to it |
| Context.SlotTextNotEmpty | src/commands/lobby/context.rs:207-214 | an occupied slot never reads as the empty placeholder |
| Context.RosterSlotsContents | src/commands/lobby/context.rs:188-193 | the roster's slot view: slot `k` describes active player `k`, and later slots are empty |
| Context.RosterSlotsAfterAppend | src/commands/lobby/context.rs:207-214 | writing the slot at the roster's length and appending gives the slot view of the longer roster |
| Context.RosterSlotsAfterRemove | src/commands/lobby/context.rs:231-235 | removing entry `i` from both lists and pushing a placeholder gives the slot view of the shorter roster |
| Context.RemoveSlot | src/commands/lobby/context.rs:233-234 | `Vec::remove(i)` then push: the array becomes the old one without entry `i`, followed by the placeholder |
| Context.OccupiedCountsActive | src/commands/lobby/context.rs:188-193 | the number of occupied slots is the number of active players |
| Context.CharacterOption | src/commands/lobby/helper.rs:34-44 | a character option is labelled with the name and has the given value; its description is the class padded to 15, then " -> ", then the item level, and it ends with " ilvl" |
| Context.Enumerate | src/commands/lobby/context.rs:150-155 | the builder loop over `iter().enumerate()`: one entry per element, in order, made from the element and its index |
| Context.IndexedOptions | src/commands/lobby/context.rs:150-155 | one option per character, in order, valued by its index |
| Context.OptionValueSelectsIndex | src/commands/lobby/command.rs:282-291 | the value of option `i` parses back to `i`, so add and remove pick the character the option showed |
| Context.LobbyContext.constructor | src/commands/lobby/command.rs:137-152 | the fresh context: `ContentSelection`, no content, the checked schedule, empty lists, and the invariant |
| Context.LobbyContext.InitRoster | src/commands/lobby/command.rs:195-205 | setting the content info allocates exactly `content_size` empty slots |
| Context.LobbyContext.AddActivePlayerByModel | src/commands/lobby/context.rs:207-214 | slot `len` gets the player's text, the player is appended, and the slot count is unchanged, all under the invariant |
| Context.LobbyContext.AddActivePlayer | src/commands/lobby/context.rs:185-203 | the same for candidate `idx`; then the candidates become the filtered query excluding the new roster, or none on failure |
| Context.LobbyContext.RemoveActivePlayerWithoutFilter | src/commands/lobby/context.rs:231-235 | entry `idx` leaves both lists, the others keep their order, and a placeholder is appended, all under the invariant |
| Context.LobbyContext.RemoveActivePlayer | src/commands/lobby/context.rs:216-229 | the same removal, then the candidates are refreshed against the remaining roster |
| Context.LobbyContext.IsActivePlayer | src/commands/lobby/context.rs:237-245 | true exactly when some active character's owner id is the user id's decimal text |
| Context.LobbyContext.PlayersAsAddOptions | src/commands/lobby/context.rs:137-160 | the add menu: disabled exactly when there are no candidates or the roster is full, with the no-candidates text taking precedence; otherwise option `i` is candidate `i` |
| Context.LobbyContext.ActivePlayersAsRemoveOptions | src/commands/lobby/context.rs:162-182 | the remove menu: disabled exactly when the roster is empty; otherwise option `i` is active player `i` |
| Context.LobbyContext.CreateLobbyButtons | src/commands/lobby/context.rs:98-118 | the three formation buttons carry the lobby id followed by post-lobby, close-lobby and open-lobby |
| Context.LobbyContext.CreateUserButtons | src/commands/lobby/context.rs:120-135 | the two lobby buttons carry the lobby id followed by lobby-join and lobby-leave |
| Command.CheckCreator | src/commands/lobby/command.rs:35-53 | the creator passes exactly when their guildmate row exists with a role other than Guildmate; each other case has its own refusal |
| Command.NextState | src/commands/lobby/command.rs:166-363 | the state each dialogue step moves to, or none for `close-lobby` and the suffixes the code panics on; stated by `Command.NextStateGoesForward` |
| Command.NextStateGoesForward | src/commands/lobby/command.rs:165-363 | every transition moves forward, except add and remove, which stay in CollectPlayers; nothing enters ContentSelection or Generated; the dialogue exits exactly on post-lobby or open-lobby from CollectPlayers |
| Command.SelectContent | src/commands/lobby/command.rs:166-187 | a category button sets the content and moves to LobbyFirstPrompt; any other suffix panics and changes nothing; the outcome and the new draft are the ones `Command.ChooseCategory` gives |
| Command.SelectInstance | src/commands/lobby/command.rs:189-267 | the chosen instance's data becomes the content info, the slots become `content_size` placeholders, and the candidates become the query result when it succeeds; a missing selection or unknown instance panics; the outcome and the new draft are the ones `Command.ChooseInstance` gives |
| Command.CollectPanics | src/commands/lobby/command.rs:282-291 | when an add or remove step panics (missing or unparsable selection, index out of range, full roster for add) and the `unreachable!` suffixes; `Command.CollectStep` panics exactly then |
| Command.CollectStep | src/commands/lobby/command.rs:269-362 | add and remove apply the roster operations to the parsed index, and panic exactly on a bad selection or index (or a full roster for add); post-lobby and open-lobby exit to their states; close-lobby closes; any other suffix panics; the outcome and the new draft are the ones `Command.Collect` gives |
| Command.SuffixOf | src/commands/lobby/command.rs:167-171 | the suffix is what follows the lobby id in the custom id |
| Command.StepPanics | src/commands/lobby/command.rs:165-364 | when a dialogue step panics: a non-category suffix in ContentSelection, a missing or unknown instance in LobbyFirstPrompt, the `CollectPanics` conditions in CollectPlayers; `Command.FormationStep` panics exactly then |
| Command.ChooseCategory | src/commands/lobby/command.rs:166-187 | the ContentSelection step on the dialogue's data: the category is chosen, or the step panics with nothing changed; `Command.SelectContent` is proved against it |
| Command.ChooseInstance | src/commands/lobby/command.rs:189-267 | the LobbyFirstPrompt step on the dialogue's data: content info, one slot per place, and the query's characters as candidates when it succeeds; `Command.SelectInstance` is proved against it |
| Command.Collect | src/commands/lobby/command.rs:269-362 | the CollectPlayers step on the dialogue's data: the roster after add or remove, the candidates refreshed by the filter query, the two exits and the close; `Command.CollectStep` is proved against it |
| Command.Step | src/commands/lobby/command.rs:165-364 | one step on the dialogue's data keeps the stage's data and a roster that fits its slots; it panics exactly when `StepPanics` holds and then changes nothing, closes exactly on close-lobby in CollectPlayers, exits exactly into an exit state, and otherwise moves to the state `NextState` gives |
| Command.FormationStep | src/commands/lobby/command.rs:164-364 | one loop pass: its outcome and the new state, content, content info, candidates, roster and capacity are the ones `Command.Step` gives for the old ones; it keeps the invariant, so the slots follow the roster; it also panics exactly when `StepPanics` holds, closes exactly on close-lobby in CollectPlayers, and never lowers the rank |
| Command.Dialogue | src/commands/lobby/command.rs:154-365 | the course `NextState` prescribes over the lobby's own interactions, stopped at the first exit, close or suffix without successor; stated by `Command.DialogueStates` and used by `Command.RunFormation` |
| Command.DialogueSnoc | src/commands/lobby/command.rs:154-171 | one more interaction of another lobby leaves the dialogue as it was; one of the lobby's own moves it by `NextState` on its suffix, stopping at an exit or where there is no successor |
| Command.StoppedStaysStopped | src/commands/lobby/command.rs:154-365 | once the dialogue has stopped (at an exit, on close, or on a suffix without successor), later interactions change nothing |
| Command.DialogueStates | src/commands/lobby/command.rs:154-365 | the prescribed dialogue never reaches Generated, goes on only outside the exit states, and stops only at an exit, in ContentSelection or in CollectPlayers |
| Command.Formation | src/commands/lobby/command.rs:154-365 | the dialogue's data over the interactions: each of the lobby's own is a `Command.Step` until one exits, closes or panics; the result keeps a roster that fits its slots, and an end names one of the lobby's own interactions |
| Command.FormationSnoc | src/commands/lobby/command.rs:154-171 | one more interaction leaves a running run alone when it is another lobby's, and otherwise applies `Command.Step` to it |
| Command.FinishedStaysFinished | src/commands/lobby/command.rs:154-365 | once the run has ended, later interactions change nothing |
| Command.FormationFollowsDialogue | src/commands/lobby/command.rs:154-365 | the run's state follows `Dialogue`: going on, the same state; ended by an exit or a close, the dialogue stopped there; ended by a close, on close-lobby in CollectPlayers; ended by a panic, `StepPanics` holds for the data at that interaction |
| Command.FormationTurn | src/commands/lobby/command.rs:157-171 | one loop pass: the context then holds the draft `Command.Formation` gives for one interaction more, and the outcome is how that run goes on or ends; another lobby's interaction changes nothing; on the lobby's own it panics exactly when `StepPanics` holds and closes exactly on close-lobby in CollectPlayers |
| Command.RunFormation | src/commands/lobby/command.rs:154-365 | the loop ends holding exactly the draft `Command.Formation` gives (state, content, content info, candidates, roster, capacity) and ends as that run does, at the interaction where it ended; it never reaches Generated; ready to post, its state is the one `Dialogue` prescribes; closed, at close-lobby in CollectPlayers; panicked, where `StepPanics` holds |
| Command.Publish | src/commands/lobby/command.rs:367-394 | the candidates are cleared and nothing else of the draft changes; once the row is stored, the id is registered with a fresh channel, and a timer task is stored exactly when there is a schedule |
| Command.CreateLobby | src/commands/lobby/command.rs:27-440 | end to end: refused exactly when the creator check fails; otherwise closed, panicked, not stored or posted exactly as `Command.Formation` from a fresh draft ends and the row insert succeeds; a closed or panicked lobby holds that run's draft and interaction; a posted lobby holds its draft with the candidates dropped, is valid, is registered under its hyphenated id, keeps exactly the in-window schedule, and has a task exactly when it has a schedule |
| Process.NamedOptions | src/commands/lobby/helper.rs:242-247 | the join menu has one option per character, valued by its name |
| Process.OnLobbyJoin | src/commands/lobby/helper.rs:165-269 | a full lobby is refused first and a user already in it second; otherwise the user's characters are offered, or the query's failure is reported; the context is not changed; a lobby without content info panics |
| Process.OnPlayerJoin | src/commands/lobby/helper.rs:270-325 | the lookup panics exactly as `LookupPanics` says; a failed insert changes nothing; then a full roster is left alone, and otherwise exactly the selected character is appended to the next slot |
| Process.OnLobbyLeave | src/commands/lobby/helper.rs:326-397 | exactly the first character of the user's is removed from both lists when the database delete succeeds; a user with no character in the roster changes nothing |
| Process.OnChangeTime | src/commands/lobby/helper.rs:398-439 | the lobby time becomes `Reschedule` of the old one, and the aborted task is returned |
| Process.CloseLobbyEffect | src/commands/lobby/helper.rs:511-516 | closing removes exactly the lobby's id from the registry |
| Process.FireReminder | src/commands/lobby/command.rs:395-409 | the reminder is queued last in the lobby's channel when its task is alive; the first timer sends through its own sender clone, registered or not, while a rescheduled timer (helper.rs:420-424) panics exactly when the lobby is gone; the registry keeps its keys and other lobbies' channels |
| Process.FireExpiry | src/commands/lobby/helper.rs:426-436 | expiry removes exactly the lobby's id from the registry |
| Process.RemindersAgreeWhileRegistered | src/commands/lobby/helper.rs:418-424 | while the lobby is registered, the two timers' reminders have the same effect and neither panics |
| Process.ReminderAfterClose | src/commands/lobby/helper.rs:511-516 | after CloseLobby, a rescheduled timer's reminder panics, while the first timer's reminder is still queued last in the lobby's channel, which its sender clone keeps alive |
| Process.ProcessLobbyEvent | src/commands/lobby/helper.rs:159-518 | dispatch keeps the invariant; the lobby's task panics exactly as `EventPanics` says, and then its channel stops accepting events; only CloseLobby deregisters; on PlayerJoin the selected character is appended exactly when the lookup, the insert and the capacity check pass; on LobbyLeave the user's first character is removed exactly when the user is in the roster and the delete succeeds; ChangeTime sets the lobby time to `Reschedule` of the old one; nothing else changes the roster or the lobby time |
| Listener.RouteSplit | src/listener.rs:20-38 | the routing after the split: suffix filter, build, unwrapped lookup, send; stated by `Listener.RouteSplitOutcomes` |
| Listener.Listen | src/listener.rs:17-38 | the listener as written, panicking on a custom id shorter than 36; stated by `Listener.ListenCheckedAgrees` and `Listener.LobbyComponentsRouteToLobby` |
| Listener.SuffixEvent | src/commands/lobby/helper.rs:131-153 | the event a tracked suffix builds names that suffix and carries the interaction |
| Listener.RouteSplitOutcomes | src/listener.rs:20-38 | after the split: untracked exactly when the suffix is not in `LOBBY_EVENTS`; the build never fails; an unregistered id panics; a dead task refuses the event; a live one gets the event queued last, with no other mailbox or key changed |
| Listener.LobbyComponentsRouteToLobby | src/listener.rs:17-38 | a tracked press on a registered live lobby's component is queued in exactly that lobby's mailbox |
| Listener.UserButtonsRoute | src/commands/lobby/context.rs:120-135 | the posted lobby's two buttons reach that lobby as LobbyJoin and LobbyLeave |
| Listener.FormationComponentsUntracked | src/listener.rs:20-23 | the dialogue's own components are ignored by the listener, whatever the registry holds |
| Listener.ClosedLobbyButtonsPanic | src/listener.rs:29-34 | after deregistration a lobby's buttons panic the listener instead of being reported as stale |
| Listener.DeleteMenuPanicsListener | src/listener.rs:17-18 | the listener as written panics on `delete_character`'s menu, whose id is at most 20 characters (Findings) |
| Listener.ListenChecked | src/listener.rs:17-23 | the guarded listener never panics on the split and never fails to build; a short id is untracked |
| Listener.ListenCheckedAgrees | src/listener.rs:17-18 | the written listener panics on the split exactly for ids shorter than 36; elsewhere the guarded one agrees with it |
| Listener.DeleteMenuIgnoredWhenChecked | src/commands/characters.rs:145 | with the guard, the delete menu is ignored |
| Records.CheckRecordOutcomes | src/commands/lobby/time.rs:70-90 | the row passes exactly when it exists, parses to this guild and is active; other guild comes before inactive; an unparsable guild id panics |
| Records.OwnRowPassesWhenActive | src/commands/lobby/time.rs:74 | a row written with this guild's id passes exactly when active |
| Records.CheckRecord | src/commands/lobby/time.rs:70-90 | the lobby row checks in the code's order; stated by `Records.CheckRecordOutcomes` |
| TimeCommand.ChangeLobbyTime | src/commands/lobby/time.rs:11-112 | `change_lobby_time` with its early returns; stated by `TimeCommand.ChangeLobbyTimeOutcomes` |
| TimeCommand.ChangeLobbyTimeOutcomes | src/commands/lobby/time.rs:11-112 | an invalid id is rejected first; a time outside the window never reaches the row check; ChangeTime is queued exactly when every check passes and the lobby is registered and alive, and then it is queued last with the requested time, changing nothing else |
| TimeCommand.KeyIsCanonical | src/commands/lobby/time.rs:97 | an id typed in any accepted form reaches the lobby registered under its hyphenated text |
| CloseCommand.CloseLobbyCommandOutcomes | src/commands/lobby/close_lobby.rs:8-62 | CloseLobby is queued exactly when the id parses, the row passes and the lobby is registered and alive, and then it is queued last, changing nothing else; the command itself never deregisters |
| CloseCommand.CloseLobbyCommand | src/commands/lobby/close_lobby.rs:8-62 | `close_lobby` with its early returns; stated by `CloseCommand.CloseLobbyCommandOutcomes` |
| Characters.HeaderFormat | src/commands/characters.rs:7-10 | the header is "Name" and "Class" padded to 15, then "Item Level" |
| Characters.SeparatorFormat | src/commands/characters.rs:11 | the separator is 15, 15 and 10 dashes in the same layout |
| Characters.Row | src/commands/characters.rs:13-16 | one table row: name and class padded to 15, then the item level; stated by `Characters.RowLayout` and `Characters.RowIsOneLine` |
| Characters.CharacterList | src/commands/characters.rs:4-20 | the table `construct_character_list` builds; stated by `Characters.CharacterListFenced` and `Characters.CharacterListLines` |
| Characters.AppendEach | src/commands/characters.rs:12-17 | the push loop appends each row, in input order |
| Characters.ConstructCharacterList | src/commands/characters.rs:4-20 | the built string is the fence, header, separator, the rows in order, and the fence |
| Characters.CharacterListFenced | src/commands/characters.rs:4-20 | the list begins and ends with a code fence |
| Characters.EmptyCharacterList | src/commands/characters.rs:4-20 | no characters gives just the fences, header and separator |
| Characters.RowLayout | src/commands/characters.rs:13-16 | a row starts with the untruncated name, shows the untruncated class after column 15 or after the name, and ends the line |
| Characters.RowIsOneLine | src/commands/characters.rs:13-16 | a row is exactly one line |
| Characters.RowsLines | src/commands/characters.rs:12-17 | the rows hold one line break per character |
| Characters.HeaderAndSeparatorLines | src/commands/characters.rs:7-11 | header and separator are one line each |
| Characters.CharacterListLines | src/commands/characters.rs:4-20 | the table has exactly one line per character besides the header and separator |
| Characters.UpsertByName | src/commands/characters.rs:53-71 | when every call succeeds, `character` is an upsert by name: an existing name is updated, a new one inserted for the author; the reply says which; no other character changes |
| Characters.UpsertIdempotent | src/commands/characters.rs:53-71 | repeating the command only re-updates the entry to what it holds |
| Characters.FailedUpsertKeepsCharacters | src/commands/characters.rs:32-77 | every failure path leaves the characters unchanged; the guildmate insert panics exactly for an unregistered author whose insert fails, and then nothing changes |
| Characters.UpsertCharacter | src/commands/characters.rs:22-80 | the `character` command on the stored characters, with every error path; stated by `Characters.UpsertByName` and `Characters.FailedUpsertKeepsCharacters` |
| Text.NatToStringValue | src/commands/lobby/context.rs:238 | the decimal text of `n` reads back as `n` |
| Text.NatToStringInjective | src/commands/lobby/context.rs:237-245 | different ids have different decimal texts, so the owner test matches only the user's characters |
| Text.ParseNatToString | src/commands/lobby/command.rs:284 | `parse::<usize>` of a printed index gives the index back |
| Text.U64TextIsShort | src/commands/characters.rs:118 | a `u64` printed in decimal has at most 20 characters |
| Uuid.ParseHyphenatedRoundTrip | src/commands/lobby/time.rs:19-23 | `Uuid::parse_str` of the hyphenated text gives the id back |
| Uuid.HyphenatedInjective | src/commands/lobby/command.rs:64-65 | distinct ids have distinct hyphenated texts, so registry keys do not collide |
| Text.PadRight | src/commands/characters.rs:13-16 | `{:<15}` keeps the text whole and fills with spaces up to the width, never truncating |
| Text.NatToString | src/commands/lobby/context.rs:238 | `to_string` of an id is a non-empty run of decimal digits without a leading zero |
| Text.ParseUnsigned | src/commands/lobby/command.rs:284 | `parse::<usize>` succeeds only on digits, optionally after a `+`, with a value in range |
| Uuid.Hyphenated | src/commands/lobby/command.rs:64-65 | the lobby id's text is 36 characters with hyphens at positions 8, 13, 18 and 23 |
| Uuid.ParseStr | src/commands/lobby/time.rs:19-23 | `Uuid::parse_str` accepts only the simple (32), hyphenated (36) and URN (45) lengths |

## Left out

- **Concurrency is not modelled.** Locks, channels, `tokio::spawn` and task
  aborts are out of scope. Each event is one atomic step; a task abort only
  drops the stored handle.
- **Other lobbies' interleavings are not modelled.** Because each event is
  one atomic step, neither are interleavings such as an event that arrives
  while a lock is held.
- **Discord I/O is reduced to decisions.** Embeds, replies, message edits,
  direct messages and `get_users_from_ids` are out of scope; each handler's
  decision is kept. This also leaves out the `u64` parse of owner ids when
  direct messages are sent.
- **Time parsing is an input.** `dateparser` and the server's time zone are
  out of scope; the parsed instant arrives as `Option<int>`.
- **Server row failures are not modelled.** A failed server row lookup that
  ends `/create_lobby` early (`get_server(...)?`) is not modelled.
- **Two clock readings are one.** The two clock readings of the window check
  are a single `now`.
- **Database helpers are inputs.** Their logic is not shown: `insert_lobby`,
  `insert_lobby_player`, `remove_lobby_player`, `disable_lobby`, `get_lobby`,
  `get_guildmate*` and the character queries. Their answers are parameters.
- **The guildmate role is a boolean.** The `Role` enum is reduced to
  "is plain guildmate". `is_guild_init` is not part of this model.
- **Content data is not loaded.** Loading `CONTENT_TOML` and `CONTENT_DATA`
  is out of scope. `ContentInfo` data arrives as a map, and the order of the
  `Content` enumeration is a parameter.
- **There is no recovery loader.** No such code exists; the lobby
  reconstruction after a restart and `State::Generated` are not modelled.
- **Only two of the characters commands are modelled.** `list_characters`,
  `delete_character` (apart from its menu id) and `edit_character_ilvl` are
  Discord I/O around the list and database calls. `construct_character_list`
  and the `character` upsert are modelled.
- **`character` follows its command code, not the diesel helpers.** The
  diesel helpers it calls have signatures that do not match `src/lib.rs`.
- Process.ProcessLobbyEvent: CloseLobby leaves the timer handle as it is,
  because `drop_timebomb` is not part of this model.
- Process.FireReminder: a sender is not an object of its own. The lobby's
  channel is a `Mailbox` value, and the registry's entry is a copy of it that
  the precondition keeps equal while the lobby is registered. The aliasing of
  the two senders and the end of the lobby's task, once every sender is
  dropped, are not modelled.
- **Slices are counted in characters.** `split_at(36)` and `get(len..)` are
  modelled on characters rather than UTF-8 bytes, so the char-boundary
  panic of `split_at` is not modelled.
- **The code behaves as follows, where one might expect otherwise; the
  model follows the code:**
  - the lobby expires at its schedule, not after a grace period;
  - registering an id already present replaces its channel;
  - routing to an unregistered lobby panics rather than reporting a stale
    lobby;
  - `PlayerJoin` does not check whether the user is already active;
  - a dialogue that times out still publishes the lobby, possibly without
    content info;
  - closing during the dialogue does not register the lobby.

## Findings

| source | as written | input that shows it | evidently intended | confidence | as-written member | corrected member |
|---|---|---|---|---|---|---|
| src/commands/lobby/command.rs:393-407 | The schedule is checked against the clock before the formation dialogue, which can take up to ten minutes per interaction. The timer task is spawned after the dialogue; it unwraps `time - now` as a `u64` and subtracts 600 s from it as a `Duration`. | A schedule of 900 001 ms is accepted at 0 ms, and the lobby is posted at 400 000 ms. 500 001 ms are left, less than 600 000, so the timer task panics. No reminder is sent and the lobby is never deregistered. | The sleeps saturate at zero: the reminder is sent at once and the lobby expires ten minutes later. | high; not executed | Schedule.AcceptedScheduleCanPanicLater | Schedule.TimerRun |
| src/listener.rs:17-18 | Every component custom id is split at 36 characters. `delete_character` uses the command's numeric id as its menu's custom id (src/commands/characters.rs:145). | Selecting a character in the delete menu, with custom id "123456789012345678", makes `split_at(36)` panic in the listener. | An id too short to hold a lobby id is not a lobby event, and it is ignored. | high; not executed | Listener.DeleteMenuPanicsListener | Listener.ListenChecked |
