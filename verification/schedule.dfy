/** Lobby scheduling: the time window both `create_lobby` and
    `change_lobby_time` enforce, the timer task that reminds the players ten
    minutes before the start and expires the lobby at the start, and the
    replace-then-abort handling of that task when the lobby is rescheduled.

    Instants are integer milliseconds since the epoch; the caller supplies
    `now`, since the clock is not part of the model. */
module Schedule {
  import opened Common

  /** `chrono::Duration::minutes(15)`. */
  const MIN_LEAD: int := 15 * 60 * 1000
  /** `chrono::Duration::weeks(2)`. */
  const MAX_LEAD: int := 2 * 7 * 24 * 60 * 60 * 1000
  /** `std::time::Duration::from_secs(600)`: the reminder lead, and the delay
      from the reminder to the expiry. */
  const REMINDER_LEAD: int := 600 * 1000

  /** A schedule is acceptable when it is strictly more than 15 minutes and
      strictly less than two weeks away. */
  predicate InWindow(now: int, t: int)
  {
    now + MIN_LEAD < t < now + MAX_LEAD
  }

  datatype TimeCheck = NoTime | TooSoon(time: int) | TooLate(time: int) | Accepted(time: int)

  /** The checks on a parsed time, in the order the commands make them: no
      time at all, then too soon, then too late. */
  function CheckTime(now: int, parsed: Option<int>): TimeCheck
  {
    match parsed
    case None => NoTime
    case Some(t) =>
      if t <= now + MIN_LEAD then TooSoon(t)
      else if t >= now + MAX_LEAD then TooLate(t)
      else Accepted(t)
  }

  /** The schedule `create_lobby` goes on with: only an accepted time; in
      every other case the lobby is still created, without a schedule. */
  function KeptSchedule(c: TimeCheck): Option<int>
  {
    if c.Accepted? then Some(c.time) else None
  }

  /** A requested time is kept exactly when it lies in the window, and each
      rejection names the bound it broke. */
  lemma CheckTimeKeepsExactlyWindow(now: int, parsed: Option<int>)
    ensures KeptSchedule(CheckTime(now, parsed)) ==
      if parsed.Some? && InWindow(now, parsed.value) then parsed else None
    ensures CheckTime(now, parsed).NoTime? <==> parsed.None?
    ensures CheckTime(now, parsed).TooSoon? <==>
      parsed.Some? && parsed.value <= now + MIN_LEAD
    ensures CheckTime(now, parsed).TooLate? <==>
      parsed.Some? && now + MIN_LEAD < parsed.value && parsed.value >= now + MAX_LEAD
  {
  }

  /** What a spawned timer task does: send `LobbyIsDue` at `remindAt`, then
      disable and deregister the lobby at `expireAt`; or panic before doing
      either. */
  datatype TimerOutcome = Fires(remindAt: int, expireAt: int) | Panics

  /** The timer task as written: `time - Utc::now()` in milliseconds is
      converted to `u64` with `try_into().unwrap()`, which panics when it is
      negative, and the first sleep is that duration minus 600 s, a `Duration`
      subtraction that panics when it would go below zero. */
  function TimerRunAsWritten(spawnedAt: int, schedule: int): TimerOutcome
  {
    var timeLeft := schedule - spawnedAt;
    if timeLeft < 0 then Panics
    else if timeLeft < REMINDER_LEAD then Panics
    else
      var remindAt := spawnedAt + (timeLeft - REMINDER_LEAD);
      Fires(remindAt, remindAt + REMINDER_LEAD)
  }

  /** As written, the timer task panics exactly when fewer than ten minutes are
      left; otherwise it reminds ten minutes before the schedule and expires
      the lobby at the schedule itself. */
  lemma TimerAsWrittenFiresAtSchedule(spawnedAt: int, schedule: int)
    ensures TimerRunAsWritten(spawnedAt, schedule).Panics? <==>
      schedule - spawnedAt < REMINDER_LEAD
    ensures schedule - spawnedAt >= REMINDER_LEAD ==>
      TimerRunAsWritten(spawnedAt, schedule) == Fires(schedule - REMINDER_LEAD, schedule)
  {
  }

  /** A task spawned at the moment its schedule was checked never panics:
      the 15-minute lower bound exceeds the 10-minute lead. */
  lemma TimerAsWrittenSafeWhenSpawnedAtCheck(now: int, schedule: int)
    requires InWindow(now, schedule)
    ensures TimerRunAsWritten(now, schedule) == Fires(schedule - REMINDER_LEAD, schedule)
  {
    TimerAsWrittenFiresAtSchedule(now, schedule);
  }

  /** But `create_lobby` checks the schedule before the formation dialogue
      and spawns the timer after it: a schedule accepted at 0 ms for 900 001
      ms panics the timer task spawned 400 000 ms later, so no reminder is sent and
      the lobby is never deregistered. */
  lemma AcceptedScheduleCanPanicLater()
    ensures CheckTime(0, Some(900_001)) == Accepted(900_001)
    ensures TimerRunAsWritten(400_000, 900_001) == Panics
  {
  }

  /** The timer task with the sleeps saturating at zero: a schedule that is
      already less than ten minutes away is reminded of at once, and the
      lobby expires ten minutes after the reminder. */
  function TimerRun(spawnedAt: int, schedule: int): (r: TimerOutcome)
    ensures r.Fires?
    ensures r.remindAt >= spawnedAt && r.expireAt == r.remindAt + REMINDER_LEAD
    ensures r.remindAt == if schedule - REMINDER_LEAD > spawnedAt
                          then schedule - REMINDER_LEAD else spawnedAt
  {
    var timeLeft := if schedule - spawnedAt < 0 then 0 else schedule - spawnedAt;
    var firstSleep := if timeLeft < REMINDER_LEAD then 0 else timeLeft - REMINDER_LEAD;
    Fires(spawnedAt + firstSleep, spawnedAt + firstSleep + REMINDER_LEAD)
  }

  /** The corrected task agrees with the written one wherever that one does
      not panic. */
  lemma TimerRunAgreesWhenWrittenFires(spawnedAt: int, schedule: int)
    requires TimerRunAsWritten(spawnedAt, schedule).Fires?
    ensures TimerRun(spawnedAt, schedule) == TimerRunAsWritten(spawnedAt, schedule)
  {
  }

  /** A running timer task: its abort handle, when it was spawned and the
      schedule it was spawned for. */
  datatype TimerTask = TimerTask(handle: nat, spawnedAt: int, schedule: int)

  /** `lobby_time`: the schedule and the handle of the timer task. */
  datatype LobbyTime = LobbyTime(schedule: Option<int>, task: Option<TimerTask>)

  /** A `ChangeTime` to `time`, handled at `at`, whose new task gets `handle`. */
  datatype TimeChange = TimeChange(time: int, at: int, handle: nat)

  function SpawnedTask(c: TimeChange): TimerTask
  {
    TimerTask(c.handle, c.at, c.time)
  }

  datatype Rescheduled = Rescheduled(time: LobbyTime, aborted: Option<TimerTask>)

  /** The effect of `ChangeTime` on `lobby_time`: the schedule is replaced,
      the stored task (if any) is aborted and a new task is stored. */
  function Reschedule(lt: LobbyTime, c: TimeChange): (r: Rescheduled)
    ensures r.time.schedule == Some(c.time)
    ensures r.time.task.Some? && r.time.task.value.handle == c.handle
    ensures r.aborted == lt.task
  {
    Rescheduled(LobbyTime(Some(c.time), Some(SpawnedTask(c))), lt.task)
  }

  function OptionToSeq<T>(o: Option<T>): (s: seq<T>)
  {
    if o.Some? then [o.value] else []
  }

  function SpawnedTasks(cs: seq<TimeChange>): (ts: seq<TimerTask>)
    ensures |ts| == |cs|
    ensures forall i :: 0 <= i < |cs| ==> ts[i] == SpawnedTask(cs[i])
  {
    if cs == [] then [] else [SpawnedTask(cs[0])] + SpawnedTasks(cs[1..])
  }

  /** The lobby time after a series of reschedules, and every task they
      aborted, in order. */
  datatype History = History(final: LobbyTime, aborted: seq<TimerTask>)

  function RescheduleAll(lt: LobbyTime, cs: seq<TimeChange>): History
    decreases |cs|
  {
    if cs == [] then History(lt, [])
    else
      var step := Reschedule(lt, cs[0]);
      var rest := RescheduleAll(step.time, cs[1..]);
      History(rest.final, OptionToSeq(step.aborted) + rest.aborted)
  }

  /** After any series of reschedules exactly the last one's task is stored
      with the last schedule, and every other task ever stored, the initial
      one included, was aborted once, in order. */
  lemma {:induction false} RescheduleAllAbortsAllButLast(lt: LobbyTime, cs: seq<TimeChange>)
    requires cs != []
    ensures RescheduleAll(lt, cs).final ==
      LobbyTime(Some(cs[|cs| - 1].time), Some(SpawnedTask(cs[|cs| - 1])))
    ensures RescheduleAll(lt, cs).aborted ==
      OptionToSeq(lt.task) + SpawnedTasks(cs[..|cs| - 1])
    decreases |cs|
  {
    var step := Reschedule(lt, cs[0]);
    if |cs| > 1 {
      RescheduleAllAbortsAllButLast(step.time, cs[1..]);
      assert cs[1..][..|cs| - 2] == cs[1..|cs| - 1];
      assert SpawnedTasks(cs[..|cs| - 1]) == [SpawnedTask(cs[0])] + SpawnedTasks(cs[1..|cs| - 1]) by {
        assert cs[..|cs| - 1][1..] == cs[1..|cs| - 1];
      }
    } else {
      assert cs[..0] == [];
    }
  }

  /** With distinct handles the live task was never aborted. */
  lemma LiveTaskNeverAborted(lt: LobbyTime, cs: seq<TimeChange>)
    requires cs != []
    requires forall i, j :: 0 <= i < j < |cs| ==> cs[i].handle != cs[j].handle
    requires lt.task.Some? ==> forall i :: 0 <= i < |cs| ==> cs[i].handle != lt.task.value.handle
    ensures RescheduleAll(lt, cs).final.task.Some?
    ensures RescheduleAll(lt, cs).final.task.value !in RescheduleAll(lt, cs).aborted
  {
    RescheduleAllAbortsAllButLast(lt, cs);
    var last := SpawnedTask(cs[|cs| - 1]);
    var older := SpawnedTasks(cs[..|cs| - 1]);
    forall k | 0 <= k < |older| ensures older[k] != last {
      assert older[k] == SpawnedTask(cs[k]);
    }
  }
}
