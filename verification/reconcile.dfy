/**
 The daily reconciliation run of the focus context: a scan for the first
 missed scheduled day, the mercy-or-breach decision on it, and the new-day
 rollover of tasks and score. One call of `Reconcile` is one run of the
 effect for the active mission.
 */
module Reconciliation {
  import opened Wrappers
  import opened Missions

  /** A day the scan reports: not yet evaluated, not the day the current
      score belongs to, and scheduled. */
  predicate IsMiss(m: Mission, d: Day) {
    d !in m.history && d != m.scoreDate && IsScheduled(m.config, d)
  }

  /** `r` is the answer of a forward scan over `[lo, today)`: the earliest
      miss in that range, or None when there is none. */
  ghost predicate EarliestMiss(m: Mission, lo: Day, today: Day, r: Option<Day>) {
    && (r.Some? ==> lo <= r.value < today && IsMiss(m, r.value)
                    && forall e :: lo <= e < r.value ==> !IsMiss(m, e))
    && (r.None? ==> forall e :: lo <= e < today ==> !IsMiss(m, e))
  }

  /** The scan loop started at day `d`: each step either stops at a miss or
      moves one day on, until `today` is reached. */
  function ScanFrom(m: Mission, d: Day, today: Day): (r: Option<Day>)
    ensures EarliestMiss(m, d, today, r)
    decreases today - d
  {
    if d >= today then None
    else if IsMiss(m, d) then Some(d)
    else ScanFrom(m, d + 1, today)
  }

  /** The scan starts at the mission's start date and stops before today. */
  function FindMissed(m: Mission, today: Day): (r: Option<Day>)
    ensures EarliestMiss(m, m.config.startDate, today, r)
    ensures m.config.startDate >= today ==> r == None
  {
    ScanFrom(m, m.config.startDate, today)
  }

  /** The earliest miss is unique: any answer that satisfies the scan's
      contract is the one the scan gives. */
  lemma EarliestMissUnique(m: Mission, lo: Day, today: Day, r1: Option<Day>, r2: Option<Day>)
    requires EarliestMiss(m, lo, today, r1) && EarliestMiss(m, lo, today, r2)
    ensures r1 == r2
  {
  }

  /** The decision on a found miss `d`. With buffer left the day becomes
      Skipped and one buffer day is spent; without, nothing in the mission
      changes and the day is a breach. The boolean is `showMercyAlert`. */
  function ResolveMiss(m: Mission, d: Day): (r: (Mission, bool))
    requires d !in m.history
    ensures r.1 <==> m.config.bufferDays > 0
    ensures r.1 ==> r.0.history == m.history[d := Skipped]
                    && r.0.config == m.config.(bufferDays := m.config.bufferDays - 1)
                    && r.0.config.bufferDays >= 0
    ensures !r.1 ==> r.0 == m
    ensures Extends(m.history, r.0.history)
    ensures r.0.tasks == m.tasks && r.0.dailyLog == m.dailyLog
    ensures r.0.todayScore == m.todayScore && r.0.scoreDate == m.scoreDate && r.0.id == m.id
  {
    var remaining := m.config.bufferDays;
    if remaining > 0 then
      (m.(history := m.history[d := Skipped],
          config := m.config.(bufferDays := remaining - 1)), true)
    else
      (m, false)
  }

  /** One High, pending task per habit, in habit order; task i gets id `stamp + i`. */
  function HabitTasks(habits: seq<string>, stamp: int): (ts: seq<Task>)
    ensures |ts| == |habits|
    ensures forall i :: 0 <= i < |habits| ==> ts[i] == Task(stamp + i, habits[i], High, Pending)
  {
    seq(|habits|, i requires 0 <= i < |habits| => Task(stamp + i, habits[i], High, Pending))
  }

  /** The tasks of `ts` whose status is pending, in their original order. */
  function PendingOnly(ts: seq<Task>): (r: seq<Task>)
    ensures |r| <= |ts|
    ensures forall t :: t in r <==> t in ts && t.status == Pending
  {
    if ts == [] then []
    else if ts[0].status == Pending then [ts[0]] + PendingOnly(ts[1..])
    else PendingOnly(ts[1..])
  }

  /** Filtering distributes over concatenation, so relative order is kept. */
  lemma {:induction false} PendingOnlyAppend(a: seq<Task>, b: seq<Task>)
    ensures PendingOnly(a + b) == PendingOnly(a) + PendingOnly(b)
  {
    if a == [] {
      assert a + b == b;
    } else {
      assert (a + b)[0] == a[0];
      assert (a + b)[1..] == a[1..] + b;
      PendingOnlyAppend(a[1..], b);
    }
  }

  /** Filtering twice is filtering once. */
  lemma {:induction false} PendingOnlyIdempotent(ts: seq<Task>)
    ensures PendingOnly(PendingOnly(ts)) == PendingOnly(ts)
  {
    if ts != [] {
      PendingOnlyIdempotent(ts[1..]);
    }
  }

  /** The new-day reset. When `scoreDate` is not today the score restarts at
      0 dated today; on a scheduled day the habit tasks are regenerated ahead
      of the still-pending tasks, on a rest day the task list is kept. */
  function Rollover(m: Mission, today: Day, stamp: int): (r: Mission)
    ensures m.scoreDate == today ==> r == m
    ensures m.scoreDate != today ==>
      && r.scoreDate == today && r.todayScore == 0
      && (IsScheduled(m.config, today) ==>
            r.tasks == HabitTasks(m.config.dailyHabits, stamp) + PendingOnly(m.tasks))
      && (!IsScheduled(m.config, today) ==> r.tasks == m.tasks)
    ensures r.history == m.history && r.dailyLog == m.dailyLog
    ensures r.config == m.config && r.id == m.id
  {
    if m.scoreDate == today then m
    else if IsScheduled(m.config, today) then
      m.(todayScore := 0, scoreDate := today,
         tasks := HabitTasks(m.config.dailyHabits, stamp) + PendingOnly(m.tasks))
    else
      m.(scoreDate := today, todayScore := 0)
  }

  /** A second rollover on the same day changes nothing. */
  lemma RolloverIdempotent(m: Mission, today: Day, stamp1: int, stamp2: int)
    ensures Rollover(Rollover(m, today, stamp1), today, stamp2) == Rollover(m, today, stamp1)
  {
  }

  /** What one run reports besides the updated mission: the miss it found,
      if any, and whether mercy absorbed it. */
  datatype Outcome = Outcome(mission: Mission, found: Option<Day>, mercy: bool)

  /** One reconciliation run: scan, then mercy or breach, then rollover. The
      two mission updates write disjoint fields, so they compose. */
  function Reconcile(m: Mission, today: Day, stamp: int): (o: Outcome)
    ensures EarliestMiss(m, m.config.startDate, today, o.found)
    ensures o.mercy <==> o.found.Some? && m.config.bufferDays > 0
    // history: only the mercy day is added, nothing is rewritten
    ensures Extends(m.history, o.mission.history)
    ensures o.mercy ==> o.mission.history == m.history[o.found.value := Skipped]
    ensures !o.mercy ==> o.mission.history == m.history
    // buffer: spent exactly once per mercy, never below 0
    ensures o.mission.config.bufferDays == m.config.bufferDays - (if o.mercy then 1 else 0)
    ensures o.mercy ==> o.mission.config.bufferDays >= 0
    ensures o.mission.config == m.config.(bufferDays := o.mission.config.bufferDays)
    // rollover
    ensures o.mission.scoreDate == today
    ensures m.scoreDate == today ==> o.mission.tasks == m.tasks && o.mission.todayScore == m.todayScore
    ensures m.scoreDate != today ==> o.mission.todayScore == 0
    ensures m.scoreDate != today && IsScheduled(m.config, today) ==>
              o.mission.tasks == HabitTasks(m.config.dailyHabits, stamp) + PendingOnly(m.tasks)
    ensures !IsScheduled(m.config, today) ==> o.mission.tasks == m.tasks
    ensures o.mission.dailyLog == m.dailyLog && o.mission.id == m.id
  {
    var found := FindMissed(m, today);
    var (m1, mercy) := if found.Some? then ResolveMiss(m, found.value) else (m, false);
    Outcome(Rollover(m1, today, stamp), found, mercy)
  }
}
