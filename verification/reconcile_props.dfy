/**
 Properties of successive reconciliation runs on one mission: what the
 history and the mercy buffer look like after any sequence of runs, how a
 resolved miss moves the next scan forward, and two concrete runs that show
 where the behaviour departs from a plain oldest-first reading.
 */
module ReconcileProps {
  import opened Wrappers
  import opened Missions
  import opened Reconciliation

  /** One run of the effect: the day it runs on and the id stamp it uses. */
  datatype Call = Call(today: Day, stamp: int)

  /** The mission after the given runs, and how many of them spent a buffer day. */
  function Replay(m: Mission, calls: seq<Call>): (r: (Mission, nat))
    decreases |calls|
  {
    if calls == [] then (m, 0)
    else
      var o := Reconcile(m, calls[0].today, calls[0].stamp);
      var rest := Replay(o.mission, calls[1..]);
      (rest.0, rest.1 + (if o.mercy then 1 else 0))
  }

  /** Over any sequence of runs: no history entry is ever rewritten or
      removed; the buffer drops by exactly the number of mercies; a
      non-negative buffer stays non-negative and a non-positive one is never
      touched; no other configuration field changes. */
  lemma {:induction false} ReplayInvariants(m: Mission, calls: seq<Call>)
    ensures Extends(m.history, Replay(m, calls).0.history)
    ensures Replay(m, calls).0.config.bufferDays == m.config.bufferDays - Replay(m, calls).1
    ensures m.config.bufferDays >= 0 ==> Replay(m, calls).0.config.bufferDays >= 0
    ensures m.config.bufferDays <= 0 ==> Replay(m, calls).1 == 0
    ensures Replay(m, calls).0.config == m.config.(bufferDays := Replay(m, calls).0.config.bufferDays)
    decreases |calls|
  {
    if calls != [] {
      var o := Reconcile(m, calls[0].today, calls[0].stamp);
      ReplayInvariants(o.mission, calls[1..]);
      ExtendsTrans(m.history, o.mission.history, Replay(o.mission, calls[1..]).0.history);
    }
  }

  /** The mission after the user has answered the run's finding: a mercy day
      is already Skipped; a breach accepted with `handlePenalty` is Failed. */
  function Answered(o: Outcome): Mission
    requires o.found.Some?
  {
    if o.mercy then o.mission
    else o.mission.(history := o.mission.history[o.found.value := Failed])
  }

  /** Once the found miss is answered, the next scan on the same day does not
      report it or any earlier day, with one exception: the day that was the
      score date before the run. The rollover moves the score date to today,
      so that day is no longer exempt from the scan. */
  lemma {:induction false} ResolvedMissIsPassed(m: Mission, today: Day, stamp: int)
    requires Reconcile(m, today, stamp).found.Some?
    ensures var o := Reconcile(m, today, stamp);
            var next := FindMissed(Answered(o), today);
            next.None? || next.value > o.found.value || next.value == m.scoreDate
  {
    var o := Reconcile(m, today, stamp);
    var d := o.found.value;
    var a := Answered(o);
    assert d in a.history;
    assert Extends(m.history, a.history);
    forall e | m.config.startDate <= e <= d && e != m.scoreDate
      ensures !IsMiss(a, e)
    {
      if e < d {
        assert !IsMiss(m, e);
        assert IsScheduled(a.config, e) == IsScheduled(m.config, e);
      }
    }
  }

  /** When the score date was already today, or lies outside the scanned
      range before the miss, misses are resolved strictly oldest first. */
  lemma ResolvedMissIsPassedStrictly(m: Mission, today: Day, stamp: int)
    requires Reconcile(m, today, stamp).found.Some?
    requires m.scoreDate == today || m.scoreDate < m.config.startDate
             || m.scoreDate > Reconcile(m, today, stamp).found.value
    ensures var o := Reconcile(m, today, stamp);
            var next := FindMissed(Answered(o), today);
            next.None? || next.value > o.found.value
  {
    ResolvedMissIsPassed(m, today, stamp);
  }

  /** A mission created today: the run finds nothing and changes nothing,
      so no habit tasks are generated until the next day. */
  lemma NewMissionRunIsQuiet(id: string, name: string, duration: int, target: int, today: Day, stamp: int)
    ensures var m := NewMission(id, name, duration, target, today);
            Reconcile(m, today, stamp) == Outcome(m, None, false)
  {
  }

  /** Three unattended days with two buffer days, created on day 100 and
      reconciled on day 103. Day 100 is the initial score date, so the first
      run passes over it and spends mercy on day 101; the rollover moves the
      score date to 103, and the second run spends mercy on day 100; the
      third run finds day 102 with no buffer left: a breach. */
  lemma ThreeMissedDaysScenario()
    ensures var m0 := NewMission("m", "walk", 75, 50, 100);
            var m := m0.(config := m0.config.(bufferDays := 2));
            var o1 := Reconcile(m, 103, 0);
            var o2 := Reconcile(o1.mission, 103, 0);
            var o3 := Reconcile(o2.mission, 103, 0);
            && o1.found == Some(101) && o1.mercy
            && o2.found == Some(100) && o2.mercy
            && o3.found == Some(102) && !o3.mercy
            && o3.mission.config.bufferDays == 0
            && o3.mission.history == map[100 := Skipped, 101 := Skipped]
  {
    var m0 := NewMission("m", "walk", 75, 50, 100);
    var m := m0.(config := m0.config.(bufferDays := 2));
    assert !IsMiss(m, 100) && IsMiss(m, 101);
    var o1 := Reconcile(m, 103, 0);
    assert IsMiss(o1.mission, 100);
    var o2 := Reconcile(o1.mission, 103, 0);
    assert !IsMiss(o2.mission, 100) && !IsMiss(o2.mission, 101) && IsMiss(o2.mission, 102);
  }
}
