/**
 Properties of the focus context over any sequence of user actions and
 reconciliation runs: missions stay keyed by their own id, and no mission's
 mercy buffer ever grows or turns negative.
 */
module FocusProps {
  import opened Wrappers
  import opened Missions
  import opened Reconciliation
  import opened Focus

  /** One event the context reacts to. */
  datatype Action =
    | Reconciled(today: Day, stamp: int)
    | TaskAdded(title: string, stamp: int)
    | TaskCompleted(id: int, points: int, today: Day, time: string)
    | PenaltyAccepted
    | MercyAcknowledged
    | Restarted(now: Day)

  function Step(s: FocusState, a: Action): FocusState {
    match a
    case Reconciled(today, stamp) => ReconcileActive(s, today, stamp)
    case TaskAdded(title, stamp) => AddTask(s, title, stamp)
    case TaskCompleted(id, points, today, time) => CompleteTask(s, id, points, today, time)
    case PenaltyAccepted => HandlePenalty(s)
    case MercyAcknowledged => AcknowledgeMercy(s)
    case Restarted(now) => HandleRestart(s, now)
  }

  function Run(s: FocusState, actions: seq<Action>): FocusState
    decreases |actions|
  {
    if actions == [] then s else Run(Step(s, actions[0]), actions[1..])
  }

  /** From `a` to `b` no mission disappears, and every mission's buffer is no
      larger than before and, if it was non-negative, still non-negative. */
  ghost predicate BuffersShrink(a: AppState, b: AppState) {
    && a.missions.Keys <= b.missions.Keys
    && forall k :: k in a.missions ==>
         && b.missions[k].config.bufferDays <= a.missions[k].config.bufferDays
         && (a.missions[k].config.bufferDays >= 0 ==> b.missions[k].config.bufferDays >= 0)
  }

  /** Writing back the active mission with its id kept and its buffer not
      grown keeps the keying and shrinks the buffers. */
  lemma UpdateActiveShrinks(app: AppState, m: Mission)
    requires WellKeyed(app) && ActiveMission(app).Some?
    requires m.id == ActiveMission(app).value.id
    requires m.config.bufferDays <= ActiveMission(app).value.config.bufferDays
    requires ActiveMission(app).value.config.bufferDays >= 0 ==> m.config.bufferDays >= 0
    ensures WellKeyed(UpdateActive(app, m)) && BuffersShrink(app, UpdateActive(app, m))
  {
  }

  /** Every single event keeps the keying and shrinks the buffers. */
  lemma {:induction false} StepShrinks(s: FocusState, a: Action)
    requires WellKeyed(s.app)
    ensures WellKeyed(Step(s, a).app) && BuffersShrink(s.app, Step(s, a).app)
  {
    match ActiveMission(s.app)
    case None =>
    case Some(m) =>
      match a {
        case Reconciled(today, stamp) =>
          UpdateActiveShrinks(s.app, Reconcile(m, today, stamp).mission);
        case TaskAdded(title, stamp) =>
          UpdateActiveShrinks(s.app, ActiveMission(Step(s, a).app).value);
        case TaskCompleted(id, points, today, time) =>
          if !BreachPending(s) && FindTask(m.tasks, id).Some? {
            UpdateActiveShrinks(s.app, ActiveMission(Step(s, a).app).value);
          }
        case PenaltyAccepted =>
          if s.missedDate.Some? {
            UpdateActiveShrinks(s.app, ActiveMission(Step(s, a).app).value);
          }
        case MercyAcknowledged =>
        case Restarted(now) =>
      }
  }

  /** Over any sequence of events: missions stay keyed by their own id, none
      disappears, and no buffer grows or drops below zero. */
  lemma {:induction false} RunShrinks(s: FocusState, actions: seq<Action>)
    requires WellKeyed(s.app)
    ensures WellKeyed(Run(s, actions).app) && BuffersShrink(s.app, Run(s, actions).app)
    decreases |actions|
  {
    if actions != [] {
      var s1 := Step(s, actions[0]);
      StepShrinks(s, actions[0]);
      RunShrinks(s1, actions[1..]);
    }
  }

  /** A day marked Completed stays Completed through task completions and
      reconciliation runs: completing can only write Completed on today, and
      the run only adds entries. */
  lemma CompletedDayStays(s: FocusState, a: Action, d: Day)
    requires a.TaskCompleted? || a.Reconciled?
    requires ActiveMission(s.app).Some?
    requires d in ActiveMission(s.app).value.history
    requires ActiveMission(s.app).value.history[d] == Completed
    ensures ActiveMission(Step(s, a).app).Some?
    ensures d in ActiveMission(Step(s, a).app).value.history
    ensures ActiveMission(Step(s, a).app).value.history[d] == Completed
  {
  }

  /** While a breach is pending a task completion leaves everything unchanged. */
  lemma BreachBlocksCompletion(s: FocusState, id: int, points: int, today: Day, time: string)
    requires BreachPending(s)
    ensures Step(s, TaskCompleted(id, points, today, time)) == s
  {
  }

  /** Accepting the penalty for a breach the run reported records the day
      as Failed and lifts the block. */
  lemma PenaltyLiftsBreach(s: FocusState, today: Day, stamp: int)
    requires ActiveMission(s.app).Some?
    requires BreachPending(ReconcileActive(s, today, stamp))
    ensures var r := ReconcileActive(s, today, stamp);
            var p := HandlePenalty(r);
            && !BreachPending(p)
            && ActiveMission(p.app).Some?
            && ActiveMission(p.app).value.history[r.missedDate.value] == Failed
  {
  }

  /** Restarting clears the missed date, and a run on the restart day finds
      nothing to report. */
  lemma RestartThenRunIsQuiet(s: FocusState, now: Day, stamp: int)
    requires WellKeyed(s.app) && ActiveMission(s.app).Some?
    ensures var r := ReconcileActive(HandleRestart(s, now), now, stamp);
            r.missedDate.None? && !BreachPending(r)
  {
    var s1 := HandleRestart(s, now);
    var m := ActiveMission(s1.app).value;
    assert m.config.startDate == now;
    assert FindMissed(m, now) == None;
  }
}
