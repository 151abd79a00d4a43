/**
 The focus context: the application state (missions keyed by id, the active
 mission id), the two UI flags of the reconciliation (`missedDate`,
 `showMercyAlert`), and the user actions that change them. Each action is a
 pure transition; ids, clocks and time stamps are parameters.
 */
module Focus {
  import opened Wrappers
  import opened Missions
  import opened Reconciliation

  datatype AppState = AppState(activeMissionId: Option<string>, missions: map<string, Mission>)

  datatype FocusState = FocusState(app: AppState, missedDate: Option<Day>, showMercyAlert: bool)

  /** `activeMission`: the mission stored under the active id, if both exist. */
  function ActiveMission(app: AppState): (r: Option<Mission>)
    ensures r.Some? <==> app.activeMissionId.Some? && app.activeMissionId.value in app.missions
    ensures r.Some? ==> r.value == app.missions[app.activeMissionId.value]
  {
    match app.activeMissionId
    case None => None
    case Some(k) => if k in app.missions then Some(app.missions[k]) else None
  }

  /** Every mission is stored under its own id, as `addMission` and the
      creation page store them. */
  ghost predicate WellKeyed(app: AppState) {
    forall k :: k in app.missions ==> app.missions[k].id == k
  }

  /** `updateActiveMission`: store `m` under the active id; without an
      active id nothing changes. */
  function UpdateActive(app: AppState, m: Mission): (r: AppState)
    ensures r.activeMissionId == app.activeMissionId
    ensures app.activeMissionId.None? ==> r == app
    ensures app.activeMissionId.Some? ==>
      && r.missions.Keys == app.missions.Keys + {app.activeMissionId.value}
      && r.missions[app.activeMissionId.value] == m
    ensures forall k :: k in app.missions && Some(k) != app.activeMissionId ==>
      k in r.missions && r.missions[k] == app.missions[k]
  {
    match app.activeMissionId
    case None => app
    case Some(k) => app.(missions := app.missions[k := m])
  }

  /** A breach awaits the user's decision: a missed date without the mercy alert. */
  predicate BreachPending(s: FocusState) {
    s.missedDate.Some? && !s.showMercyAlert
  }

  /** The reconciliation effect on the active mission. A found miss sets
      both flags; when nothing is found the flags keep their values. */
  function ReconcileActive(s: FocusState, today: Day, stamp: int): (r: FocusState)
    ensures ActiveMission(s.app).None? ==> r == s
    ensures ActiveMission(s.app).Some? ==>
      var m := ActiveMission(s.app).value;
      var o := Reconcile(m, today, stamp);
      && ActiveMission(r.app) == Some(o.mission)
      && (o.found.Some? ==> r.missedDate == o.found && r.showMercyAlert == o.mercy)
      && (o.found.None? ==> r.missedDate == s.missedDate && r.showMercyAlert == s.showMercyAlert)
    ensures r.app.activeMissionId == s.app.activeMissionId && r.app.missions.Keys == s.app.missions.Keys
    ensures forall k :: k in s.app.missions && Some(k) != s.app.activeMissionId ==>
      k in r.app.missions && r.app.missions[k] == s.app.missions[k]
  {
    match ActiveMission(s.app)
    case None => s
    case Some(m) =>
      var o := Reconcile(m, today, stamp);
      var app := UpdateActive(s.app, o.mission);
      if o.found.Some? then FocusState(app, o.found, o.mercy) else s.(app := app)
  }

  /** Every element of `s` occurs once. */
  ghost predicate NoDup<T>(s: seq<T>) {
    forall i, j :: 0 <= i < j < |s| ==> s[i] != s[j]
  }

  /** The habit list after `addTask`: the title is appended unless present. */
  function AddHabit(habits: seq<string>, title: string): (r: seq<string>)
    ensures title in r
    ensures title in habits ==> r == habits
    ensures title !in habits ==> r == habits + [title]
    ensures NoDup(habits) ==> NoDup(r)
  {
    if title in habits then habits else habits + [title]
  }

  /** `addTask`: a new High, pending task in front of today's list, and the
      title made a permanent habit. */
  function AddTask(s: FocusState, title: string, stamp: int): (r: FocusState)
    ensures ActiveMission(s.app).None? ==> r == s
    ensures ActiveMission(s.app).Some? ==>
      var m := ActiveMission(s.app).value;
      && ActiveMission(r.app).Some?
      && var m' := ActiveMission(r.app).value;
      && m'.tasks == [Task(stamp, title, High, Pending)] + m.tasks
      && m'.config == m.config.(dailyHabits := AddHabit(m.config.dailyHabits, title))
      && m'.history == m.history && m'.dailyLog == m.dailyLog
      && m'.todayScore == m.todayScore && m'.scoreDate == m.scoreDate && m'.id == m.id
    ensures r.app.activeMissionId == s.app.activeMissionId && r.app.missions.Keys == s.app.missions.Keys
    ensures r.missedDate == s.missedDate && r.showMercyAlert == s.showMercyAlert
    ensures forall k :: k in s.app.missions && Some(k) != s.app.activeMissionId ==>
      k in r.app.missions && r.app.missions[k] == s.app.missions[k]
  {
    match ActiveMission(s.app)
    case None => s
    case Some(m) =>
      var task := Task(stamp, title, High, Pending);
      var m' := m.(tasks := [task] + m.tasks,
                   config := m.config.(dailyHabits := AddHabit(m.config.dailyHabits, title)));
      s.(app := UpdateActive(s.app, m'))
  }

  /** The position of the first task carrying `id`, or None when no task does. */
  function FindTask(ts: seq<Task>, id: int): (r: Option<nat>)
    ensures r.Some? ==> r.value < |ts| && ts[r.value].id == id
                        && forall j :: 0 <= j < r.value ==> ts[j].id != id
    ensures r.None? <==> forall j :: 0 <= j < |ts| ==> ts[j].id != id
  {
    if ts == [] then None
    else if ts[0].id == id then Some(0)
    else match FindTask(ts[1..], id)
      case None => None
      case Some(i) => Some(i + 1)
  }

  /** Every task carrying `id` becomes completed; the others are untouched. */
  function MarkDone(ts: seq<Task>, id: int): (r: seq<Task>)
    ensures |r| == |ts|
    ensures forall i :: 0 <= i < |ts| ==>
      r[i] == (if ts[i].id == id then ts[i].(status := Done) else ts[i])
  {
    seq(|ts|, i requires 0 <= i < |ts| => if ts[i].id == id then ts[i].(status := Done) else ts[i])
  }

  /** The log entries recorded under `d`, or none. */
  function LogOn(log: map<Day, seq<LogEntry>>, d: Day): seq<LogEntry> {
    if d in log then log[d] else []
  }

  /** `completeTask`: score the task, log it under today, mark it completed,
      and mark today Completed once the score reaches the daily target.
      Ignored while a breach is pending, without an active mission, or for
      an unknown id. */
  function CompleteTask(s: FocusState, id: int, points: int, today: Day, time: string): (r: FocusState)
    ensures BreachPending(s) || ActiveMission(s.app).None? ==> r == s
    ensures ActiveMission(s.app).Some? && FindTask(ActiveMission(s.app).value.tasks, id).None? ==> r == s
    ensures !BreachPending(s) && ActiveMission(s.app).Some?
            && FindTask(ActiveMission(s.app).value.tasks, id).Some? ==>
      var m := ActiveMission(s.app).value;
      var task := m.tasks[FindTask(m.tasks, id).value];
      && ActiveMission(r.app).Some?
      && var m' := ActiveMission(r.app).value;
      && m'.todayScore == m.todayScore + points
      && m'.tasks == MarkDone(m.tasks, id)
      && m'.dailyLog.Keys == m.dailyLog.Keys + {today}
      && m'.dailyLog[today] == LogOn(m.dailyLog, today) + [LogEntry(task.title, points, time, task.priority)]
      && (forall d :: d in m.dailyLog && d != today ==> m'.dailyLog[d] == m.dailyLog[d])
      && (m.todayScore + points >= m.config.dailyTarget ==> m'.history == m.history[today := Completed])
      && (m.todayScore + points < m.config.dailyTarget ==> m'.history == m.history)
      && m'.config == m.config && m'.scoreDate == m.scoreDate && m'.id == m.id
    ensures r.app.activeMissionId == s.app.activeMissionId && r.app.missions.Keys == s.app.missions.Keys
    ensures r.missedDate == s.missedDate && r.showMercyAlert == s.showMercyAlert
    ensures forall k :: k in s.app.missions && Some(k) != s.app.activeMissionId ==>
      k in r.app.missions && r.app.missions[k] == s.app.missions[k]
  {
    if BreachPending(s) || ActiveMission(s.app).None? then s
    else
      var m := ActiveMission(s.app).value;
      match FindTask(m.tasks, id)
      case None => s
      case Some(i) =>
        var task := m.tasks[i];
        var newScore := m.todayScore + points;
        var entry := LogEntry(task.title, points, time, task.priority);
        var log := m.dailyLog[today := LogOn(m.dailyLog, today) + [entry]];
        var history := if newScore >= m.config.dailyTarget then m.history[today := Completed] else m.history;
        var m' := m.(todayScore := newScore, tasks := MarkDone(m.tasks, id),
                     dailyLog := log, history := history);
        s.(app := UpdateActive(s.app, m'))
  }

  /** `handlePenalty`: the missed day is recorded as Failed and the missed
      date cleared. Without a missed date or active mission nothing happens. */
  function HandlePenalty(s: FocusState): (r: FocusState)
    ensures s.missedDate.None? || ActiveMission(s.app).None? ==> r == s
    ensures s.missedDate.Some? && ActiveMission(s.app).Some? ==>
      var m := ActiveMission(s.app).value;
      && r.missedDate.None?
      && ActiveMission(r.app) == Some(m.(history := m.history[s.missedDate.value := Failed]))
    ensures r.showMercyAlert == s.showMercyAlert
    ensures r.app.activeMissionId == s.app.activeMissionId && r.app.missions.Keys == s.app.missions.Keys
    ensures forall k :: k in s.app.missions && Some(k) != s.app.activeMissionId ==>
      k in r.app.missions && r.app.missions[k] == s.app.missions[k]
  {
    if s.missedDate.None? || ActiveMission(s.app).None? then s
    else
      var m := ActiveMission(s.app).value;
      var m' := m.(history := m.history[s.missedDate.value := Failed]);
      s.(app := UpdateActive(s.app, m'), missedDate := None)
  }

  /** `acknowledgeMercy`: both flags are cleared; the missions are untouched. */
  function AcknowledgeMercy(s: FocusState): (r: FocusState)
    ensures r.app == s.app
    ensures r.missedDate.None? && !r.showMercyAlert
    ensures !BreachPending(r)
  {
    s.(missedDate := None, showMercyAlert := false)
  }

  /** `handleRestart`: the active mission starts over from `now` with no
      tasks, history or log and a zero score. Its configuration (habits,
      buffer, schedule) and its score date are kept. The entry written is
      the one keyed by the mission's own id. */
  function HandleRestart(s: FocusState, now: Day): (r: FocusState)
    ensures ActiveMission(s.app).None? ==> r == s
    ensures ActiveMission(s.app).Some? ==>
      var m := ActiveMission(s.app).value;
      && r.missedDate.None?
      && m.id in r.app.missions
      && var m' := r.app.missions[m.id];
      && m'.tasks == [] && m'.history == map[] && m'.dailyLog == map[] && m'.todayScore == 0
      && m'.config == m.config.(startDate := now)
      && m'.scoreDate == m.scoreDate && m'.id == m.id
      && r.app.missions.Keys == s.app.missions.Keys + {m.id}
      && (forall k :: k in s.app.missions && k != m.id ==> r.app.missions[k] == s.app.missions[k])
    ensures r.showMercyAlert == s.showMercyAlert && r.app.activeMissionId == s.app.activeMissionId
    ensures WellKeyed(s.app) ==>
      && WellKeyed(r.app)
      && (forall k :: k in s.app.missions && Some(k) != s.app.activeMissionId ==>
            k in r.app.missions && r.app.missions[k] == s.app.missions[k])
  {
    match ActiveMission(s.app)
    case None => s
    case Some(m) =>
      var restarted := m.(config := m.config.(startDate := now),
                      tasks := [], history := map[], dailyLog := map[], todayScore := 0);
      s.(app := s.app.(missions := s.app.missions[m.id := restarted]), missedDate := None)
  }
}
