/**
 The statistics the three dashboard views compute over all missions:
 points, mission counts, missions due today, the "streak" (the number of
 Completed days), and the 14-day activity heatmap. Each figure is a fold
 over maps; the loops below are proved equal to the order-independent
 reference folds of the Folds module.
 */
module Stats {
  import opened Wrappers
  import opened Folds
  import opened Missions
  import opened Focus

  /** Points of a list of log records. */
  function EntriesPoints(es: seq<LogEntry>): int {
    if es == [] then 0 else es[0].points + EntriesPoints(es[1..])
  }

  /** Points of every record in a log, over all dates. */
  ghost function LogPoints(log: map<Day, seq<LogEntry>>): int {
    SumMap(log, EntriesPoints)
  }

  /** A mission's contribution to the total: today's score plus every logged
      record. Today's completions therefore count twice, once in the score
      and once in the log. */
  ghost function MissionPoints(m: Mission): int {
    m.todayScore + LogPoints(m.dailyLog)
  }

  function CompletedMark(s: DayStatus): int {
    if s == Completed then 1 else 0
  }

  /** A mission's "streak": how many days of its history are Completed. */
  ghost function MissionStreak(m: Mission): int {
    SumMap(m.history, CompletedMark)
  }

  /** 1 for a mission scheduled on `today`. */
  function DueMark(today: Day): Mission -> int {
    (m: Mission) => if IsScheduled(m.config, today) then 1 else 0
  }

  /** The points a mission logged under `today`. */
  function TodayMark(today: Day): Mission -> int {
    (m: Mission) => EntriesPoints(LogOn(m.dailyLog, today))
  }

  /** The generic loop: adds up `g` over the values of `m` in whatever order
      the keys are drawn. */
  method FoldSum<K, V>(m: map<K, V>, g: V -> int) returns (t: int)
    ensures t == SumMap(m, g)
  {
    t := 0;
    var rest := m;
    while rest != map[]
      invariant t + SumMap(rest, g) == SumMap(m, g)
      decreases rest.Keys
    {
      var k :| k in rest;
      SumMapRemove(rest, g, k);
      t := t + g(rest[k]);
      rest := rest - {k};
    }
  }

  /** How many days of a history are Completed. */
  method CompletedDays(history: map<Day, DayStatus>) returns (n: int)
    ensures n == SumMap(history, CompletedMark)
    ensures 0 <= n <= |history|
  {
    n := FoldSum(history, CompletedMark);
    SumMapMono(history, CompletedMark, One);
    SumMapNonNeg(history, CompletedMark);
    SumMapOne(history);
  }

  /** Every mission's score plus all its logged points, summed. */
  method TotalPoints(missions: map<string, Mission>) returns (t: int)
    ensures t == SumMap(missions, MissionPoints)
  {
    t := 0;
    var rest := missions;
    while rest != map[]
      invariant t + SumMap(rest, MissionPoints) == SumMap(missions, MissionPoints)
      decreases rest.Keys
    {
      var k :| k in rest;
      SumMapRemove(rest, MissionPoints, k);
      var logged := FoldSum(rest[k].dailyLog, EntriesPoints);
      t := t + rest[k].todayScore + logged;
      rest := rest - {k};
    }
  }

  /** The running maximum of the missions' streaks, starting at 0. */
  method BestStreak(missions: map<string, Mission>) returns (best: int)
    ensures best == MaxMap(missions, MissionStreak)
    ensures forall k :: k in missions ==> MissionStreak(missions[k]) <= best
    ensures missions == map[] ==> best == 0
  {
    best := 0;
    var rest := missions;
    MaxMapIsMax(missions, MissionStreak);
    while rest != map[]
      invariant Max(best, MaxMap(rest, MissionStreak)) == MaxMap(missions, MissionStreak)
      invariant best >= 0
      decreases rest.Keys
    {
      var k :| k in rest;
      MaxMapRemove(rest, MissionStreak, k);
      MaxMapIsMax(rest - {k}, MissionStreak);
      var c := CompletedDays(rest[k].history);
      if c > best {
        best := c;
      }
      rest := rest - {k};
    }
    MaxMapIsMax(missions, MissionStreak);
  }

  /** A mission shows activity on day `d` when it has a history entry or a
      log for it. */
  predicate Touched(m: Mission, d: Day) {
    d in m.history || d in m.dailyLog
  }

  /** Slot `13 - i` of the heatmap stands for the day `i` days before today. */
  ghost predicate HeatSlot(missions: map<string, Mission>, today: Day, j: int) {
    exists k :: k in missions && Touched(missions[k], today - (13 - j))
  }

  /** The 14 heatmap slots, oldest first; the last one is today. */
  method Heatmap(missions: map<string, Mission>, today: Day) returns (heat: seq<bool>)
    ensures |heat| == 14
    ensures forall j :: 0 <= j < 14 ==> (heat[j] <==> HeatSlot(missions, today, j))
  {
    heat := seq(14, _ => false);
    var rest := missions;
    while rest != map[]
      invariant |heat| == 14
      invariant forall k :: k in rest ==> k in missions && rest[k] == missions[k]
      invariant forall j :: 0 <= j < 14 ==>
        (heat[j] <==> exists k :: k in missions && k !in rest && Touched(missions[k], today - (13 - j)))
      decreases rest.Keys
    {
      var k :| k in rest;
      var m := rest[k];
      var i := 0;
      while i < 14
        invariant 0 <= i <= 14 && |heat| == 14
        invariant forall j :: 0 <= j < 14 ==>
          (heat[j] <==> (exists k' :: k' in missions && k' !in rest && Touched(missions[k'], today - (13 - j)))
                        || (13 - j < i && Touched(m, today - (13 - j))))
      {
        if Touched(m, today - i) {
          heat := heat[13 - i := true];
        }
        i := i + 1;
      }
      rest := rest - {k};
    }
  }

  /** The figures of the home dashboard. */
  datatype ViewStats = ViewStats(totalPoints: int, todayPoints: int, missionsActive: int,
                                 missionsDueToday: int, activeStreak: int)

  /** The home dashboard's statistics loop. */
  method DashboardViewStats(missions: map<string, Mission>, today: Day) returns (st: ViewStats)
    ensures st.totalPoints == SumMap(missions, MissionPoints)
    ensures st.todayPoints == SumMap(missions, TodayMark(today))
    ensures st.missionsActive == |missions|
    ensures st.missionsDueToday == SumMap(missions, DueMark(today))
    ensures 0 <= st.missionsDueToday <= st.missionsActive
    ensures st.activeStreak == MaxMap(missions, MissionStreak)
    ensures forall k :: k in missions ==> MissionStreak(missions[k]) <= st.activeStreak
    ensures missions == map[] ==> st.activeStreak == 0
  {
    var total := TotalPoints(missions);
    var todayPts := FoldSum(missions, TodayMark(today));
    var due := FoldSum(missions, DueMark(today));
    var streak := BestStreak(missions);
    SumMapMono(missions, DueMark(today), One);
    SumMapNonNeg(missions, DueMark(today));
    SumMapOne(missions);
    st := ViewStats(total, todayPts, |missions|, due, streak);
  }

  /** The figures of the mission-list dashboard and of the profile panel. */
  datatype GlobalStats = GlobalStats(totalPoints: int, missionsCount: int, activeStreak: int)

  /** The commander dashboard's effect: stats and heatmap. Without a state
      both keep their initial values: zeros and an empty heatmap. */
  method DashboardStats(state: Option<AppState>, today: Day) returns (st: GlobalStats, heat: seq<bool>)
    ensures state.None? ==> st == GlobalStats(0, 0, 0) && heat == []
    ensures state.Some? ==>
      var missions := state.value.missions;
      && st.totalPoints == SumMap(missions, MissionPoints)
      && st.missionsCount == |missions|
      && st.activeStreak == MaxMap(missions, MissionStreak)
      && |heat| == 14
      && forall j :: 0 <= j < 14 ==> (heat[j] <==> HeatSlot(missions, today, j))
  {
    if state.None? {
      return GlobalStats(0, 0, 0), [];
    }
    var missions := state.value.missions;
    var total := TotalPoints(missions);
    var best := BestStreak(missions);
    heat := Heatmap(missions, today);
    st := GlobalStats(total, |missions|, best);
  }

  /** The profile panel: the streak is that of the active mission only, and
      0 without one. */
  method UserDashboardStats(state: Option<AppState>) returns (st: GlobalStats)
    ensures state.None? ==> st == GlobalStats(0, 0, 0)
    ensures state.Some? ==>
      var app := state.value;
      && st.totalPoints == SumMap(app.missions, MissionPoints)
      && st.missionsCount == |app.missions|
      && (ActiveMission(app).None? ==> st.activeStreak == 0)
      && (ActiveMission(app).Some? ==> st.activeStreak == MissionStreak(ActiveMission(app).value))
  {
    if state.None? {
      return GlobalStats(0, 0, 0);
    }
    var app := state.value;
    var total := TotalPoints(app.missions);
    var streak := 0;
    if app.activeMissionId.Some? && app.activeMissionId.value in app.missions {
      streak := CompletedDays(app.missions[app.activeMissionId.value].history);
    }
    st := GlobalStats(total, |app.missions|, streak);
  }

  /** Appending a record adds its points. */
  lemma {:induction false} EntriesPointsAppend(es: seq<LogEntry>, e: LogEntry)
    ensures EntriesPoints(es + [e]) == EntriesPoints(es) + e.points
  {
    if es == [] {
      assert es + [e] == [e];
    } else {
      assert (es + [e])[1..] == es[1..] + [e];
      EntriesPointsAppend(es[1..], e);
    }
  }

  /** Logging one more record under a date adds its points to the log total. */
  lemma LogPointsAppend(log: map<Day, seq<LogEntry>>, d: Day, e: LogEntry)
    ensures LogPoints(log[d := LogOn(log, d) + [e]]) == LogPoints(log) + e.points
  {
    var log' := log[d := LogOn(log, d) + [e]];
    SumMapRemove(log', EntriesPoints, d);
    EntriesPointsAppend(LogOn(log, d), e);
    assert log' - {d} == log - {d};
    if d in log {
      SumMapRemove(log, EntriesPoints, d);
    } else {
      assert log - {d} == log;
    }
  }

  /** A completed task worth `points` raises the mission's share of the
      dashboards' total by twice `points`: once through today's score and
      once through today's log. */
  lemma CompletionCountsTwice(s: FocusState, id: int, points: int, today: Day, time: string)
    requires !BreachPending(s) && ActiveMission(s.app).Some?
    requires FindTask(ActiveMission(s.app).value.tasks, id).Some?
    ensures var r := CompleteTask(s, id, points, today, time);
            && ActiveMission(r.app).Some?
            && MissionPoints(ActiveMission(r.app).value)
               == MissionPoints(ActiveMission(s.app).value) + 2 * points
  {
    var m := ActiveMission(s.app).value;
    var task := m.tasks[FindTask(m.tasks, id).value];
    var r := CompleteTask(s, id, points, today, time);
    var m' := ActiveMission(r.app).value;
    var e := LogEntry(task.title, points, time, task.priority);
    assert m'.dailyLog == m.dailyLog[today := LogOn(m.dailyLog, today) + [e]];
    LogPointsAppend(m.dailyLog, today, e);
  }
}
