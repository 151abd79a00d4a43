/**
 The mission record the reconciliation engine and the user actions work on.

 Calendar dates, which the source keys as `YYYY-MM-DD` strings, are day
 numbers here: day 0 is 1970-01-01, a Thursday. Optional configuration
 fields carry the defaults the source substitutes when they are absent.
 */
module Missions {

  /** Days since 1970-01-01. */
  type Day = int

  /** Day of the week, 0 = Sunday ... 6 = Saturday, as `Date.getDay()` reports it. */
  function Weekday(d: Day): (w: int)
    ensures 0 <= w < 7
    ensures d == 0 ==> w == 4
  {
    (d + 4) % 7
  }

  /** The week repeats every seven days. */
  lemma WeekdayPeriodic(d: Day)
    ensures Weekday(d + 7) == Weekday(d)
    ensures Weekday(d + 1) == (Weekday(d) + 1) % 7
  {
  }

  /** A day's entry in `history`. An absent key is the source's `undefined`:
      the day has not been evaluated. */
  datatype DayStatus = Completed | Failed | Skipped | Rest

  datatype Priority = High | Medium | Low

  /** A task's `status`: "pending" or "completed". */
  datatype TaskStatus = Pending | Done

  datatype Task = Task(id: int, title: string, priority: Priority, status: TaskStatus)

  /** One record of the day log: the task completed, its points, the time and priority. */
  datatype LogEntry = LogEntry(title: string, points: int, time: string, priority: Priority)

  /** `frequency`; an absent value behaves as Daily, since the code only checks for "selected". */
  datatype Frequency = Daily | Selected

  /** `MissionData.config`. Absent `dailyHabits` and `selectedDays` are the
      empty list; absent `bufferDays` is 0; absent penalty fields are "". */
  datatype Config = Config(
    name: string,
    duration: int,
    dailyTarget: int,
    startDate: Day,
    dailyHabits: seq<string>,
    penaltyType: string,
    penaltyDetail: string,
    bufferDays: int,
    frequency: Frequency,
    selectedDays: seq<int>)

  datatype Mission = Mission(
    id: string,
    config: Config,
    tasks: seq<Task>,
    history: map<Day, DayStatus>,
    dailyLog: map<Day, seq<LogEntry>>,
    todayScore: int,
    scoreDate: Day)

  /** A day is scheduled when the mission runs every day, or when its weekday
      is one of the selected days (never, if none are selected). */
  predicate IsScheduled(c: Config, d: Day) {
    c.frequency != Selected || Weekday(d) in c.selectedDays
  }

  /** A Selected schedule follows the week: a day and the same weekday a week
      later are both scheduled or both not. */
  lemma ScheduleWeekly(c: Config, d: Day)
    ensures IsScheduled(c, d) <==> IsScheduled(c, d + 7)
  {
    WeekdayPeriodic(d);
  }

  /** The mission the creation page stores: no tasks, history or log, a zero
      score dated today, and every optional config field absent. */
  function NewMission(id: string, name: string, duration: int, dailyTarget: int, today: Day): (m: Mission)
    ensures m.tasks == [] && m.history == map[] && m.dailyLog == map[]
    ensures m.todayScore == 0
    ensures m.scoreDate == today && m.config.startDate == today
    ensures m.config.bufferDays == 0 && m.config.dailyHabits == []
    ensures forall d :: IsScheduled(m.config, d)
  {
    Mission(id, Config(name, duration, dailyTarget, today, [], "", "", 0, Daily, []),
            [], map[], map[], 0, today)
  }

  /** `h2` keeps every entry of `h1` unchanged and may add new ones: the
      history invariant that an evaluated day is never rewritten. */
  ghost predicate Extends(h1: map<Day, DayStatus>, h2: map<Day, DayStatus>) {
    h1.Keys <= h2.Keys && forall d :: d in h1 ==> h2[d] == h1[d]
  }

  lemma ExtendsTrans(h1: map<Day, DayStatus>, h2: map<Day, DayStatus>, h3: map<Day, DayStatus>)
    requires Extends(h1, h2) && Extends(h2, h3)
    ensures Extends(h1, h3)
  {
  }
}
