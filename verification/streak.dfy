/**
 The streak tracker: the list of mission days, the seven-day compact window
 around today, and the status shown in each day's cell.
 */
module Streak {
  import opened Wrappers
  import opened Missions
  import opened Folds

  /** The mission's days, one per unit of duration: day i is the start day
      plus i. A non-positive duration gives no days. */
  function DayList(start: Day, duration: int): (days: seq<Day>)
    ensures |days| == Max(0, duration)
    ensures forall i :: 0 <= i < |days| ==> days[i] == start + i
  {
    seq(Max(0, duration), i => start + i)
  }

  /** `findIndex`: the first position holding `d`, or -1. */
  function IndexOf(days: seq<Day>, d: Day): (r: int)
    ensures -1 <= r < |days|
    ensures r >= 0 ==> days[r] == d && forall j :: 0 <= j < r ==> days[j] != d
    ensures r == -1 <==> d !in days
  {
    if days == [] then -1
    else if days[0] == d then 0
    else
      var i := IndexOf(days[1..], d);
      if i < 0 then -1 else i + 1
  }

  /** Today's index in the day list is its offset from the start day when
      today falls within the mission, and -1 otherwise. */
  lemma TodayIndex(start: Day, duration: int, today: Day)
    ensures IndexOf(DayList(start, duration), today)
            == if start <= today < start + duration then today - start else -1
  {
    var days := DayList(start, duration);
    var r := IndexOf(days, today);
    if start <= today < start + duration {
      assert days[today - start] == today;
    }
  }

  /** The compact view `[startView, endView)`. */
  datatype Window = Window(startView: int, endView: int)

  /** Up to seven days with today placed fourth when there is room, shifted
      back to a full seven days near the end of the mission. */
  function CompactWindow(todayIndex: int, n: nat): (w: Window)
    ensures 0 <= w.startView <= w.endView <= n
    ensures w.endView - w.startView == Min(7, n)
    ensures 0 <= todayIndex < n ==> w.startView <= todayIndex < w.endView
    ensures 3 <= todayIndex && todayIndex + 4 <= n ==> w.startView == todayIndex - 3
    ensures todayIndex == -1 ==> w == Window(0, Min(7, n))
  {
    var s0 := Max(0, todayIndex - 3);
    var e := Min(n, s0 + 7);
    var s := if e - s0 < 7 then Max(0, e - 7) else s0;
    Window(s, e)
  }

  /** The look of one day cell. */
  datatype Cell = CompletedCell | FailedCell | SkippedCell | TodayCell | MissedCell | PlainCell

  /** A history status the tracker draws a mark for. */
  predicate Marked(status: Option<DayStatus>) {
    status == Some(Completed) || status == Some(Failed) || status == Some(Skipped)
  }

  /** The first matching case wins: completed, failed, skipped, today, past,
      and otherwise the plain cell. */
  function Classify(status: Option<DayStatus>, isToday: bool, isPast: bool): (c: Cell)
    ensures c == CompletedCell <==> status == Some(Completed)
    ensures c == FailedCell <==> status == Some(Failed)
    ensures c == SkippedCell <==> status == Some(Skipped)
    ensures c == TodayCell <==> !Marked(status) && isToday
    ensures c == MissedCell <==> !Marked(status) && !isToday && isPast
    ensures c == PlainCell <==> !Marked(status) && !isToday && !isPast
  {
    if status == Some(Completed) then CompletedCell
    else if status == Some(Failed) then FailedCell
    else if status == Some(Skipped) then SkippedCell
    else if isToday then TodayCell
    else if isPast then MissedCell
    else PlainCell
  }

  /** One drawn cell: the day number shown, the day it stands for, its look. */
  datatype CellView = CellView(number: int, day: Day, cell: Cell)

  function StatusOn(history: map<Day, DayStatus>, d: Day): Option<DayStatus> {
    if d in history then Some(history[d]) else None
  }

  /** The first shown position: 0 expanded, `startView` compact. */
  function ViewFrom(w: Window, expanded: bool): int {
    if expanded then 0 else w.startView
  }

  /** The cells drawn: every day when expanded, the compact window
      otherwise. Labels are the absolute day index plus one in both modes. */
  function VisibleCells(history: map<Day, DayStatus>, start: Day, duration: int,
                        today: Day, expanded: bool): (r: seq<CellView>)
    ensures var days := DayList(start, duration);
            var w := CompactWindow(IndexOf(days, today), |days|);
            var from := ViewFrom(w, expanded);
            && |r| == (if expanded then |days| else w.endView - w.startView)
            && forall i :: 0 <= i < |r| ==>
                 && r[i].number == from + i + 1
                 && r[i].day == start + from + i
                 && r[i].cell == Classify(StatusOn(history, r[i].day), r[i].day == today, r[i].day < today)
  {
    var days := DayList(start, duration);
    var w := CompactWindow(IndexOf(days, today), |days|);
    var visible := if expanded then days else days[w.startView..w.endView];
    var from := ViewFrom(w, expanded);
    seq(|visible|, i requires 0 <= i < |visible| =>
      var d := visible[i];
      CellView(from + i + 1, d, Classify(StatusOn(history, d), d == today, d < today)))
  }

  /** While the mission runs, the compact view contains today's cell, labelled
      with today's day number in the mission. */
  lemma CompactViewShowsToday(history: map<Day, DayStatus>, start: Day, duration: int, today: Day)
    requires start <= today < start + duration
    ensures var cells := VisibleCells(history, start, duration, today, false);
            exists i :: 0 <= i < |cells| && cells[i].day == today && cells[i].number == today - start + 1
  {
    var cells := VisibleCells(history, start, duration, today, false);
    var days := DayList(start, duration);
    TodayIndex(start, duration, today);
    var w := CompactWindow(today - start, |days|);
    var i := today - start - w.startView;
    assert 0 <= i < |cells| && cells[i].day == today;
  }
}
