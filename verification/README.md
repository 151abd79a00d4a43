# FocusPoint mission engine — a Dafny model

FocusPoint tracks "missions": challenges with daily habits, a daily point
target, a mercy buffer of days that may be missed without penalty, and a
history of how each day went. This project models the logic at its core:

- the **daily reconciliation** of the focus context. It scans from the
  mission's start date for the first missed scheduled day. It then either
  spends a buffer day on it (the day becomes Skipped and the mercy alert
  shows) or reports it as a breach that blocks input. Finally it rolls a new
  day over: habit tasks are regenerated, pending tasks carried over, and the
  score is reset;
- the **user actions** of the focus context: adding and completing tasks,
  accepting the penalty, acknowledging mercy, restarting, and the
  single-mission update they all go through;
- the **streak tracker**: the day list, the seven-day compact window and the
  status shown in each day cell;
- the **tap counter**: taps, cooldown, gaps and the single completion report;
- the **dashboard statistics** of the three dashboard views: points, mission
  counts, missions due today, the completed-day "streak" and the 14-day
  heatmap.

Dates are day numbers (day 0 = 1970-01-01, a Thursday). A weekday is a
function of the day number. Every operation is a pure function, or a method
whose loop is proved against a pure reference fold. Clocks and generated ids
are parameters: `today`/`now` for dates, `stamp` for the `Date.now()` ids.

Files: `wrappers.dfy` (Option), `folds.dfy` (order-independent sums and maxima
over maps), `missions.dfy` (data model), `reconcile.dfy` (the engine),
`reconcile_props.dfy` (properties of successive runs), `focus.dfy` (context
state and actions), `focus_props.dfy` (properties over any action sequence),
`streak.dfy`, `tap.dfy`, `stats.dfy`.

## Behaviour worth knowing

These are properties of the code as written.

- A mission created today has `scoreDate` equal to today. Its first
  reconciliation therefore changes nothing and generates no habit tasks
  (`ReconcileProps.NewMissionRunIsQuiet`).
- The scan exempts the day equal to `scoreDate`. The rollover moves
  `scoreDate` to today, so a day that was exempt on one run can be flagged on
  the next run. Missed days are therefore not always surfaced oldest first.
  With two buffer days, a mission created on day 100 and reconciled on day
  103 spends mercy on day 101, then on day 100, then reports day 102 as a
  breach (`ReconcileProps.ThreeMissedDaysScenario`). Apart from that day,
  resolution does move strictly forward (`ReconcileProps.ResolvedMissIsPassed`).
- A full reconciliation is not idempotent: a second run on the same day can
  find and resolve the next missed day. Only the rollover part is idempotent
  (`Reconciliation.RolloverIdempotent`).
- Completing a task adds its points both to `todayScore` and to today's log.
  Every dashboard adds both, so on the dashboards a completion counts twice
  (`Stats.CompletionCountsTwice`).
- `handleRestart` keeps the spent buffer, the habits and the old `scoreDate`.
  It leaves `showMercyAlert` as it was.

## Model

| member | source | states |
|---|---|---|
| Missions.Weekday | src/context/FocusContext.tsx:131 | the weekday is in 0..6 and day 0 (1970-01-01) is a Thursday |
| Missions.ScheduleWeekly | src/context/FocusContext.tsx:132-134 | whether a day is scheduled repeats every seven days |
| Missions.NewMission | src/app/new-challenge/page.tsx:22-36 | a new mission has no tasks, history or log, a zero score dated today, no buffer, no habits, and runs every day |
| Reconciliation.ScanFrom | src/context/FocusContext.tsx:129-143 | the scan returns the earliest missed day in the range; every earlier day is not a miss, and None means the whole range holds no miss |
| Reconciliation.FindMissed | src/context/FocusContext.tsx:121-143 | the scan covers start date up to but not including today; it finds nothing when the start is not before today |
| Reconciliation.EarliestMissUnique | src/context/FocusContext.tsx:129-143 | the scan's answer is the only one meeting its contract |
| Reconciliation.ResolveMiss | src/context/FocusContext.tsx:145-158 | mercy iff buffer > 0. On mercy only history[d] is added (Skipped) and the buffer drops by exactly 1, staying at or above 0. Without buffer the mission is unchanged |
| Reconciliation.HabitTasks | src/context/FocusContext.tsx:169-175 | one High, pending task per habit, in habit order, with ids stamp + index |
| Reconciliation.PendingOnly | src/context/FocusContext.tsx:179 | keeps exactly the pending tasks and never adds any |
| Reconciliation.PendingOnlyAppend | src/context/FocusContext.tsx:179 | the filter distributes over concatenation, so carried-over tasks keep their order |
| Reconciliation.PendingOnlyIdempotent | src/context/FocusContext.tsx:179 | filtering twice equals filtering once |
| Reconciliation.Rollover | src/context/FocusContext.tsx:161-184 | with scoreDate = today nothing changes. Otherwise score 0 dated today, with habit tasks followed by pending tasks on a scheduled day and tasks unchanged on a rest day. History, log and config are untouched |
| Reconciliation.RolloverIdempotent | src/context/FocusContext.tsx:162 | a second rollover on the same day is a no-op |
| Reconciliation.Reconcile | src/context/FocusContext.tsx:115-188 | reports the earliest miss. Mercy iff a miss was found and buffer > 0. History only gains the Skipped day. The buffer drops by one per mercy. No other config field changes. The rollover effects hold |
| ReconcileProps.ReplayInvariants | src/context/FocusContext.tsx:145-158 | over any run sequence: no history entry is rewritten; the buffer falls by exactly the number of mercies, never below 0 if it started there, and is never touched if it started at or below 0 |
| ReconcileProps.ResolvedMissIsPassed | src/context/FocusContext.tsx:129-158 | after the found miss is answered (Skipped or Failed), the next scan finds nothing, a later day, or the previous scoreDate |
| ReconcileProps.ResolvedMissIsPassedStrictly | src/context/FocusContext.tsx:129-158 | when the old scoreDate cannot interfere, the next miss is strictly later |
| ReconcileProps.NewMissionRunIsQuiet | src/context/FocusContext.tsx:129-188 | a run on the creation day of a new mission finds no miss and changes nothing |
| ReconcileProps.ThreeMissedDaysScenario | src/context/FocusContext.tsx:129-188 | three unattended days with two buffer days resolve as day 101 (mercy), day 100 (mercy), then day 102 (breach) |
| Focus.ActiveMission | src/context/FocusContext.tsx:112 | the active mission exists iff an active id is set and stored, and it is the mission stored under that id |
| Focus.UpdateActive | src/context/FocusContext.tsx:192-204 | only the active id's entry is written; every other mission and the active id are unchanged |
| Focus.ReconcileActive | src/context/FocusContext.tsx:115-189 | no active mission: no-op. A found miss sets missedDate and showMercyAlert (= mercy). Nothing found keeps both flags. The active id, the set of mission keys and the other missions are unchanged |
| Focus.AddHabit | src/context/FocusContext.tsx:251-252 | the title ends up in the habits; it is appended only if absent, so duplicate-free habits stay duplicate-free |
| Focus.AddTask | src/context/FocusContext.tsx:247-258 | prepends one High, pending task and adds the title to the habits. Nothing else in the mission and neither flag changes. The active id, the set of mission keys and the other missions are unchanged |
| Focus.FindTask | src/context/FocusContext.tsx:262 | the index of the first task with the id, and None iff no task has it |
| Focus.MarkDone | src/context/FocusContext.tsx:296 | every task with the id becomes completed and all others are untouched |
| Focus.CompleteTask | src/context/FocusContext.tsx:260-300 | no-op while a breach is pending, without an active mission, or for an unknown id. Otherwise: score + points; one record appended under today; no other date's log changes; history[today] is set to Completed iff the new score >= target, and otherwise history is unchanged. The active id, the set of mission keys and the other missions are unchanged |
| Focus.HandlePenalty | src/context/FocusContext.tsx:302-307 | no-op without missedDate or active mission. Otherwise history[missedDate] := Failed and missedDate cleared; showMercyAlert kept. The active id, the set of mission keys and the other missions are unchanged |
| Focus.AcknowledgeMercy | src/context/FocusContext.tsx:309-312 | clears both flags, leaves the missions alone, and lifts any block |
| Focus.HandleRestart | src/context/FocusContext.tsx:314-329 | tasks, history and log are emptied and the score zeroed; startDate becomes now; the rest of config and scoreDate are kept; missedDate is cleared. With well-keyed missions only the active entry changes |
| FocusProps.UpdateActiveShrinks | src/context/FocusContext.tsx:192-204 | writing back the active mission with its id and no larger buffer keeps missions keyed by id and shrinks buffers |
| FocusProps.StepShrinks | src/context/FocusContext.tsx:145-329 | every action keeps missions keyed by their id, loses no mission, and grows no buffer or makes one negative |
| FocusProps.RunShrinks | src/context/FocusContext.tsx:115-329 | the same over any sequence of actions and reconciliation runs |
| FocusProps.CompletedDayStays | src/context/FocusContext.tsx:289-292 | a Completed day stays Completed through task completions and reconciliation runs |
| FocusProps.BreachBlocksCompletion | src/context/FocusContext.tsx:261 | while a breach is pending, completing a task changes nothing |
| FocusProps.PenaltyLiftsBreach | src/context/FocusContext.tsx:302-307 | accepting the penalty for a reported breach records Failed on that day and lifts the block |
| FocusProps.RestartThenRunIsQuiet | src/context/FocusContext.tsx:314-329 | after a restart, a run on the restart day reports no missed date |
| Streak.DayList | src/components/StreakTracker.tsx:31-36 | exactly max(0, duration) days, day i being start + i |
| Streak.IndexOf | src/components/StreakTracker.tsx:39 | the first position of the day, or -1 iff the day is absent |
| Streak.TodayIndex | src/components/StreakTracker.tsx:38-39 | today's index is today - start inside the mission and -1 outside |
| Streak.CompactWindow | src/components/StreakTracker.tsx:41-43 | 0 <= startView <= endView <= n, length min(7, n), contains today's index when in range, puts today fourth when there is room, and shows the first min(7, n) days when today is outside |
| Streak.Classify | src/components/StreakTracker.tsx:69-84 | each cell kind holds iff its precedence condition does: completed, failed, skipped, then today, then past, else plain |
| Streak.VisibleCells | src/components/StreakTracker.tsx:45-67 | all days when expanded, the window otherwise; cell i is day start + from + i, numbered from + i + 1, classified from its status |
| Streak.CompactViewShowsToday | src/components/StreakTracker.tsx:39-45 | during the mission the compact view contains today's cell with today's day number |
| Tap.HandleTap | src/components/TapCounter.tsx:39-70 | ignored in cooldown or at target. Otherwise count + 1, cooldown on, last tap time = now, and a gap recorded only after the first tap. Completion iff the new count equals the target, reporting totalTaps = target |
| Tap.CooldownElapsed | src/components/TapCounter.tsx:64 | clears the cooldown and changes nothing else |
| Tap.Remaining | src/components/TapCounter.tsx:185 | max(0, target - count): never negative, 0 iff the target is reached |
| Tap.PlayKeepsInvariant | src/components/TapCounter.tsx:39-70 | over any event sequence: 0 <= count <= target, gaps = taps - 1, count never decreases, and one completion iff the count crossed the target |
| Tap.CompletionOnce | src/components/TapCounter.tsx:67-69 | from a fresh counter, completion is reported at most once, exactly when the count reaches the target |
| Stats.CompletedDays | src/components/Dashboard.tsx:57 | the number of Completed history entries, between 0 and the history size |
| Stats.TotalPoints | src/components/Dashboard.tsx:45-54 | the sum over missions of every logged point plus todayScore |
| Stats.BestStreak | src/components/Dashboard.tsx:56-58 | the maximum of the missions' completed-day counts, bounding each one, and 0 with no missions |
| Stats.Heatmap | src/components/Dashboard.tsx:60-72 | 14 slots; slot 13 - i is set iff some mission has a history or log entry i days before today |
| Stats.DashboardViewStats | src/components/DashboardView.tsx:47-80 | totals as sums over missions; today's points from today's log only; missionsActive = number of missions >= missionsDueToday = number scheduled today; activeStreak = best completed count |
| Stats.DashboardStats | src/components/Dashboard.tsx:34-77 | no state: all-zero stats and empty heatmap. Otherwise the total points, the mission count, the best streak and the 14-slot heatmap |
| Stats.UserDashboardStats | src/components/UserDashboard.tsx:21-54 | total points and mission count over all missions; the streak is the active mission's completed count only, and 0 without an active mission |
| Stats.CompletionCountsTwice | src/components/DashboardView.tsx:58-68 | a task completion worth p raises the mission's dashboard points by 2p |

## Left out

- Persistence and theme: loading and saving through localStorage, JSON
  parsing and the theme toggle are browser I/O.
- Tap targets (`createTapTarget`, `updateTapTarget`), `addMission`, view-mode
  switching and `setActiveMissionId` are plain record writes with no rule to
  state.
- React scheduling: effect dependencies, batched state updates and timers.
  Each effect run and each event is one explicit transition. The cooldown
  timer is the `CooldownElapsed` event; the 1.5 s delay before the
  completion report is not modelled.
- Real dates and time zones. The engine uses local midnight while keys are
  UTC dates, and `completeTask` dates by UTC. Here every date is a day-number
  parameter. The streak tracker's "past" test compares instants; it is
  modelled as day < today.
- Floating point: the progress percentage, `avgGap` (left out of the
  completion report) and day counts computed with `Math.ceil`.
- Side effects: confetti and haptics. `Date.now()` ids are the `stamp`
  parameter.
- Focus.ActiveMission: an empty-string active id, which the source treats as
  none, is modelled as an ordinary id.
- Focus.UpdateActive: when the active id names no stored mission, the source
  would store a partial record; all callers check for an active mission
  first, so the model writes the whole mission.
- Stats.DashboardStats: a missing state is modelled by the effect's early
  return (zeros, empty heatmap); the component's render reads the missions
  of the state without that guard, so in the source a missing state fails
  at render before the effect runs.
- Stats.TotalPoints: log records always carry an integer `points`, so the
  `|| 0` fallback for missing values is not exercised.
- The `bestStreak` variable of the home dashboard is never updated and its
  static activity feed is fixed text.
- Presentation-only components: navigation, splash screen, layout, mission
  switcher, command view, active mission view, challenge header, task card,
  task input, tap target config and global overlays.
