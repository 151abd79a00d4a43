/**
 The tap counter: a count towards a target, a cooldown that ignores taps
 until it elapses, the gaps between taps, and a single completion report.
 The cooldown timer is the explicit `CooldownElapsed` event.
 */
module Tap {
  import opened Wrappers
  import opened Folds

  datatype TapState = TapState(count: int, cooldown: bool, lastTapTime: int, gaps: seq<int>)

  /** What `onComplete` receives, without the floating-point average gap. */
  datatype Report = Report(totalTime: int, totalTaps: int)

  datatype TapResult = TapResult(state: TapState, completion: Option<Report>)

  /** The counter as mounted at `mountTime`. */
  function Start(mountTime: int): TapState {
    TapState(0, false, mountTime, [])
  }

  /** `handleTap` at time `now`. A tap during the cooldown or at the target is
      ignored. Otherwise the count goes up by one, the gap since the previous
      tap is recorded (not before the first tap), the cooldown starts, and
      the tap that reaches the target reports completion. */
  function HandleTap(s: TapState, target: int, now: int, startTime: int): (r: TapResult)
    ensures s.cooldown || s.count >= target ==> r == TapResult(s, None)
    ensures !s.cooldown && s.count < target ==>
      && r.state.count == s.count + 1
      && r.state.cooldown
      && r.state.lastTapTime == now
      && r.state.gaps == (if s.count > 0 then s.gaps + [now - s.lastTapTime] else s.gaps)
      && (r.completion.Some? <==> r.state.count == target)
      && (r.completion.Some? ==> r.completion.value == Report(now - startTime, target))
  {
    if s.cooldown || s.count >= target then TapResult(s, None)
    else
      var gaps := if s.count > 0 then s.gaps + [now - s.lastTapTime] else s.gaps;
      var s' := TapState(s.count + 1, true, now, gaps);
      var done := if s.count + 1 >= target then Some(Report(now - startTime, target)) else None;
      TapResult(s', done)
  }

  /** The cooldown timer firing. */
  function CooldownElapsed(s: TapState): (r: TapState)
    ensures !r.cooldown
    ensures r.count == s.count && r.lastTapTime == s.lastTapTime && r.gaps == s.gaps
  {
    s.(cooldown := false)
  }

  /** The "Remaining" figure. */
  function Remaining(s: TapState, target: int): (r: int)
    ensures r >= 0
    ensures r == 0 <==> s.count >= target
    ensures s.count <= target ==> s.count + r == target
  {
    Max(0, target - s.count)
  }

  /** The counter's invariant: the count lies between 0 and the target (0
      for a target that is not positive), and there is one gap fewer than
      taps once there has been a tap. */
  ghost predicate Inv(s: TapState, target: int) {
    && 0 <= s.count <= Max(0, target)
    && |s.gaps| == Max(0, s.count - 1)
  }

  datatype Event = Tapped(now: int) | Elapsed

  /** The state after a sequence of events, and how many completion reports
      were made. */
  function Play(s: TapState, target: int, startTime: int, events: seq<Event>): (TapState, nat)
    decreases |events|
  {
    if events == [] then (s, 0)
    else match events[0]
      case Elapsed => Play(CooldownElapsed(s), target, startTime, events[1..])
      case Tapped(now) =>
        var r := HandleTap(s, target, now, startTime);
        var rest := Play(r.state, target, startTime, events[1..]);
        (rest.0, rest.1 + (if r.completion.Some? then 1 else 0))
  }

  /** Over any sequence of taps and cooldown expiries: the invariant holds,
      the count never decreases, and completion is reported exactly once if
      the count crossed the target and never otherwise. */
  lemma {:induction false} PlayKeepsInvariant(s: TapState, target: int, startTime: int, events: seq<Event>)
    requires Inv(s, target)
    ensures var (s', n) := Play(s, target, startTime, events);
            && Inv(s', target)
            && s.count <= s'.count
            && n == (if s.count < target <= s'.count then 1 else 0)
    decreases |events|
  {
    if events != [] {
      match events[0]
      case Elapsed =>
        PlayKeepsInvariant(CooldownElapsed(s), target, startTime, events[1..]);
      case Tapped(now) =>
        var r := HandleTap(s, target, now, startTime);
        PlayKeepsInvariant(r.state, target, startTime, events[1..]);
    }
  }

  /** From a fresh counter, a completion is reported at most once, and
      exactly when the count has reached the target. */
  lemma CompletionOnce(mountTime: int, target: int, startTime: int, events: seq<Event>)
    requires target >= 1
    ensures var (s', n) := Play(Start(mountTime), target, startTime, events);
            && n <= 1
            && (n == 1 <==> s'.count == target)
            && s'.count <= target
  {
    PlayKeepsInvariant(Start(mountTime), target, startTime, events);
  }
}
