/**
 * The shot-clock screen of the Android app: a state machine over timer phases driven by
 * taps and by countdown timers that run out.  The successor of a phase and the number of
 * signals a phase plays belong to the phase enumeration, which is not part of this model;
 * the clock receives them as functions.  Timers, the horn and the vibrator are modelled by
 * what the clock asks of them: the countdown it has pending, the text it shows, the horn
 * and vibration requests it issues, and whether it closed its activity.
 */
module ShotClock {
  import opened Common

  datatype TimerState = WaitForStart | Preparation | Shooting | Countdown | Finished | Exit

  /** The timer settings: phase lengths in seconds and the signal switches. */
  datatype TimerSettings = TimerSettings(waitTime: int, shootTime: int, warnTime: int, sound: bool, vibrate: bool)

  /** What the time view shows. */
  datatype TimeText = Blank | StopText | Seconds(n: int)

  /**
   * A started countdown timer.  `StopHold` is the 6 s "stop" timer of the finished phase,
   * whose ticks show nothing; `Counting` shows `offset + ceil(msLeft / 1000)` on each tick.
   * Either one moves to `nextStatus` when it runs out.
   */
  datatype Pending =
    | StopHold(durationMs: int, nextStatus: TimerState)
    | Counting(durationMs: int, offset: int, nextStatus: TimerState)

  const StopHoldMs: int := 6000

  /** Whether a phase runs a per-second countdown. */
  predicate IsTimed(s: TimerState) {
    s == Preparation || s == Shooting || s == Countdown
  }

  /** `getDuration`: phase length in seconds; any other phase is an illegal argument. */
  function Duration(settings: TimerSettings, s: TimerState): (r: Option<int>)
    ensures r.Some? <==> IsTimed(s)
  {
    match s
    case Preparation => Some(settings.waitTime)
    case Shooting => Some(settings.shootTime - settings.warnTime)
    case Countdown => Some(settings.warnTime)
    case _ => None
  }

  /** `getOffset`: the shooting phase counts on top of the warning time. */
  function Offset(settings: TimerSettings, s: TimerState): int {
    if s == Shooting then settings.warnTime else 0
  }

  /** `Math.ceil(ms / 1000.0)` for a non-negative number of milliseconds. */
  function CeilSeconds(ms: nat): nat {
    (ms + 999) / 1000
  }

  /** The number a tick shows with `msLeft` milliseconds left. */
  function ShownCount(settings: TimerSettings, s: TimerState, msLeft: nat): int {
    Offset(settings, s) + CeilSeconds(msLeft)
  }

  lemma {:induction false} CeilSecondsRange(ms: nat, d: nat)
    requires 0 < ms <= d * 1000
    ensures 1 <= CeilSeconds(ms) <= d
  {
    assert ms + 999 < (d + 1) * 1000;
  }

  /**
   * While shooting, the shown count stays above the warning time and reaches the shooting
   * time at most; the countdown phase then shows the warning time down to 1, so the two
   * phases together count down the whole shooting time without a jump.
   */
  lemma ShootingThenCountdown(settings: TimerSettings, msShoot: nat, msWarn: nat)
    requires settings.warnTime >= 0 && settings.shootTime >= settings.warnTime
    requires 0 < msShoot <= Duration(settings, Shooting).value * 1000
    requires 0 < msWarn <= Duration(settings, Countdown).value * 1000
    ensures settings.warnTime < ShownCount(settings, Shooting, msShoot) <= settings.shootTime
    ensures 1 <= ShownCount(settings, Countdown, msWarn) <= settings.warnTime
  {
    CeilSecondsRange(msShoot, settings.shootTime - settings.warnTime);
    CeilSecondsRange(msWarn, settings.warnTime);
  }

  /** The vibration pattern for `n` signals: 150 ms wait, then n times (400 ms on, 750 ms off). */
  predicate IsVibrationPattern(p: seq<int>, n: nat) {
    && |p| == 1 + 2 * n
    && p[0] == 150
    && forall i :: 0 <= i < n ==> p[2 * i + 1] == 400 && p[2 * i + 2] == 750
  }

  /** `after` is `before` plus the pattern for `n` signals when n > 0, and `before` otherwise. */
  predicate Signalled(before: seq<seq<int>>, after: seq<seq<int>>, n: int) {
    if n > 0 then
      |after| == |before| + 1 && after[..|before|] == before && IsVibrationPattern(after[|before|], n)
    else
      after == before
  }

  /** The pattern array `playSignal` builds. */
  method VibrationPattern(n: nat) returns (pattern: seq<int>)
    ensures IsVibrationPattern(pattern, n)
  {
    var p := new int[1 + n * 2];
    p[0] := 150;
    for i := 0 to n
      invariant p[0] == 150
      invariant forall k :: 0 <= k < i ==> p[2 * k + 1] == 400 && p[2 * k + 2] == 750
    {
      p[i * 2 + 1] := 400;
      p[i * 2 + 2] := 750;
    }
    pattern := p[..];
  }

  /**
   * `playHorn(n)` as a count of horn blasts: a blast starts when the horn is idle and the
   * screen still attached, and its completion asks for the remaining n - 1.  `detachedAt(k)`
   * tells whether the screen is detached at the k-th attempt; `busy` whether the horn is
   * already playing at the first one (later attempts follow a completion, so it is idle).
   */
  function HornBlasts(n: int, busy: bool, detachedAt: nat -> bool, k: nat): (r: nat)
    ensures r <= Max(n, 1)
    ensures r > 0 ==> !busy && !detachedAt(k)
    decreases n
  {
    if busy || detachedAt(k) then 0
    else 1 + (if n > 1 then HornBlasts(n - 1, false, detachedAt, k + 1) else 0)
  }

  /** An idle horn on a screen that stays attached sounds exactly n times. */
  lemma {:induction false} HornBlastsAttached(n: int, detachedAt: nat -> bool, k: nat)
    requires n >= 1
    requires forall j :: k <= j < k + n ==> !detachedAt(j)
    ensures HornBlasts(n, false, detachedAt, k) == n
    decreases n
  {
    if n > 1 {
      HornBlastsAttached(n - 1, detachedAt, k + 1);
    }
  }

  /** A detach at attempt k + j stops the chain: at most j blasts sound. */
  lemma {:induction false} HornBlastsDetached(n: int, detachedAt: nat -> bool, k: nat, j: nat)
    requires detachedAt(k + j)
    ensures HornBlasts(n, false, detachedAt, k) <= j
    decreases n
  {
    if j > 0 && n > 1 && !detachedAt(k) {
      HornBlastsDetached(n - 1, detachedAt, k + 1, j - 1);
    }
  }

  class TimerScreen {
    const settings: TimerSettings
    const exitAfterStop: bool
    /** `ETimerState.next` and `ETimerState.signalCount`. */
    const next: TimerState -> TimerState
    const signalCount: TimerState -> int

    var currentStatus: TimerState
    var countdown: Option<Pending>
    var timeText: TimeText
    /** The phase last passed to `applyStatus`. */
    var shownStatus: TimerState
    /** Set once the activity was asked to finish. */
    var finished: bool
    /** The `n` of every `playHorn(n)` issued, in order. */
    var hornRequests: seq<int>
    /** Every vibration pattern sent to the vibrator, in order. */
    var vibrations: seq<seq<int>>

    /**
     * The current phase is never `Exit`, and a pending timer always leads to the successor of
     * the current phase (any change of phase cancels the timer first).
     */
    ghost predicate Valid()
      reads this
    {
      && currentStatus != Exit
      && (countdown.Some? ==> countdown.value.nextStatus == next(currentStatus))
    }

    /** The pending timer a phase starts. */
    static function TimerFor(settings: TimerSettings, next: TimerState -> TimerState, s: TimerState): Option<Pending> {
      if s == Finished then Some(StopHold(StopHoldMs, next(s)))
      else if IsTimed(s) then Some(Counting(Duration(settings, s).value * 1000, Offset(settings, s), next(s)))
      else None
    }

    static function TextFor(s: TimerState): Option<TimeText> {
      if s == Finished then Some(StopText) else if IsTimed(s) then None else Some(Blank)
    }

    /** The screen as created, before the view appears (`onViewCreated` then applies the first phase). */
    constructor (settings: TimerSettings, exitAfterStop: bool, next: TimerState -> TimerState, signalCount: TimerState -> int)
      ensures Valid()
      ensures this.settings == settings && this.exitAfterStop == exitAfterStop
      ensures this.next == next && this.signalCount == signalCount
      ensures currentStatus == WaitForStart && countdown == None && !finished
      ensures hornRequests == [] && vibrations == []
    {
      this.settings, this.exitAfterStop := settings, exitAfterStop;
      this.next, this.signalCount := next, signalCount;
      currentStatus, countdown, timeText, shownStatus := WaitForStart, None, Blank, WaitForStart;
      finished, hornRequests, vibrations := false, [], [];
    }

    /** `playSignal(n)`: a horn request when sound is on, a vibration pattern when vibration is on. */
    method PlaySignal(n: int)
      modifies this`hornRequests, this`vibrations
      ensures hornRequests == old(hornRequests) + (if n > 0 && settings.sound then [n] else [])
      ensures Signalled(old(vibrations), vibrations, if settings.vibrate then n else 0)
    {
      if n > 0 {
        if settings.sound {
          hornRequests := hornRequests + [n];
        }
        if settings.vibrate {
          var pattern := VibrationPattern(n);
          vibrations := vibrations + [pattern];
          assert vibrations[..|old(vibrations)|] == old(vibrations);
        }
      }
    }

    /**
     * The whole effect of `changeStatus(status)`: `Exit` with `exitAfterStop` only closes the
     * activity (and cancels the timer); otherwise the phase `s` (`WaitForStart` in place of
     * `Exit`) becomes current and shown, its timer replaces the pending one, its text (if it
     * has one) is shown, and its signals are requested.
     */
    twostate predicate ChangedTo(status: TimerState)
      reads this
    {
      if status == Exit && exitAfterStop then
        && finished && countdown == None
        && currentStatus == old(currentStatus) && shownStatus == old(shownStatus)
        && timeText == old(timeText) && hornRequests == old(hornRequests) && vibrations == old(vibrations)
      else
        var s := if status == Exit then WaitForStart else status;
        && currentStatus == s && shownStatus == s && finished == old(finished)
        && countdown == TimerFor(settings, next, s)
        && timeText == (if TextFor(s).Some? then TextFor(s).value else old(timeText))
        && hornRequests == old(hornRequests) + (if signalCount(s) > 0 && settings.sound then [signalCount(s)] else [])
        && Signalled(old(vibrations), vibrations, if settings.vibrate then signalCount(s) else 0)
    }

    /**
     * `changeStatus(status)`: cancels the pending timer; `Exit` either closes the activity or
     * starts over from `WaitForStart`; any other phase becomes current, is shown, plays its
     * signals and starts its timer (or clears the time text).
     */
    method ChangeStatus(status: TimerState)
      requires Valid()
      modifies this
      ensures Valid() && ChangedTo(status)
      decreases if status == Exit then 1 else 0
    {
      countdown := None;
      if status == Exit {
        if exitAfterStop {
          finished := true;
        } else {
          ChangeStatus(WaitForStart);
        }
        return;
      }
      currentStatus := status;
      shownStatus := status;
      PlaySignal(signalCount(status));
      if status == Finished {
        timeText := StopText;
        countdown := Some(StopHold(StopHoldMs, next(status)));
      } else if !IsTimed(status) {
        timeText := Blank;
      } else {
        var duration := Duration(settings, status).value;
        countdown := Some(Counting(duration * 1000, Offset(settings, status), next(status)));
      }
    }

    /** A tap on the screen asks for the successor of the current phase. */
    method OnClick()
      requires Valid()
      modifies this
      ensures Valid() && ChangedTo(next(old(currentStatus)))
    {
      ChangeStatus(next(currentStatus));
    }

    /** A tick of the pending timer with `msLeft` milliseconds left; a cancelled timer no longer ticks. */
    method OnTick(msLeft: nat)
      modifies this`timeText
      ensures countdown.Some? && countdown.value.Counting? ==>
        timeText == Seconds(countdown.value.offset + CeilSeconds(msLeft))
      ensures !(countdown.Some? && countdown.value.Counting?) ==> timeText == old(timeText)
    {
      if countdown.Some? && countdown.value.Counting? {
        timeText := Seconds(countdown.value.offset + CeilSeconds(msLeft));
      }
    }

    /** The pending timer runs out: the clock moves on to the phase it was started for. */
    method OnFinish()
      requires Valid()
      modifies this
      ensures Valid()
      ensures old(countdown) == None ==> unchanged(this)
      ensures old(countdown).Some? ==> ChangedTo(next(old(currentStatus)))
    {
      if countdown.Some? {
        ChangeStatus(countdown.value.nextStatus);
      }
    }
  }

  /** A timed phase's countdown shows the same number `ShownCount` states. */
  lemma TimedTickShows(settings: TimerSettings, next: TimerState -> TimerState, s: TimerState, msLeft: nat)
    requires IsTimed(s)
    ensures TimerScreen.TimerFor(settings, next, s).Some?
    ensures var p := TimerScreen.TimerFor(settings, next, s).value;
      p.Counting? && p.offset + CeilSeconds(msLeft) == ShownCount(settings, s, msLeft)
      && p.durationMs == Duration(settings, s).value * 1000
  {
  }
}
