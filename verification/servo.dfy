/**
 * The servo actuator driver of src/servo.c: the angle-to-duty mapping, the
 * shared current angle, set_servo_angle and move_servo_smooth_to.
 *
 * The LEDC peripheral and the FreeRTOS delay are not modelled as hardware or
 * as time: every duty write and every delay is appended, in order, to a ghost
 * log of effects that the driver object keeps.
 */
module Servo {

  datatype Option<T> = None | Some(value: T)

  /** SERVO_MIN_DUTY: pulse width, in microseconds, at angle 0. */
  const MinPulse: int := 500
  /** SERVO_MAX_DUTY: pulse width, in microseconds, at angle 180. */
  const MaxPulse: int := 2500
  /** Angles are clamped to [0, MaxAngle] degrees. */
  const MaxAngle: int := 180
  /** (1 << 13) - 1: the largest duty of the 13-bit LEDC timer. */
  const MaxTimerDuty: int := 8191
  /** The PWM period at SERVO_FREQ_HZ = 50, in microseconds. */
  const PeriodMicros: int := 20000
  /** uint32_t arithmetic is taken modulo 2^32. */
  const U32Modulus: int := 0x1_0000_0000

  predicate InRange(a: int) {
    0 <= a <= MaxAngle
  }

  function Dist(x: int, y: int): nat {
    if x <= y then y - x else x - y
  }

  /** The two `if`s that open set_servo_angle and move_servo_smooth_to. */
  function Clamp(a: int): (r: int)
    ensures InRange(r)
    ensures InRange(a) ==> r == a
  {
    if a < 0 then 0 else if a > MaxAngle then MaxAngle else a
  }

  /** Clamping picks the angle of [0, 180] nearest to the request. */
  lemma ClampIsNearest(a: int, x: int)
    requires InRange(x)
    ensures Dist(Clamp(a), a) <= Dist(x, a)
  {
  }

  /**
   * The pulse width for an in-range angle: SERVO_MIN_DUTY plus
   * (SERVO_MAX_DUTY - SERVO_MIN_DUTY) * angle / 180 in C `int` arithmetic.
   * Every operand is non-negative, so C's truncating division is floor here.
   */
  function PulseWidth(angle: int): (w: int)
    requires InRange(angle)
    ensures MinPulse <= w <= MaxPulse
    ensures MaxAngle * (w - MinPulse) <= (MaxPulse - MinPulse) * angle < MaxAngle * (w - MinPulse + 1)
  {
    MinPulse + ((MaxPulse - MinPulse) * angle) / MaxAngle
  }

  /** `(duty * max_duty) / 20000` in uint32_t: the product wraps modulo 2^32 before the division. */
  function TimerDuty(w: int): (t: int)
    requires 0 <= w < U32Modulus
    ensures 0 <= t < U32Modulus
  {
    ((w * MaxTimerDuty) % U32Modulus) / PeriodMicros
  }

  /** The duty register value for an in-range angle. */
  function ScaledDuty(angle: int): (t: int)
    requires InRange(angle)
    ensures 204 <= t <= 1023
  {
    PulseWidthFitsTimer(angle);
    TimerDuty(PulseWidth(angle))
  }

  /** The duty that set_servo_angle(a) writes, for any `int` a. */
  function DutyFor(a: int): (t: int)
    ensures 204 <= t <= 1023
    ensures InRange(a) ==> t == ScaledDuty(a)
  {
    ScaledDuty(Clamp(a))
  }

  /** The product `duty * max_duty` of set_servo_angle never reaches 2^32, so it cannot wrap. */
  lemma PulseWidthFitsTimer(angle: int)
    requires InRange(angle)
    ensures PulseWidth(angle) * MaxTimerDuty < U32Modulus
    ensures TimerDuty(PulseWidth(angle)) == PulseWidth(angle) * MaxTimerDuty / PeriodMicros
    ensures 204 <= TimerDuty(PulseWidth(angle)) <= 1023
  {
    var w := PulseWidth(angle);
    MulMonotone(w, MaxPulse, MaxTimerDuty);
    MulMonotone(MinPulse, w, MaxTimerDuty);
    assert w * MaxTimerDuty <= 20477500;
    assert (w * MaxTimerDuty) % U32Modulus == w * MaxTimerDuty;
  }

  lemma MulMonotone(x: int, y: int, k: nat)
    requires x <= y
    ensures x * k <= y * k
  {
  }

  /** The end points of the map: 500 us and duty 204 at angle 0, 2500 us and duty 1023 at angle 180. */
  lemma DutyEndPoints()
    ensures PulseWidth(0) == MinPulse && ScaledDuty(0) == 204
    ensures PulseWidth(MaxAngle) == MaxPulse && ScaledDuty(MaxAngle) == 1023
  {
    PulseWidthFitsTimer(0);
    PulseWidthFitsTimer(MaxAngle);
  }

  /** One more degree adds at least 11 us of pulse width. */
  lemma PulseWidthIncreasing(a: int, b: int)
    requires InRange(a) && InRange(b) && a < b
    ensures PulseWidth(a) + 11 <= PulseWidth(b)
  {
    var x := (MaxPulse - MinPulse) * a;
    assert (MaxPulse - MinPulse) * b >= x + 11 * MaxAngle;
    assert (x + 11 * MaxAngle) / MaxAngle == x / MaxAngle + 11;
  }

  /** The duty register value is strictly increasing in the angle, so distinct angles give distinct duties. */
  lemma ScaledDutyIncreasing(a: int, b: int)
    requires InRange(a) && InRange(b) && a < b
    ensures ScaledDuty(a) < ScaledDuty(b)
  {
    PulseWidthIncreasing(a, b);
    PulseWidthFitsTimer(a);
    PulseWidthFitsTimer(b);
    var u, v := PulseWidth(a), PulseWidth(b);
    MulMonotone(u + 11, v, MaxTimerDuty);
    var x := u * MaxTimerDuty;
    assert v * MaxTimerDuty >= x + PeriodMicros;
    assert (x + PeriodMicros) / PeriodMicros == x / PeriodMicros + 1;
  }

  /** Across clamping, the written duty is non-decreasing in the requested angle. */
  lemma DutyForMonotone(a: int, b: int)
    requires a <= b
    ensures DutyFor(a) <= DutyFor(b)
  {
    if Clamp(a) < Clamp(b) {
      ScaledDutyIncreasing(Clamp(a), Clamp(b));
    }
  }

  /** Re-applying the angle that set_servo_angle(a) recorded writes the same duty and records the same angle. */
  lemma SetAngleIdempotent(a: int)
    ensures Clamp(Clamp(a)) == Clamp(a)
    ensures DutyFor(Clamp(a)) == DutyFor(a)
  {
  }

  // ---------------------------------------------------------------------
  // The observable effects and the smooth move

  /** A write of the LEDC channel duty (ledc_set_duty then ledc_update_duty), or a vTaskDelay of `ms` milliseconds. */
  datatype Effect = LedcDuty(duty: int) | Delay(ms: int)

  /** The direction chosen by move_servo_smooth_to: +1 when the start is below the target, -1 otherwise. */
  function Step(s: int, e: int): (r: int)
    ensures r == 1 || r == -1
    ensures r == 1 <==> s < e
  {
    if s < e then 1 else -1
  }

  /**
   * The values the loop variable of move_servo_smooth_to takes while it differs
   * from the target: s, s + step, ..., e - step.
   */
  function Path(s: int, e: int): (p: seq<int>)
    ensures |p| == Dist(s, e)
    ensures p != [] ==> p[0] == s && p[|p| - 1] + Step(s, e) == e
  {
    seq(Dist(s, e), i => if s < e then s + i else s - i)
  }

  /** The effects of the loop body for each angle of `path`: a duty write, then a delay of `d`. */
  function StepTrace(path: seq<int>, d: int): (t: seq<Effect>)
    ensures |t| == 2 * |path|
  {
    seq(2 * |path|, i requires 0 <= i < 2 * |path| =>
      if i % 2 == 0 then LedcDuty(DutyFor(path[i / 2])) else Delay(d))
  }

  /** All effects of move_servo_smooth_to from s to the clamped target e with step delay d. */
  function SmoothTrace(s: int, e: int, d: int): (t: seq<Effect>)
    ensures |t| == 2 * Dist(s, e) + 1
    ensures t[|t| - 1] == LedcDuty(DutyFor(e))
  {
    StepTrace(Path(s, e), d) + [LedcDuty(DutyFor(e))]
  }

  /** The duty most recently written to the channel, if any. */
  function LastWrite(effects: seq<Effect>): Option<int> {
    if effects == [] then None
    else match effects[|effects| - 1]
      case LedcDuty(duty) => Some(duty)
      case Delay(_) => LastWrite(effects[..|effects| - 1])
  }

  /** The number of delays in a log. */
  function DelayCount(effects: seq<Effect>): nat {
    if effects == [] then 0
    else DelayCount(effects[..|effects| - 1]) + (if effects[|effects| - 1].Delay? then 1 else 0)
  }

  /** The total time, in milliseconds, that the delays of a log suspend the caller. */
  function TotalDelay(effects: seq<Effect>): int {
    if effects == [] then 0
    else TotalDelay(effects[..|effects| - 1]) + (if effects[|effects| - 1].Delay? then effects[|effects| - 1].ms else 0)
  }

  /** The visited angles are strictly monotone in the direction of travel. */
  lemma PathMonotone(s: int, e: int, i: int, j: int)
    requires 0 <= i < j < |Path(s, e)|
    ensures s < e ==> Path(s, e)[i] < Path(s, e)[j]
    ensures s > e ==> Path(s, e)[i] > Path(s, e)[j]
  {
  }

  /** Each visited angle is the previous one plus the step. */
  lemma PathSteps(s: int, e: int, i: int)
    requires 0 < i < |Path(s, e)|
    ensures Path(s, e)[i] == Path(s, e)[i - 1] + Step(s, e)
  {
  }

  /** For each visited angle the loop writes its duty, then delays. */
  lemma StepTraceAt(path: seq<int>, d: int, i: int)
    requires 0 <= i < |path|
    ensures StepTrace(path, d)[2 * i] == LedcDuty(DutyFor(path[i]))
    ensures StepTrace(path, d)[2 * i + 1] == Delay(d)
  {
    assert (2 * i) / 2 == i && (2 * i + 1) / 2 == i && (2 * i) % 2 == 0 && (2 * i + 1) % 2 == 1;
  }

  /** Every angle from s (included) to e (excluded) is visited, and no other; the path is empty when s == e. */
  lemma PathCovers(s: int, e: int, x: int)
    ensures x in Path(s, e) <==> (s <= x < e || e < x <= s)
  {
    var p := Path(s, e);
    if s <= x < e {
      assert p[x - s] == x;
    } else if e < x <= s {
      assert p[s - x] == x;
    }
  }

  /** Between in-range end points, every visited angle is in range. */
  lemma PathInRange(s: int, e: int, i: int)
    requires InRange(s) && InRange(e) && 0 <= i < |Path(s, e)|
    ensures InRange(Path(s, e)[i])
  {
  }

  /** One more loop iteration appends the loop variable to the visited angles. */
  lemma PathExtend(s: int, e: int, a: int)
    requires s <= e ==> s <= a < e
    requires s > e ==> e < a <= s
    ensures Path(s, a + Step(s, e)) == Path(s, a) + [a]
  {
    var p, q := Path(s, a), Path(s, a + Step(s, e));
    assert |q| == |p| + 1;
    forall i | 0 <= i < |q|
      ensures q[i] == (p + [a])[i]
    {
      if i < |p| {
        assert q[i] == p[i];
      }
    }
  }

  lemma StepTraceSnoc(path: seq<int>, a: int, d: int)
    ensures StepTrace(path + [a], d) == StepTrace(path, d) + [LedcDuty(DutyFor(a)), Delay(d)]
  {
    var t, u := StepTrace(path + [a], d), StepTrace(path, d) + [LedcDuty(DutyFor(a)), Delay(d)];
    forall i | 0 <= i < |t|
      ensures t[i] == u[i]
    {
      if i < 2 * |path| {
        assert (path + [a])[i / 2] == path[i / 2];
      }
    }
  }

  lemma MulSucc(n: int, d: int)
    ensures (n + 1) * d == n * d + d
  {
  }

  lemma DelaySnoc(t: seq<Effect>, x: Effect)
    ensures DelayCount(t + [x]) == DelayCount(t) + (if x.Delay? then 1 else 0)
    ensures TotalDelay(t + [x]) == TotalDelay(t) + (if x.Delay? then x.ms else 0)
  {
    assert (t + [x])[..|t|] == t;
  }

  /** A loop trace holds one delay of `d` per visited angle. */
  lemma {:induction false} StepTraceDelays(path: seq<int>, d: int)
    ensures DelayCount(StepTrace(path, d)) == |path|
    ensures TotalDelay(StepTrace(path, d)) == |path| * d
  {
    if path != [] {
      var init, a := path[..|path| - 1], path[|path| - 1];
      assert path == init + [a];
      StepTraceDelays(init, d);
      StepTraceSnoc(init, a, d);
      var t := StepTrace(init, d);
      var u := t + [LedcDuty(DutyFor(a))];
      assert StepTrace(path, d) == u + [Delay(d)];
      DelaySnoc(t, LedcDuty(DutyFor(a)));
      DelaySnoc(u, Delay(d));
      MulSucc(|init|, d);
    }
  }

  /**
   * The effects of a smooth move from s to e: for each visited angle a duty
   * write followed by a delay of d, then the final write for e and no delay
   * after it. There are |e - s| delays, for |e - s| * d milliseconds in all,
   * and the last duty written is the one for e.
   */
  lemma SmoothTraceShape(s: int, e: int, d: int)
    ensures |SmoothTrace(s, e, d)| == 2 * Dist(s, e) + 1
    ensures forall i :: 0 <= i < Dist(s, e) ==>
      SmoothTrace(s, e, d)[2 * i] == LedcDuty(DutyFor(if s < e then s + i else s - i))
      && SmoothTrace(s, e, d)[2 * i + 1] == Delay(d)
    ensures SmoothTrace(s, e, d)[2 * Dist(s, e)] == LedcDuty(DutyFor(e))
    ensures DelayCount(SmoothTrace(s, e, d)) == Dist(s, e)
    ensures TotalDelay(SmoothTrace(s, e, d)) == Dist(s, e) * d
    ensures LastWrite(SmoothTrace(s, e, d)) == Some(DutyFor(e))
  {
    var t := StepTrace(Path(s, e), d);
    StepTraceDelays(Path(s, e), d);
    var t' := SmoothTrace(s, e, d);
    assert t'[..|t'| - 1] == t;
    forall i | 0 <= i < Dist(s, e)
      ensures t'[2 * i] == LedcDuty(DutyFor(if s < e then s + i else s - i)) && t'[2 * i + 1] == Delay(d)
    {
      assert t'[2 * i] == t[2 * i] && t'[2 * i + 1] == t[2 * i + 1];
      assert (2 * i + 1) / 2 == i && (2 * i) / 2 == i;
    }
  }

  /** When the start already equals the target only the final write happens. */
  lemma SmoothTraceAtTarget(e: int, d: int)
    ensures Path(e, e) == []
    ensures SmoothTrace(e, e, d) == [LedcDuty(DutyFor(e))]
  {
  }

  /** One iteration of the smooth-move loop keeps both logs equal to the visited prefix of the path. */
  lemma LoopStep(commanded0: seq<int>, effects0: seq<Effect>, s: int, e: int, a: int, d: int,
                 commanded1: seq<int>, effects1: seq<Effect>, commanded2: seq<int>, effects2: seq<Effect>)
    requires s <= e ==> s <= a < e
    requires s > e ==> e < a <= s
    requires commanded1 == commanded0 + Path(s, a) && effects1 == effects0 + StepTrace(Path(s, a), d)
    requires commanded2 == commanded1 + [a] && effects2 == effects1 + [LedcDuty(DutyFor(a))] + [Delay(d)]
    ensures commanded2 == commanded0 + Path(s, a + Step(s, e))
    ensures effects2 == effects0 + StepTrace(Path(s, a + Step(s, e)), d)
  {
    PathExtend(s, e, a);
    StepTraceSnoc(Path(s, a), a, d);
    var t := StepTrace(Path(s, a), d);
    var x, y := LedcDuty(DutyFor(a)), Delay(d);
    assert effects0 + (t + [x, y]) == effects0 + t + [x] + [y];
  }

  /** The final set_servo_angle(e) completes the trace of the smooth move. */
  lemma FinalStep(effects0: seq<Effect>, s: int, e: int, d: int, effects1: seq<Effect>, effects2: seq<Effect>)
    requires effects1 == effects0 + StepTrace(Path(s, e), d)
    requires effects2 == effects1 + [LedcDuty(DutyFor(e))]
    ensures effects2 == effects0 + SmoothTrace(s, e, d)
  {
  }

  // ---------------------------------------------------------------------
  // The driver state

  /** The process-wide state of src/servo.c together with the log of its effects. */
  class Driver {
    /** current_angle: the last angle applied by set_servo_angle, 0 at start. */
    var currentAngle: int
    /** The arguments passed to set_servo_angle, in call order. */
    ghost var commanded: seq<int>
    /** The duty last written to the LEDC channel, if any. */
    ghost var channelDuty: Option<int>
    /** The duty writes and delays issued, in order. */
    ghost var effects: seq<Effect>

    /**
     * The current angle is in range and is what the channel was last
     * commanded with: before any duty write it is 0; afterwards the channel
     * holds the duty for it. An empty log means nothing was written.
     */
    ghost predicate Valid()
      reads this
    {
      && InRange(currentAngle)
      && (effects == [] ==> channelDuty == None)
      && (channelDuty == None ==> currentAngle == 0)
      && (channelDuty != None ==> channelDuty == Some(ScaledDuty(currentAngle)))
    }

    /** `int current_angle = 0;` */
    constructor ()
      ensures Valid()
      ensures currentAngle == 0 && commanded == [] && channelDuty == None && effects == []
    {
      currentAngle := 0;
      commanded := [];
      channelDuty := None;
      effects := [];
    }

    /** ledc_set_duty followed by ledc_update_duty on the servo channel. */
    method WriteDuty(duty: int)
      modifies this
      ensures currentAngle == old(currentAngle) && commanded == old(commanded)
      ensures channelDuty == Some(duty)
      ensures effects == old(effects) + [LedcDuty(duty)]
    {
      channelDuty := Some(duty);
      effects := effects + [LedcDuty(duty)];
    }

    /** vTaskDelay(pdMS_TO_TICKS(ms)): suspends the caller and changes no driver state. */
    method TaskDelay(ms: int)
      requires Valid()
      modifies this
      ensures Valid()
      ensures currentAngle == old(currentAngle) && commanded == old(commanded) && channelDuty == old(channelDuty)
      ensures effects == old(effects) + [Delay(ms)]
    {
      effects := effects + [Delay(ms)];
    }

    /** set_servo_angle: clamp, write the duty for the clamped angle, record it. */
    method SetServoAngle(angle: int)
      requires Valid()
      modifies this
      ensures Valid()
      ensures currentAngle == Clamp(angle)
      ensures channelDuty == Some(DutyFor(angle)) && LastWrite(effects) == channelDuty
      ensures commanded == old(commanded) + [angle]
      ensures effects == old(effects) + [LedcDuty(DutyFor(angle))]
    {
      var a := angle;
      if a < 0 {
        a := 0;
      }
      if a > MaxAngle {
        a := MaxAngle;
      }
      var scaled := ScaledDuty(a);
      WriteDuty(scaled);
      currentAngle := a;
      commanded := commanded + [angle];
    }

    /**
     * move_servo_smooth_to: step one degree at a time from the current angle
     * towards the clamped target, delaying after each step, then set the
     * target itself.
     */
    method MoveServoSmoothTo(endAngle: int, stepDelayMs: int)
      requires Valid()
      modifies this
      ensures Valid()
      ensures currentAngle == Clamp(endAngle)
      ensures channelDuty == Some(DutyFor(Clamp(endAngle))) && LastWrite(effects) == channelDuty
      ensures commanded == old(commanded) + Path(old(currentAngle), Clamp(endAngle)) + [Clamp(endAngle)]
      ensures effects == old(effects) + SmoothTrace(old(currentAngle), Clamp(endAngle), stepDelayMs)
    {
      var target := endAngle;
      if target < 0 {
        target := 0;
      }
      if target > MaxAngle {
        target := MaxAngle;
      }
      var step := if currentAngle < target then 1 else -1;
      var angle := currentAngle;
      ghost var start, commanded0, effects0 := currentAngle, commanded, effects;
      while angle != target
        invariant Valid()
        invariant step == Step(start, target)
        invariant start <= target ==> start <= angle <= target
        invariant start > target ==> target <= angle <= start
        invariant commanded == commanded0 + Path(start, angle)
        invariant effects == effects0 + StepTrace(Path(start, angle), stepDelayMs)
        decreases if start <= target then target - angle else angle - target
      {
        ghost var commanded1, effects1 := commanded, effects;
        SetServoAngle(angle);
        TaskDelay(stepDelayMs);
        LoopStep(commanded0, effects0, start, target, angle, stepDelayMs, commanded1, effects1, commanded, effects);
        angle := angle + step;
      }
      ghost var effects1 := effects;
      SetServoAngle(target);
      FinalStep(effects0, start, target, stepDelayMs, effects1, effects);
    }
  }
}
