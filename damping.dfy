/** The damping filter of `update_indicator_directions_animated`: each
    animation tick moves the damped north direction by a step computed from the
    raw difference `delta` between the sensed and the damped direction, in
    C's truncating integer arithmetic. The difference is never reduced to the
    shorter arc, so the lemmas below split on its magnitude. */
module Damping {
  import opened CInt
  import opened Trig

  const DAMPING_FACTOR_1: int := 10
  const DAMPING_FACTOR_2: int := -20
  const MAX_PROGRESS: int := 100

  /** Half a turn: the magnitude of `delta` at which progress reaches 0. */
  const HALF_TURN: int := TRIG_MAX_ANGLE / 2

  /** `progress`: MAX_PROGRESS for no difference, falling linearly to 0 at half
      a turn (and below 0 beyond it). */
  function Progress(delta: int): int
  {
    MAX_PROGRESS - TruncDiv(Abs(delta) * MAX_PROGRESS, HALF_TURN)
  }

  /** The bracket of line 176: `progress / damping_factor_1 +
      progress * progress / MAX_PROGRESS / damping_factor_2`. */
  function Multiplier(progress: int): int
  {
    TruncDiv(progress, DAMPING_FACTOR_1)
      + TruncDiv(TruncDiv(progress * progress, MAX_PROGRESS), DAMPING_FACTOR_2)
  }

  /** The amount line 176 adds to the damped direction. */
  function Step(delta: int): int
  {
    TruncDiv(delta * Multiplier(Progress(delta)), MAX_PROGRESS)
  }

  /** Within half a turn, progress lies in [0, MAX_PROGRESS]; it is
      MAX_PROGRESS below 328, at least 10 below 29819 and at most 9 from
      29819 up. */
  lemma ProgressRange(delta: int)
    requires Abs(delta) <= HALF_TURN
    ensures 0 <= Progress(delta) <= MAX_PROGRESS
    ensures Abs(delta) < 328 ==> Progress(delta) == MAX_PROGRESS
    ensures Abs(delta) < 29819 ==> Progress(delta) >= 10
    ensures Abs(delta) >= 29819 ==> Progress(delta) <= 9
  {
    var x := Abs(delta) * MAX_PROGRESS;
    assert x == Abs(delta) * 100;
    assert Progress(delta) == 100 - x / 32768;
    assert x <= 100 * 32768;
    if Abs(delta) < 328 {
      assert x < 32768;
    }
    if Abs(delta) < 29819 {
      assert x < 91 * 32768;
    } else {
      assert x >= 91 * 32768;
    }
  }

  /** For non-negative progress the truncating divisions are Euclidean. */
  lemma MultiplierForm(p: int)
    requires 0 <= p
    ensures Multiplier(p) == p / 10 - (p * p / 100) / 20
  {
    assert p * p >= 0;
  }

  lemma SquareBetween(p: int, lo: int, hi: int)
    requires 0 <= lo <= p <= hi
    ensures lo * lo <= p * p <= hi * hi
  {
    MulMonotone(lo, lo, p);
    MulMonotone(p, lo, p);
    MulMonotone(p, p, hi);
    MulMonotone(hi, p, hi);
  }

  /** For progress in [0, MAX_PROGRESS] the multiplier lies in [0, 5]; it is 0
      exactly for progress below 10, and 5 at MAX_PROGRESS. */
  lemma MultiplierRange(p: int)
    requires 0 <= p <= MAX_PROGRESS
    ensures 0 <= Multiplier(p) <= 5
    ensures Multiplier(p) == 0 <==> p < 10
    ensures p == MAX_PROGRESS ==> Multiplier(p) == 5
  {
    MultiplierForm(p);
    if p < 10 {
      SquareBetween(p, 0, 9);
    } else if p < 20 {
      SquareBetween(p, 10, 19);
    } else if p < 60 {
      SquareBetween(p, 20, 59);
    } else if p < 70 {
      SquareBetween(p, 60, 69);
    } else if p < 80 {
      SquareBetween(p, 70, 79);
    } else if p < 90 {
      SquareBetween(p, 80, 89);
    } else if p < 100 {
      SquareBetween(p, 90, 99);
    }
  }

  /** Within half a turn the step goes toward the sensed direction (its sign is
      that of `delta`), by at most a twentieth of `delta`: it never overshoots
      and the remaining difference never grows. A difference below 20 gives no
      step at all. */
  lemma StepBounded(delta: int)
    requires Abs(delta) <= HALF_TURN
    ensures delta >= 0 ==> Step(delta) >= 0
    ensures delta <= 0 ==> Step(delta) <= 0
    ensures Abs(Step(delta)) <= Abs(delta) / 20
    ensures Abs(delta - Step(delta)) <= Abs(delta)
    ensures Abs(delta) < 20 ==> Step(delta) == 0
  {
    ProgressRange(delta);
    var m := Multiplier(Progress(delta));
    MultiplierRange(Progress(delta));
    var d := delta * m;
    AbsMul(delta, m);
    assert Abs(d) == Abs(delta) * m;
    MulMonotone(Abs(delta), m, 5);
    assert Abs(d) <= Abs(delta) * 5;
    assert Abs(Step(delta)) == Abs(d) / 100;
    assert Abs(d) / 100 <= (Abs(delta) * 5) / 100;
    assert (Abs(delta) * 5) / 100 == Abs(delta) / 20;
    assert delta >= 0 ==> d >= 0;
    assert delta <= 0 ==> d <= 0;
  }

  /** From 20 up to 29818 every tick moves: the step is non-zero. */
  lemma StepMoves(delta: int)
    requires 20 <= Abs(delta) < 29819
    ensures Step(delta) != 0
    ensures Abs(delta - Step(delta)) < Abs(delta)
  {
    ProgressRange(delta);
    var p := Progress(delta);
    MultiplierRange(p);
    var m := Multiplier(p);
    var a := delta * m;
    AbsMul(delta, m);
    assert Abs(a) == Abs(delta) * m;
    if Abs(delta) < 328 {
      assert m == 5;
      assert Abs(a) >= 100;
    } else {
      MulMonotone(Abs(delta), 1, m);
      assert Abs(a) >= 328;
    }
    assert Abs(Step(delta)) == Abs(a) / 100 >= 1;
    StepBounded(delta);
  }

  /** From 29819 to 36044, on both sides of half a turn, the multiplier is 0:
      the damped direction never moves, however long the sensed direction
      stays put. */
  lemma StepStalls(delta: int)
    requires 29819 <= Abs(delta) <= 36044
    ensures Step(delta) == 0
  {
    var p := Progress(delta);
    assert -9 <= p <= 9;
    assert p * p <= 81 by {
      MulAbsBound(p, p, 9, 9);
    }
  }

  /** From 36045 up progress is -10 or less ... */
  lemma ProgressBeyond(delta: int)
    requires Abs(delta) >= 36045
    ensures Progress(delta) <= -10
  {
    var x := Abs(delta) * MAX_PROGRESS;
    assert x == Abs(delta) * 100 >= 110 * 32768;
    assert Progress(delta) == 100 - x / 32768;
  }

  /** ... and a progress of -10 or less makes the multiplier negative. */
  lemma MultiplierNegative(p: int)
    requires p <= -10
    ensures Multiplier(p) <= -1
  {
    assert TruncDiv(p, DAMPING_FACTOR_1) <= -1;
    assert p * p >= 0;
    assert TruncDiv(TruncDiv(p * p, MAX_PROGRESS), DAMPING_FACTOR_2) <= 0;
  }

  /** So from 36045 up the step goes away from the sensed direction and the
      difference grows. */
  lemma StepDiverges(delta: int)
    requires Abs(delta) >= 36045
    ensures Abs(delta - Step(delta)) > Abs(delta)
  {
    ProgressBeyond(delta);
    var m := Multiplier(Progress(delta));
    MultiplierNegative(Progress(delta));
    var a := delta * m;
    AbsMul(delta, m);
    MulMonotone(Abs(delta), 1, Abs(m));
    assert Abs(a) >= Abs(delta);
    assert delta > 0 ==> a < 0;
    assert delta < 0 ==> a > 0;
    assert Abs(Step(delta)) == Abs(a) / 100 >= 1;
  }

  /** From 36045 up (positive side) every truncating division of lines
      173-176 has a known sign, so the step takes a Euclidean form. */
  lemma StepBeyondForm(delta: int)
    requires delta >= 36045
    ensures Progress(delta) == 100 - (delta * 100) / 32768
    ensures Multiplier(Progress(delta))
         == -((-Progress(delta)) / 10) - ((Progress(delta) * Progress(delta)) / 100) / 20
    ensures Step(delta) == -((delta * -Multiplier(Progress(delta))) / 100)
  {
    ProgressBeyond(delta);
    var p := Progress(delta);
    MultiplierNegative(p);
    var m := Multiplier(p);
    assert p * p >= 0;
    assert delta * -m >= 0 by {
      MulMonotone(delta, 0, -m);
    }
    assert delta * m == -(delta * -m);
  }

  /** One concrete tick beyond 36045: given progress `p`, multiplier `m` and
      step `s` worked out in that form, `Step` agrees. */
  lemma StepBeyondAt(delta: int, p: int, m: int, s: int)
    requires delta >= 36045
    requires p == 100 - (delta * 100) / 32768
    requires m == -((-p) / 10) - ((p * p) / 100) / 20
    requires s == -((delta * -m) / 100)
    ensures Multiplier(Progress(delta)) == m && Step(delta) == s
  {
    StepBeyondForm(delta);
  }

  /** Turning the watch across magnetic north leaves a difference of almost a
      full turn, 64800 here. Six ticks later, about 200 ms at one tick every
      33 ms, the difference is 3293376. The ticks are proved two at a time. */
  lemma NorthCrossingTicks()
    ensures Remaining(64800, 6) == 3293376
  {
    StepBeyondAt(64800, -97, -13, -8424);
    StepBeyondAt(73224, -123, -19, -13912);
    NorthCrossingLaterTicks();
  }

  lemma NorthCrossingLaterTicks()
    ensures Remaining(87136, 4) == 3293376
  {
    StepBeyondAt(87136, -165, -29, -25269);
    StepBeyondAt(112405, -243, -53, -59574);
    NorthCrossingLastTicks();
  }

  lemma NorthCrossingLastTicks()
    ensures Remaining(171979, 2) == 3293376
  {
    StepBeyondAt(171979, -424, -131, -225292);
    StepBeyondAt(397271, -1112, -729, -2896105);
    assert Remaining(3293376, 0) == 3293376;
  }

  /** So at the seventh tick after the crossing the product `delta * (...)`
      of line 176 no longer fits the watch's 32-bit `int`. */
  lemma NorthCrossingOverflows(delta: int)
    requires delta == 3293376
    ensures !Fits(delta * Multiplier(Progress(delta)), W32)
  {
    StepBeyondAt(delta, -9950, -50496, -1663023144);
  }

  /** The difference left after `ticks` ticks while the sensed direction stays put. */
  function Remaining(delta: int, ticks: nat): int
    decreases ticks
  {
    if ticks == 0 then delta else Remaining(delta - Step(delta), ticks - 1)
  }

  /** Starting below 29819, the difference falls below 20 within
      `Abs(delta) - 19` ticks and stays there. */
  lemma {:induction false} Settles(delta: int, ticks: nat)
    requires Abs(delta) < 29819
    requires ticks + 19 >= Abs(delta)
    ensures Abs(Remaining(delta, ticks)) < 20
    decreases ticks
  {
    if ticks > 0 {
      var next := delta - Step(delta);
      if Abs(delta) < 20 {
        StepBounded(delta);
        assert next == delta;
      } else {
        StepMoves(delta);
        assert Abs(next) < Abs(delta);
      }
      Settles(next, ticks - 1);
      assert Remaining(delta, ticks) == Remaining(next, ticks - 1);
    }
  }

  /** Within half a turn the remaining difference never grows, tick after tick. */
  lemma {:induction false} NeverGrows(delta: int, ticks: nat)
    requires Abs(delta) <= HALF_TURN
    ensures Abs(Remaining(delta, ticks)) <= Abs(delta)
    decreases ticks
  {
    if ticks > 0 {
      var next := delta - Step(delta);
      StepBounded(delta);
      assert Abs(next) <= Abs(delta);
      NeverGrows(next, ticks - 1);
      assert Remaining(delta, ticks) == Remaining(next, ticks - 1);
    }
  }
}
