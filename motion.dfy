/** The inertial motion engine: one timer tick on one axis, and what
    repeated force-free ticks do. */
module Motion {
  import opened Numeric

  const Mass: real := 10.0
  const DragCoeff: real := 0.05
  const SpringCoeff: real := 0.8
  /** The timer interval in milliseconds. */
  const TimerInterval: int := 40
  const TimeStep: real := 1000.0 / TimerInterval as real
  /** The share of the overshoot past the upper bound that survives a tick. */
  const Overshoot: real := 0.9

  /** The velocity after a tick: the applied force less the drag, divided by
      the mass, integrated over one time step. Drag removes one eighth of the
      velocity per tick. */
  function NextVelocity(v: real, force: real): (r: real)
    ensures r == 0.875 * v + 2.5 * force
  {
    var accel := (force - DragCoeff * v) / Mass;
    v + accel * TimeStep
  }

  /** Edge resistance applied to a candidate coordinate `c`: below `lo` it is
      scaled by the spring coefficient (toward zero, not toward `lo`); the
      result, if it lies above `hi`, keeps only 90% of its overshoot. */
  function ResistEdges(c: real, lo: real, hi: real): (r: real)
    ensures lo <= c <= hi ==> r == c
    ensures c < lo && c * SpringCoeff <= hi ==> r == c * SpringCoeff
    ensures lo <= c && hi < c ==> hi < r < c
    ensures c < lo && hi < c * SpringCoeff ==> hi < r < c * SpringCoeff
    ensures lo <= c && hi < c ==> r - hi == Overshoot * (c - hi)
    ensures c < lo && hi < c * SpringCoeff ==> r - hi == Overshoot * (c * SpringCoeff - hi)
  {
    var sprung := if c < lo then c * SpringCoeff else c;
    if sprung > hi then hi + (sprung - hi) * Overshoot else sprung
  }

  /** The new integer coordinate after a tick: the old coordinate advanced by
      the velocity from before the tick, resisted at the edges, truncated. */
  function NextCoordinate(pos: int, v: real, lo: real, hi: real): (p: int)
    ensures v == 0.0 && lo <= pos as real <= hi ==> p == pos
  {
    Trunc(ResistEdges(pos as real + v, lo, hi))
  }

  /** One axis of the motion state: an integer offset and a real velocity. */
  datatype Axis = Axis(pos: int, vel: real)

  function Step(a: Axis, force: real, lo: real, hi: real): Axis {
    Axis(NextCoordinate(a.pos, a.vel, lo, hi), NextVelocity(a.vel, force))
  }

  /** `n` ticks without applied force against a fixed window. */
  function Coast(a: Axis, lo: real, hi: real, n: nat): Axis
    decreases n
  {
    if n == 0 then a else Coast(Step(a, 0.0, lo, hi), lo, hi, n - 1)
  }

  function Pow(b: real, n: nat): real {
    if n == 0 then 1.0 else b * Pow(b, n - 1)
  }

  /** The velocity after `n` ticks without applied force. */
  function Decay(v: real, n: nat): (r: real)
    ensures 0.0 <= v ==> 0.0 <= r <= v
    ensures v <= 0.0 ==> v <= r <= 0.0
    decreases n
  {
    if n == 0 then v else Decay(NextVelocity(v, 0.0), n - 1)
  }

  /** Without applied force the velocity decays geometrically, by a factor
      7/8 per tick. */
  lemma {:induction false} DecayGeometric(v: real, n: nat)
    ensures Decay(v, n) == v * Pow(0.875, n)
    decreases n
  {
    if n > 0 {
      var p := Pow(0.875, n - 1);
      DecayGeometric(0.875 * v, n - 1);
      Regroup(0.875, v, p);
    }
  }

  lemma Regroup(k: real, x: real, y: real)
    ensures (k * x) * y == x * (k * y)
  {
  }

  /** Force-free ticks change the velocity as `Decay` says, whatever the
      position does. */
  lemma {:induction false} CoastVelocity(a: Axis, lo: real, hi: real, n: nat)
    ensures Coast(a, lo, hi, n).vel == Decay(a.vel, n)
    decreases n
  {
    if n > 0 {
      CoastVelocity(Step(a, 0.0, lo, hi), lo, hi, n - 1);
    }
  }

  /** A coordinate at rest inside the window stays there for any number of
      force-free ticks. */
  lemma {:induction false} CoastAtRest(a: Axis, lo: real, hi: real, n: nat)
    requires a.vel == 0.0 && lo <= a.pos as real <= hi
    ensures Coast(a, lo, hi, n) == a
    decreases n
  {
    if n > 0 {
      assert Step(a, 0.0, lo, hi) == a;
      CoastAtRest(a, lo, hi, n - 1);
    }
  }

  /** A coordinate at rest past the upper bound (with the window around the
      origin) moves back by at least one unit per tick and comes to rest
      exactly at the integer part of the upper bound. */
  lemma {:induction false} ReboundFromMax(a: Axis, lo: real, hi: real, n: nat)
    requires lo <= 0.0 <= hi
    requires a.vel == 0.0 && hi.Floor <= a.pos
    ensures var e := Coast(a, lo, hi, n);
      e.vel == 0.0 && hi.Floor <= e.pos && (e.pos == hi.Floor || e.pos <= a.pos - n)
    ensures n >= a.pos - hi.Floor ==> Coast(a, lo, hi, n).pos == hi.Floor
    decreases n
  {
    if n > 0 {
      var b := Step(a, 0.0, lo, hi);
      if a.pos as real <= hi {
        assert lo <= a.pos as real;
        assert b == a;
        assert a.pos == hi.Floor;
      } else {
        StepBackFromMax(a, lo, hi);
      }
      ReboundFromMax(b, lo, hi, n - 1);
    }
  }

  /** One force-free tick from rest above the upper bound moves the
      coordinate back by at least one unit, but not below floor(hi). */
  lemma StepBackFromMax(a: Axis, lo: real, hi: real)
    requires lo <= 0.0 <= hi
    requires a.vel == 0.0 && hi < a.pos as real
    ensures var b := Step(a, 0.0, lo, hi);
      b.vel == 0.0 && hi.Floor <= b.pos < a.pos
  {
    var r := ResistEdges(a.pos as real, lo, hi);
    assert hi < r < a.pos as real;
  }

  /** A coordinate at rest below the lower bound (with the window around the
      origin) is pulled toward zero by at least one unit per tick until it is
      inside the window, where it stops; it never passes the origin. */
  lemma {:induction false} ReboundFromMin(a: Axis, lo: real, hi: real, n: nat)
    requires lo <= 0.0 <= hi
    requires a.vel == 0.0 && a.pos <= 0
    ensures var e := Coast(a, lo, hi, n);
      e.vel == 0.0 && e.pos <= 0 && (lo <= e.pos as real || a.pos + n <= e.pos)
    ensures n as real >= lo - a.pos as real ==> lo <= Coast(a, lo, hi, n).pos as real
    decreases n
  {
    if n > 0 {
      var b := Step(a, 0.0, lo, hi);
      if lo <= a.pos as real {
        assert b == a;
      } else {
        var r := ResistEdges(a.pos as real, lo, hi);
        assert r == a.pos as real * SpringCoeff;
        assert a.pos < b.pos <= 0;
      }
      ReboundFromMin(b, lo, hi, n - 1);
    }
  }
}
