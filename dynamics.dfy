/** The simple pendulum's equations of motion and one integration step, stated on
    values: a snapshot of the simulator's four buffers goes in, the snapshot after
    the step comes out. The class SimplePend (module Sim) is proved against these
    definitions; the lemmas here say what a step does in closed form. */
module Dynamics {

  /** Number of state variables: theta and thetaDot. */
  const N: nat := 2

  /** Number of stored slopes per state variable in an RK4 step. */
  const Stages: nat := 4

  /** The integration scheme named by step's string argument; every string other
      than "EULER" and "RK4" selects Other. */
  datatype Scheme = Euler | RK4 | Other

  /** Rod length, gravitational field strength, and the sine function the
      simulator calls. */
  datatype Physics = Physics(len: real, g: real, sin: real -> real) {

    /** What the guarded setters of SimplePend maintain. */
    predicate Valid() {
      len > 0.0 && g >= 0.0
    }

    /** Angular acceleration at angle theta; the divisor len is positive. */
    function Accel(theta: real): (a: real)
      requires Valid()
    {
      -g / len * sin(theta)
    }
  }

  /** The contents of the simulator's arrays: the state x, the derivative buffer f,
      the intermediate state xi and the slope table sl (row i holds the four slopes
      of state variable i). */
  datatype Buffers = Buffers(x: seq<real>, f: seq<real>, xi: seq<real>, sl: seq<seq<real>>) {

    predicate WellSized() {
      |x| == N && |f| == N && |xi| == N && |sl| == N &&
      forall i :: 0 <= i < N ==> |sl[i]| == Stages
    }
  }

  /** The derivative of (theta, thetaDot) at state st. */
  function Rhs(p: Physics, st: seq<real>): (d: seq<real>)
    requires p.Valid() && |st| == N
    ensures |d| == N
  {
    [st[1], p.Accel(st[0])]
  }

  /** The buffers after x[i] := v. */
  function WithX(b: Buffers, i: nat, v: real): (r: Buffers)
    requires b.WellSized() && i < N
    ensures r.WellSized()
  {
    b.(x := b.x[i := v])
  }

  /** The buffers after xi[i] := v. */
  function WithXi(b: Buffers, i: nat, v: real): (r: Buffers)
    requires b.WellSized() && i < N
    ensures r.WellSized()
  {
    b.(xi := b.xi[i := v])
  }

  /** The buffers after sl[i, k] := v. */
  function WithSlope(b: Buffers, i: nat, k: nat, v: real): (r: Buffers)
    requires b.WellSized() && i < N && k < Stages
    ensures r.WellSized()
  {
    b.(sl := b.sl[i := b.sl[i][k := v]])
  }

  /** The buffers after rhsFunc(xi, f). */
  function WithRhsAtXi(p: Physics, b: Buffers): (r: Buffers)
    requires p.Valid() && b.WellSized()
    ensures r.WellSized()
  {
    b.(f := Rhs(p, b.xi))
  }

  /** The Euler branch of the loop body for state variable i. */
  function EulerComponent(dt: real, b: Buffers, i: nat): (r: Buffers)
    requires b.WellSized() && i < N
    ensures r.WellSized()
  {
    WithX(b, i, b.x[i] + b.f[i] * dt)
  }

  /** x[i] moved a step h along slope k: the value RK4 writes into xi[i]. */
  function Probe(b: Buffers, i: nat, k: nat, h: real): (v: real)
    requires b.WellSized() && i < N && k < Stages
  {
    b.x[i] + b.sl[i][k] * h
  }

  /** RK4, first write for state variable i: sl[i, 0] := f[i]. */
  function Rk4Slope0(b: Buffers, i: nat): (r: Buffers)
    requires b.WellSized() && i < N
    ensures r.WellSized()
  {
    WithSlope(b, i, 0, b.f[i])
  }

  /** RK4, stage 1 for state variable i: xi[i] := x[i] + sl[i, 0] * 0.5 * dt,
      rhsFunc(xi, f), sl[i, 1] := f[i] + 0.5 * dt. */
  function Rk4Stage1(p: Physics, dt: real, b: Buffers, i: nat): (r: Buffers)
    requires p.Valid() && b.WellSized() && i < N
    ensures r.WellSized()
  {
    var e := WithRhsAtXi(p, WithXi(b, i, Probe(b, i, 0, 0.5 * dt)));
    WithSlope(e, i, 1, e.f[i] + 0.5 * dt)
  }

  /** RK4, stage 2 for state variable i: xi[i] := x[i] + sl[i, 1] * 0.5 * dt,
      rhsFunc(xi, f), sl[i, 2] := f[i] + 0.5 * dt. */
  function Rk4Stage2(p: Physics, dt: real, b: Buffers, i: nat): (r: Buffers)
    requires p.Valid() && b.WellSized() && i < N
    ensures r.WellSized()
  {
    var e := WithRhsAtXi(p, WithXi(b, i, Probe(b, i, 1, 0.5 * dt)));
    WithSlope(e, i, 2, e.f[i] + 0.5 * dt)
  }

  /** RK4, stage 3 for state variable i: xi[i] := x[i] + sl[i, 2] * dt,
      rhsFunc(xi, f), sl[i, 3] := f[i]. */
  function Rk4Stage3(p: Physics, dt: real, b: Buffers, i: nat): (r: Buffers)
    requires p.Valid() && b.WellSized() && i < N
    ensures r.WellSized()
  {
    var e := WithRhsAtXi(p, WithXi(b, i, Probe(b, i, 2, dt)));
    WithSlope(e, i, 3, e.f[i])
  }

  /** The RK4 increment: dt times the weighted mean of the four slopes s. */
  function Rk4Increment(s: seq<real>, dt: real): (d: real)
    requires |s| == Stages
  {
    (s[0] + 2.0 * s[1] + 2.0 * s[2] + s[3]) * dt / 6.0
  }

  /** RK4, last write for state variable i: the weighted sum of the four slopes. */
  function Rk4Combine(dt: real, b: Buffers, i: nat): (r: Buffers)
    requires b.WellSized() && i < N
    ensures r.WellSized()
  {
    WithX(b, i, b.x[i] + Rk4Increment(b.sl[i], dt))
  }

  /** The RK4 branch of the loop body for state variable i: three derivative
      evaluations at the shared intermediate vector xi, of which only slot i is
      rewritten, and the weighted update of x[i]. */
  function Rk4Component(p: Physics, dt: real, b: Buffers, i: nat): (r: Buffers)
    requires p.Valid() && b.WellSized() && i < N
    ensures r.WellSized()
  {
    Rk4Combine(dt, Rk4Stage3(p, dt, Rk4Stage2(p, dt, Rk4Stage1(p, dt, Rk4Slope0(b, i), i), i), i), i)
  }

  /** One pass of the loop body for index i. */
  function LoopBody(p: Physics, m: Scheme, dt: real, b: Buffers, i: nat): (r: Buffers)
    requires p.Valid() && b.WellSized() && i < N
    ensures r.WellSized()
  {
    match m
    case Euler => EulerComponent(dt, b, i)
    case RK4 => Rk4Component(p, dt, b, i)
    case Other => b
  }

  /** The buffers after the loop bodies for indices 0 .. k-1, in that order. */
  function Sweep(p: Physics, m: Scheme, dt: real, b: Buffers, k: nat): (r: Buffers)
    requires p.Valid() && b.WellSized() && k <= N
    ensures r.WellSized()
  {
    if k == 0 then b else LoopBody(p, m, dt, Sweep(p, m, dt, b, k - 1), k - 1)
  }

  /** One call of step: the derivative at the current state is written into f,
      then the loop runs over both state variables. */
  function Advance(p: Physics, m: Scheme, dt: real, b: Buffers): (r: Buffers)
    requires p.Valid() && b.WellSized()
  {
    Sweep(p, m, dt, b.(f := Rhs(p, b.x)), N)
  }

  /** Euler: both variables advance with the derivative taken once at the
      pre-step state; xi and sl are not touched. */
  lemma EulerStep(p: Physics, dt: real, b: Buffers)
    requires p.Valid() && b.WellSized()
    ensures Advance(p, Euler, dt, b) ==
            b.(x := [b.x[0] + b.x[1] * dt, b.x[1] + p.Accel(b.x[0]) * dt], f := Rhs(p, b.x))
  {
    var b0 := b.(f := Rhs(p, b.x));
    var b1 := EulerComponent(dt, b0, 0);
    assert Sweep(p, Euler, dt, b0, 1) == b1;
    var r := EulerComponent(dt, b1, 1);
    assert Advance(p, Euler, dt, b) == r;
    assert b0.f[0] == b.x[1] && b0.f[1] == p.Accel(b.x[0]);
    assert b1.x[0] == b.x[0] + b.x[1] * dt && b1.x[1] == b.x[1];
    assert r.x[0] == b.x[0] + b.x[1] * dt && r.x[1] == b.x[1] + p.Accel(b.x[0]) * dt;
    assert |r.x| == 2;
    assert r.x == [b.x[0] + b.x[1] * dt, b.x[1] + p.Accel(b.x[0]) * dt];
  }

  /** An unrecognised scheme changes nothing but f, which holds the derivative at
      the unchanged state. */
  lemma OtherStep(p: Physics, dt: real, b: Buffers)
    requires p.Valid() && b.WellSized()
    ensures Advance(p, Other, dt, b) == b.(f := Rhs(p, b.x))
  {
    var b0 := b.(f := Rhs(p, b.x));
    assert Sweep(p, Other, dt, b0, 1) == b0;
  }

  /** The RK4 body for theta, entered with f holding the derivative at the
      pre-step state: every evaluation it makes reads f[0] = xi[1], and xi[1] is
      whatever the previous call left there. */
  lemma Rk4ThetaComponent(p: Physics, dt: real, b: Buffers)
    requires p.Valid() && b.WellSized() && b.f[0] == b.x[1]
    ensures var r := Rk4Component(p, dt, b, 0);
            var prev := b.xi[1];
            var k := prev + 0.5 * dt;
            var s := r.sl[0];
            r.sl == b.sl[0 := [b.x[1], k, k, prev]] &&
            r.xi[0] == b.x[0] + s[2] * dt && r.xi[1] == prev &&
            r.x[0] == b.x[0] + Rk4Increment(s, dt) &&
            r.x[1] == b.x[1] &&
            r.f == Rhs(p, r.xi)
  {
    var prev := b.xi[1];
    var c1 := Rk4Slope0(b, 0);
    var c2 := Rk4Stage1(p, dt, c1, 0);
    var c3 := Rk4Stage2(p, dt, c2, 0);
    var c4 := Rk4Stage3(p, dt, c3, 0);
    var r := Rk4Combine(dt, c4, 0);
    assert c2.xi[1] == prev && c2.f[0] == prev;
    assert c3.xi[1] == prev && c3.f[0] == prev;
    assert c4.xi[1] == prev && c4.f[0] == prev;
    assert r.sl[0] == [b.x[1], prev + 0.5 * dt, prev + 0.5 * dt, prev];
    assert r.sl == b.sl[0 := r.sl[0]];
  }

  /** The RK4 body for thetaDot, entered with f as the theta body left it: every
      evaluation reads the acceleration at xi[0], which the theta body set. */
  lemma Rk4ThetaDotComponent(p: Physics, dt: real, b: Buffers)
    requires p.Valid() && b.WellSized() && b.f == Rhs(p, b.xi)
    ensures var r := Rk4Component(p, dt, b, 1);
            var a := p.Accel(b.xi[0]);
            var k := a + 0.5 * dt;
            var s := r.sl[1];
            r.sl == b.sl[1 := [a, k, k, a]] &&
            r.xi[0] == b.xi[0] && r.xi[1] == b.x[1] + s[2] * dt &&
            r.x[0] == b.x[0] &&
            r.x[1] == b.x[1] + Rk4Increment(s, dt) &&
            r.f == Rhs(p, r.xi)
  {
    var a := p.Accel(b.xi[0]);
    var c1 := Rk4Slope0(b, 1);
    var c2 := Rk4Stage1(p, dt, c1, 1);
    var c3 := Rk4Stage2(p, dt, c2, 1);
    var c4 := Rk4Stage3(p, dt, c3, 1);
    var r := Rk4Combine(dt, c4, 1);
    assert c2.xi[0] == b.xi[0] && c2.f[1] == a;
    assert c3.xi[0] == b.xi[0] && c3.f[1] == a;
    assert c4.xi[0] == b.xi[0] && c4.f[1] == a;
    assert r.sl[1] == [a, a + 0.5 * dt, a + 0.5 * dt, a];
    assert r.sl == b.sl[1 := r.sl[1]];
  }

  /** An RK4 step is the RK4 body for theta, then the one for thetaDot. */
  lemma Rk4Sweep(p: Physics, dt: real, b: Buffers)
    requires p.Valid() && b.WellSized()
    ensures Advance(p, RK4, dt, b) == Rk4Component(p, dt, Rk4Component(p, dt, b.(f := Rhs(p, b.x)), 0), 1)
  {
    var b0 := b.(f := Rhs(p, b.x));
    assert Sweep(p, RK4, dt, b0, 1) == Rk4Component(p, dt, b0, 0);
  }

  /** RK4 for theta as the loop computes it: row 0 of the slopes never sees
      theta, since every evaluation reads the xi[1] the previous step left. */
  lemma Rk4StepTheta(p: Physics, dt: real, b: Buffers)
    requires p.Valid() && b.WellSized()
    ensures var r := Advance(p, RK4, dt, b);
            var prev := b.xi[1];
            r.sl[0] == [b.x[1], prev + 0.5 * dt, prev + 0.5 * dt, prev] &&
            r.xi[0] == b.x[0] + r.sl[0][2] * dt &&
            r.x[0] == b.x[0] + Rk4Increment(r.sl[0], dt)
  {
    var b0 := b.(f := Rhs(p, b.x));
    var b1 := Rk4Component(p, dt, b0, 0);
    Rk4Sweep(p, dt, b);
    Rk4ThetaComponent(p, dt, b0);
    Rk4ThetaDotComponent(p, dt, b1);
    var r := Rk4Component(p, dt, b1, 1);
    assert r.sl[0] == b1.sl[0];
  }

  /** RK4 for thetaDot as the loop computes it: row 1 of the slopes starts from
      the acceleration at the final xi[0], not at the pre-step angle. */
  lemma Rk4StepThetaDot(p: Physics, dt: real, b: Buffers)
    requires p.Valid() && b.WellSized()
    ensures var r := Advance(p, RK4, dt, b);
            var a := p.Accel(r.xi[0]);
            r.sl[1] == [a, a + 0.5 * dt, a + 0.5 * dt, a] &&
            r.xi[1] == b.x[1] + r.sl[1][2] * dt &&
            r.x[1] == b.x[1] + Rk4Increment(r.sl[1], dt) &&
            r.f == Rhs(p, r.xi)
  {
    var b0 := b.(f := Rhs(p, b.x));
    var b1 := Rk4Component(p, dt, b0, 0);
    Rk4Sweep(p, dt, b);
    Rk4ThetaComponent(p, dt, b0);
    Rk4ThetaDotComponent(p, dt, b1);
  }

  /** A step of length zero leaves the state where it was, whatever the scheme. */
  lemma ZeroStepKeepsState(p: Physics, m: Scheme, b: Buffers)
    requires p.Valid() && b.WellSized()
    ensures Advance(p, m, 0.0, b).x == b.x
  {
    var r := Advance(p, m, 0.0, b);
    match m {
      case Euler => EulerStep(p, 0.0, b);
      case RK4 =>
        Rk4StepTheta(p, 0.0, b);
        Rk4StepThetaDot(p, 0.0, b);
        assert Rk4Increment(r.sl[0], 0.0) == 0.0 && Rk4Increment(r.sl[1], 0.0) == 0.0;
      case Other => OtherStep(p, 0.0, b);
    }
    assert r.x[0] == b.x[0] && r.x[1] == b.x[1];
  }

  /** The Euler result depends on the state alone, never on what the scratch
      buffers held before the call. */
  lemma EulerIgnoresScratch(p: Physics, dt: real, b1: Buffers, b2: Buffers)
    requires p.Valid() && b1.WellSized() && b2.WellSized() && b1.x == b2.x
    ensures Advance(p, Euler, dt, b1).x == Advance(p, Euler, dt, b2).x
    ensures Advance(p, Euler, dt, b1).f == Advance(p, Euler, dt, b2).f
  {
    EulerStep(p, dt, b1);
    EulerStep(p, dt, b2);
    var r1, r2 := Advance(p, Euler, dt, b1), Advance(p, Euler, dt, b2);
    assert r1.x[0] == r2.x[0] && r1.x[1] == r2.x[1];
  }

  /** The new theta of an RK4 step in closed form: the slopes it averages are
      thetaDot once and the leftover xi[1] five times, plus 2*dt from the flat
      terms of stages 1 and 2. */
  lemma Rk4ThetaClosedForm(p: Physics, dt: real, b: Buffers)
    requires p.Valid() && b.WellSized()
    ensures Advance(p, RK4, dt, b).x[0] == b.x[0] + (b.x[1] + 5.0 * b.xi[1] + 2.0 * dt) * dt / 6.0
  {
    Rk4StepTheta(p, dt, b);
    var s := Advance(p, RK4, dt, b).sl[0];
    assert s[0] + 2.0 * s[1] + 2.0 * s[2] + s[3] == b.x[1] + 5.0 * b.xi[1] + 2.0 * dt;
  }

  /** The angle at which the thetaDot stages evaluate the acceleration is the
      last probe xi[0] of the theta stages, not the new theta: the two agree
      exactly when dt is zero or the leftover xi[1] trails thetaDot by dt. */
  lemma Rk4ThetaDotSeesProbe(p: Physics, dt: real, b: Buffers)
    requires p.Valid() && b.WellSized()
    ensures var r := Advance(p, RK4, dt, b);
            r.xi[0] == r.x[0] <==> dt == 0.0 || b.xi[1] + dt == b.x[1]
  {
    Rk4StepTheta(p, dt, b);
    Rk4ThetaClosedForm(p, dt, b);
    var r := Advance(p, RK4, dt, b);
    var u, x1 := b.xi[1], b.x[1];
    assert r.xi[0] == b.x[0] + (u + 0.5 * dt) * dt;
    assert r.x[0] - r.xi[0] == (x1 - u - dt) * dt / 6.0;
    if dt != 0.0 && u + dt != x1 {
      assert (x1 - u - dt) * dt != 0.0;
    }
  }

  /** The new theta of an RK4 step depends on the xi[1] left behind by the
      previous RK4 call: from the same state, two leftovers give the same theta
      exactly when they are equal or the step has length zero. */
  lemma Rk4ThetaReadsStaleXi(p: Physics, dt: real, b1: Buffers, b2: Buffers)
    requires p.Valid() && b1.WellSized() && b2.WellSized() && b1.x == b2.x
    ensures Advance(p, RK4, dt, b1).x[0] == Advance(p, RK4, dt, b2).x[0]
            <==> dt == 0.0 || b1.xi[1] == b2.xi[1]
  {
    Rk4ThetaClosedForm(p, dt, b1);
    Rk4ThetaClosedForm(p, dt, b2);
    var u, v := b1.xi[1], b2.xi[1];
    var x0, x1 := b1.x[0], b1.x[1];
    assert (x0 + (x1 + 5.0 * u + 2.0 * dt) * dt / 6.0) - (x0 + (x1 + 5.0 * v + 2.0 * dt) * dt / 6.0)
           == 5.0 * (u - v) * dt / 6.0;
    if dt != 0.0 && u != v {
      assert (u - v) * dt != 0.0;
    }
  }
}
