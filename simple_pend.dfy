/** The simulator object: its state, parameters and scratch buffers live in
    fields and arrays that its methods update in place. */
module Sim {
  import opened Dynamics

  /** A simple pendulum of length len in a gravitational field g, with state
      x = (theta, thetaDot), derivative buffer f, intermediate state xi and slope
      table sl. The sine function the equations of motion call is fixed when the
      object is built. */
  class SimplePend {
    var len: real
    var g: real
    const x: array<real>
    const f: array<real>
    const xi: array<real>
    const sl: array2<real>
    const sin: real -> real

    /** The object invariant: buffer sizes, no two vector buffers shared, and
        the parameter bounds the guarded setters keep. */
    ghost predicate Valid()
      reads this
    {
      x.Length == N && f.Length == N && xi.Length == N &&
      sl.Length0 == N && sl.Length1 == Stages &&
      x != f && x != xi && f != xi &&
      Phys().Valid()
    }

    ghost function Phys(): (p: Physics)
      reads this
    {
      Physics(len, g, sin)
    }

    /** The contents of the four buffers. */
    ghost function Contents(): (b: Buffers)
      requires Valid()
      reads this, x, f, xi, sl
      ensures b.WellSized()
    {
      Buffers(x[..], f[..], xi[..], Slopes())
    }

    /** The buffers hold exactly b. */
    ghost predicate Holds(b: Buffers)
      requires Valid()
      reads this, x, f, xi, sl
    {
      b.WellSized() && x[..] == b.x && f[..] == b.f && xi[..] == b.xi &&
      forall r, k :: 0 <= r < N && 0 <= k < Stages ==> sl[r, k] == b.sl[r][k]
    }

    /** Contents() is the one snapshot the buffers hold. */
    lemma HoldsOnlyContents(b: Buffers)
      requires Valid() && Holds(b)
      ensures Contents() == b
    {
      assert b.sl[0] == Slopes()[0] && b.sl[1] == Slopes()[1];
    }

    /** The rows of the slope table. */
    ghost function Slopes(): (rows: seq<seq<real>>)
      requires sl.Length0 == N && sl.Length1 == Stages
      reads sl
    {
      [[sl[0, 0], sl[0, 1], sl[0, 2], sl[0, 3]],
       [sl[1, 0], sl[1, 1], sl[1, 2], sl[1, 3]]]
    }

    /** Default length 1.1 and field 9.81; the pendulum starts at theta = 1.0
        at rest, and every scratch buffer starts at zero. */
    constructor (sin: real -> real)
      ensures Valid() && fresh(x) && fresh(f) && fresh(xi) && fresh(sl)
      ensures len == 1.1 && g == 9.81 && this.sin == sin
      ensures Contents() == Buffers([1.0, 0.0], [0.0, 0.0], [0.0, 0.0],
                                    [[0.0, 0.0, 0.0, 0.0], [0.0, 0.0, 0.0, 0.0]])
    {
      len := 1.1;
      g := 9.81;
      this.sin := sin;
      x := new real[N](_ => 0.0);
      f := new real[N](_ => 0.0);
      xi := new real[N](_ => 0.0);
      sl := new real[N, Stages]((_, _) => 0.0);
      new;
      x[0] := 1.0;
      x[1] := 0.0;
    }

    /** One integration step of length dt. The new contents of all four buffers
        are those Advance computes from the old ones; the parameters stay. */
    method Step(dt: real, scheme: Scheme := Euler)
      requires Valid()
      modifies x, f, xi, sl
      ensures Valid()
      ensures Contents() == Advance(Phys(), scheme, dt, old(Contents()))
    {
      RhsFunc(x, f);
      ghost var start := Contents();
      assert start == old(Contents()).(f := Rhs(Phys(), old(Contents()).x));
      for i := 0 to N
        invariant Contents() == Sweep(Phys(), scheme, dt, start, i)
      {
        if scheme == Euler {
          EulerUpdate(dt, i);
        } else if scheme == RK4 {
          Rk4Update(dt, i);
        }
      }
    }

    /** The Euler branch of step's loop body for state variable i. */
    method EulerUpdate(dt: real, i: nat)
      requires Valid() && i < N
      modifies x
      ensures Contents() == EulerComponent(dt, old(Contents()), i)
    {
      ghost var c := EulerComponent(dt, Contents(), i);
      assert c.x[i] == x[i] + f[i] * dt;
      x[i] := x[i] + f[i] * dt;
      assert x[0] == c.x[0] && x[1] == c.x[1];
      assert Holds(c);
      HoldsOnlyContents(c);
    }

    /** The RK4 branch of step's loop body for state variable i. */
    method Rk4Update(dt: real, i: nat)
      requires Valid() && i < N
      modifies x, f, xi, sl
      ensures Contents() == Rk4Component(Phys(), dt, old(Contents()), i)
    {
      ghost var c := Rk4Slope0(Contents(), i);
      sl[i, 0] := f[i];
      assert Holds(c);
      Rk4Stage1Update(dt, i, c);
      c := Rk4Stage1(Phys(), dt, c, i);
      Rk4Stage2Update(dt, i, c);
      c := Rk4Stage2(Phys(), dt, c, i);
      Rk4Stage3Update(dt, i, c);
      c := Rk4Stage3(Phys(), dt, c, i);
      Rk4CombineUpdate(dt, i, c);
      c := Rk4Combine(dt, c, i);
      HoldsOnlyContents(c);
    }

    /** RK4 stage 1 for state variable i: a half step along slope 0 into xi,
        the derivative there, and slope 1 from it. */
    method Rk4Stage1Update(dt: real, i: nat, ghost b: Buffers)
      requires Valid() && i < N && Holds(b)
      modifies f, xi, sl
      ensures Holds(Rk4Stage1(Phys(), dt, b, i))
    {
      ghost var e := WithXi(b, i, Probe(b, i, 0, 0.5 * dt));
      assert e.xi[i] == x[i] + sl[i, 0] * 0.5 * dt;
      xi[i] := x[i] + sl[i, 0] * 0.5 * dt;
      assert xi[0] == e.xi[0] && xi[1] == e.xi[1];
      assert xi[..] == e.xi;
      RhsFunc(xi, f);
      e := WithRhsAtXi(Phys(), e);
      sl[i, 1] := f[i] + 0.5 * dt;
      assert Rk4Stage1(Phys(), dt, b, i) == WithSlope(e, i, 1, e.f[i] + 0.5 * dt);
      assert Holds(WithSlope(e, i, 1, e.f[i] + 0.5 * dt));
    }

    /** RK4 stage 2 for state variable i: a half step along slope 1 into xi,
        the derivative there, and slope 2 from it. */
    method Rk4Stage2Update(dt: real, i: nat, ghost b: Buffers)
      requires Valid() && i < N && Holds(b)
      modifies f, xi, sl
      ensures Holds(Rk4Stage2(Phys(), dt, b, i))
    {
      ghost var e := WithXi(b, i, Probe(b, i, 1, 0.5 * dt));
      assert e.xi[i] == x[i] + sl[i, 1] * 0.5 * dt;
      xi[i] := x[i] + sl[i, 1] * 0.5 * dt;
      assert xi[0] == e.xi[0] && xi[1] == e.xi[1];
      assert xi[..] == e.xi;
      RhsFunc(xi, f);
      e := WithRhsAtXi(Phys(), e);
      sl[i, 2] := f[i] + 0.5 * dt;
      assert Rk4Stage2(Phys(), dt, b, i) == WithSlope(e, i, 2, e.f[i] + 0.5 * dt);
      assert Holds(WithSlope(e, i, 2, e.f[i] + 0.5 * dt));
    }

    /** RK4 stage 3 for state variable i: a full step along slope 2 into xi,
        the derivative there, which is slope 3. */
    method Rk4Stage3Update(dt: real, i: nat, ghost b: Buffers)
      requires Valid() && i < N && Holds(b)
      modifies f, xi, sl
      ensures Holds(Rk4Stage3(Phys(), dt, b, i))
    {
      ghost var e := WithXi(b, i, Probe(b, i, 2, dt));
      assert e.xi[i] == x[i] + sl[i, 2] * dt;
      xi[i] := x[i] + sl[i, 2] * dt;
      assert xi[0] == e.xi[0] && xi[1] == e.xi[1];
      assert xi[..] == e.xi;
      RhsFunc(xi, f);
      e := WithRhsAtXi(Phys(), e);
      sl[i, 3] := f[i];
      assert Rk4Stage3(Phys(), dt, b, i) == WithSlope(e, i, 3, e.f[i]);
      assert Holds(WithSlope(e, i, 3, e.f[i]));
    }

    /** The RK4 update of state variable i from the weighted mean of its four
        slopes. */
    method Rk4CombineUpdate(dt: real, i: nat, ghost b: Buffers)
      requires Valid() && i < N && Holds(b)
      modifies x
      ensures Holds(Rk4Combine(dt, b, i))
    {
      ghost var c := Rk4Combine(dt, b, i);
      assert c.x[i] == x[i] + (sl[i, 0] + 2.0 * sl[i, 1] + 2.0 * sl[i, 2] + sl[i, 3]) * dt / 6.0;
      x[i] := x[i] + (sl[i, 0] + 2.0 * sl[i, 1] + 2.0 * sl[i, 2] + sl[i, 3]) * dt / 6.0;
      assert x[0] == c.x[0] && x[1] == c.x[1];
    }

    /** Writes the derivative at state st into ff. When st and ff are the same
        array, the angle read for ff[1] is the thetaDot just written to ff[0]. */
    method RhsFunc(st: array<real>, ff: array<real>)
      requires Valid() && st.Length >= N && ff.Length >= N
      modifies ff
      ensures ff[0] == old(st[1])
      ensures ff[1] == Phys().Accel(if st == ff then old(st[1]) else old(st[0]))
      ensures forall k :: N <= k < ff.Length ==> ff[k] == old(ff[k])
      ensures st != ff && st.Length == N && ff.Length == N ==> ff[..] == Rhs(Phys(), old(st[..]))
    {
      ff[0] := st[1];
      ff[1] := -g / len * sin(st[0]);
    }

    function L(): (r: real)
      requires Valid()
      reads this
      ensures r > 0.0
    {
      len
    }

    /** A length that is not positive is ignored. */
    method SetL(value: real)
      requires Valid()
      modifies this`len
      ensures Valid()
      ensures len == if value > 0.0 then value else old(len)
    {
      if value > 0.0 {
        len := value;
      }
    }

    function G(): (r: real)
      requires Valid()
      reads this
      ensures r >= 0.0
    {
      g
    }

    /** A negative field strength is ignored. */
    method SetG(value: real)
      requires Valid()
      modifies this`g
      ensures Valid()
      ensures g == if value >= 0.0 then value else old(g)
    {
      if value >= 0.0 {
        g := value;
      }
    }

    function Theta(): (theta: real)
      requires Valid()
      reads this, x
    {
      x[0]
    }

    method SetTheta(value: real)
      requires Valid()
      modifies x
      ensures Valid()
      ensures Theta() == value
      ensures Contents() == old(Contents()).(x := [value, old(x[1])])
    {
      x[0] := value;
    }

    function ThetaDot(): (thetaDot: real)
      requires Valid()
      reads this, x
    {
      x[1]
    }

    method SetThetaDot(value: real)
      requires Valid()
      modifies x
      ensures Valid()
      ensures ThetaDot() == value
      ensures Contents() == old(Contents()).(x := [old(x[0]), value])
    {
      x[1] := value;
    }
  }

  /** A fresh pendulum stepped once by Euler with dt = 0.01: the angle keeps its
      value, since the pendulum starts at rest, and thetaDot picks up one
      increment of the acceleration at theta = 1.0. */
  method EulerFromRest(sin: real -> real) returns (theta: real, thetaDot: real)
    ensures theta == 1.0
    ensures thetaDot == -9.81 / 1.1 * sin(1.0) * 0.01
  {
    var pend := new SimplePend(sin);
    ghost var b := pend.Contents();
    pend.Step(0.01);
    EulerStep(pend.Phys(), 0.01, b);
    theta := pend.Theta();
    thetaDot := pend.ThetaDot();
  }

  /** A fresh pendulum stepped once by RK4 with dt = 0.01. Although it starts at
      rest, the angle moves by dt*dt/3: the flat 0.5*dt added to the stage-1 and
      stage-2 slopes. thetaDot is driven by the acceleration at xi[0] = 1.00005,
      not at the starting angle. */
  method Rk4FromRest(sin: real -> real) returns (theta: real, thetaDot: real)
    ensures theta == 1.0 + 0.01 * 0.01 / 3.0
    ensures thetaDot == 0.01 * (-9.81 / 1.1 * sin(1.00005)) + 0.0002 / 6.0
  {
    var pend := new SimplePend(sin);
    ghost var b := pend.Contents();
    pend.Step(0.01, RK4);
    Rk4StepTheta(pend.Phys(), 0.01, b);
    Rk4StepThetaDot(pend.Phys(), 0.01, b);
    theta := pend.Theta();
    thetaDot := pend.ThetaDot();
  }
}
