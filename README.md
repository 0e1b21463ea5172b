# SimplePend in Dafny

A model of `Sim.SimplePend`, a simple-pendulum simulator. The C# class keeps
the state `x = (theta, thetaDot)`, the rod length `len`, the field strength `g`
and three scratch buffers (`f` for the derivative, `xi` for the intermediate
state, `sl` for the 2×4 table of slopes) in fields. Its `step(dt, method)`
advances the state in place by one Euler step or by its own four-stage "RK4"
loop.

The project has two modules.

- `Dynamics` (dynamics.dfy) works on values. `Buffers` is a snapshot of the four
  arrays. Each write of the loop body is a function on snapshots (`WithX`,
  `WithXi`, `WithSlope`, `WithRhsAtXi`). The RK4 body for one state variable is
  the composition `Rk4Slope0`, `Rk4Stage1`, `Rk4Stage2`, `Rk4Stage3`,
  `Rk4Combine`. `Sweep` is the `for` loop as a recursion over its index, and
  `Advance` is a whole call of `step`. The lemmas give a step in closed form.
- `Sim` (simple_pend.dfy) holds the class `SimplePend`. Its arrays are fields,
  and its methods update them in place with the source's statements in the
  source's order. `Step` carries the loop invariant
  `Contents() == Sweep(..., i)` and is proved to leave the arrays holding
  `Advance(Phys(), scheme, dt, old(Contents()))`.

What the lemmas establish about the branch as written:

- Euler uses only the derivative taken once at the pre-step state.
- The RK4 branch is not classical RK4. Every derivative evaluation for theta
  reads `xi[1]`, the value the previous RK4 call left behind. The thetaDot
  stages evaluate the acceleration at `xi[0]`, which is the last theta probe.
  Stages 1 and 2 add a flat `0.5*dt` to the slope. So the new theta depends on
  the leftover `xi[1]`, and a pendulum released at rest moves its angle by
  `dt*dt/3` in the first RK4 step.
- A step of length zero leaves the state unchanged under every scheme.

Two facts about the code are easy to misread:

- An unrecognised scheme leaves x unchanged, but `rhsFunc(x, f)` at line 37
  still overwrites f (`Dynamics.OtherStep`).
- The thetaDot stages read xi[0] = x[0] + sl[0,2]*dt, the last theta probe, not
  the new theta. The two are equal only when dt = 0 or xi[1] + dt = thetaDot
  (`Dynamics.Rk4ThetaDotSeesProbe`).

## Model

| member | source | states |
|---|---|---|
| Sim.SimplePend.constructor | SimplePend.cs:10-30 | len is 1.1, g is 9.81, x is [1.0, 0.0], f and xi are two zeros, sl is a 2×4 table of zeros, the four arrays are fresh, x, f and xi are distinct, and the object invariant holds |
| Sim.SimplePend.Step | SimplePend.cs:35-63 | rhsFunc(x, f) and then the loop over both state variables: the new contents of x, f, xi and sl are Advance of the old contents; len and g are unchanged; the default scheme is Euler |
| Sim.SimplePend.EulerUpdate | SimplePend.cs:40-43 | the Euler body for index i changes x[i] to x[i] + f[i]*dt and nothing else |
| Sim.SimplePend.Rk4Update | SimplePend.cs:44-61 | the RK4 body for index i leaves the buffers as the composition of the slope-0 write, the three stages and the weighted update |
| Sim.SimplePend.Rk4Stage1Update | SimplePend.cs:48-50 | xi[i] becomes x[i] + sl[i,0]*0.5*dt, f becomes the derivative at xi, sl[i,1] becomes f[i] + 0.5*dt |
| Sim.SimplePend.Rk4Stage2Update | SimplePend.cs:52-54 | xi[i] becomes x[i] + sl[i,1]*0.5*dt, f becomes the derivative at xi, sl[i,2] becomes f[i] + 0.5*dt |
| Sim.SimplePend.Rk4Stage3Update | SimplePend.cs:56-58 | xi[i] becomes x[i] + sl[i,2]*dt, f becomes the derivative at xi, sl[i,3] becomes f[i] |
| Sim.SimplePend.Rk4CombineUpdate | SimplePend.cs:60 | x[i] grows by dt times the weighted mean (s0 + 2s1 + 2s2 + s3)/6 of row i of the slopes |
| Sim.SimplePend.RhsFunc | SimplePend.cs:68-72 | ff[0] is the old st[1]; ff[1] is -g/len*sin of the old st[0], or of the st[1] just written when st and ff are the same array; no other element or array changes; for distinct 2-element arrays ff holds Rhs of st |
| Sim.SimplePend.L | SimplePend.cs:77-79 | the length read back is positive |
| Sim.SimplePend.SetL | SimplePend.cs:81-85 | len takes the value only when it is positive and otherwise keeps its old value; nothing else changes; the invariant len > 0 is kept |
| Sim.SimplePend.G | SimplePend.cs:87-89 | the field strength read back is not negative |
| Sim.SimplePend.SetG | SimplePend.cs:91-95 | g takes the value only when it is not negative and otherwise keeps its old value; nothing else changes; the invariant g >= 0 is kept |
| Sim.SimplePend.SetTheta | SimplePend.cs:97-102 | writes exactly x[0], without validation; theta reads back the value written; every other buffer element is unchanged; the object invariant is kept |
| Sim.SimplePend.SetThetaDot | SimplePend.cs:103-108 | writes exactly x[1], without validation; thetaDot reads back the value written; every other buffer element is unchanged; the object invariant is kept |
| Sim.EulerFromRest | SimplePend.cs:21-43 | a fresh pendulum after one Euler step of 0.01 has theta 1.0 and thetaDot -9.81/1.1*sin(1.0)*0.01 |
| Sim.Rk4FromRest | SimplePend.cs:21-60 | a fresh pendulum after one RK4 step of 0.01 has theta 1.0 + 0.01*0.01/3, not 1.0, and thetaDot driven by the acceleration at 1.00005 |
| Dynamics.EulerStep | SimplePend.cs:37-43 | Euler maps x to (x0 + x1*dt, x1 - g/len*sin(x0)*dt), f to the derivative at the pre-step state, and leaves xi and sl alone |
| Dynamics.OtherStep | SimplePend.cs:37-62 | with an unrecognised scheme only f changes, to the derivative at the unchanged state |
| Dynamics.ZeroStepKeepsState | SimplePend.cs:37-62 | with dt = 0 the state x is unchanged under Euler, RK4 and an unrecognised scheme |
| Dynamics.EulerIgnoresScratch | SimplePend.cs:37-43 | two Euler steps from the same state give the same x and f whatever f, xi and sl held before |
| Dynamics.Rk4ThetaComponent | SimplePend.cs:46-60 | the RK4 body for theta sets row 0 of the slopes to [thetaDot, p + 0.5dt, p + 0.5dt, p] where p is the leftover xi[1], leaves xi[1] at p, sets xi[0] to the stage-3 probe, updates x[0] by the weighted mean, keeps x[1], and leaves f as the derivative at xi |
| Dynamics.Rk4ThetaDotComponent | SimplePend.cs:46-60 | the RK4 body for thetaDot sets row 1 of the slopes to [a, a + 0.5dt, a + 0.5dt, a] with a the acceleration at xi[0], keeps xi[0] and x[0], sets xi[1] to the stage-3 probe and updates x[1] by the weighted mean |
| Dynamics.Rk4Sweep | SimplePend.cs:38-62 | an RK4 step is rhsFunc(x, f), then the full RK4 body for theta, then the one for thetaDot |
| Dynamics.Rk4StepTheta | SimplePend.cs:37-60 | after an RK4 step, row 0 of the slopes is [x1, p + 0.5dt, p + 0.5dt, p] with p the xi[1] from before the call, xi[0] = x0 + sl[0,2]*dt, and theta moves by the weighted mean of row 0 times dt |
| Dynamics.Rk4StepThetaDot | SimplePend.cs:37-60 | after an RK4 step, row 1 of the slopes is [a, a + 0.5dt, a + 0.5dt, a] with a the acceleration at the new xi[0], xi[1] = x1 + sl[1,2]*dt, thetaDot moves by the weighted mean of row 1 times dt, and f is the derivative at the new xi |
| Dynamics.Rk4ThetaClosedForm | SimplePend.cs:46-60 | the new theta of an RK4 step is x0 + (x1 + 5p + 2dt)*dt/6 with p the leftover xi[1] |
| Dynamics.Rk4ThetaDotSeesProbe | SimplePend.cs:56-60 | the angle the thetaDot stages see equals the new theta exactly when dt = 0 or the leftover xi[1] plus dt equals thetaDot |
| Dynamics.Rk4ThetaReadsStaleXi | SimplePend.cs:48-57 | from the same state, two RK4 steps give the same new theta exactly when dt = 0 or the leftover xi[1] values are equal |

## Left out

- Floating point: `double` is modelled as `real`. Rounding, NaN and infinities are not modelled.
- `Math.Sin` is a function `sin: real -> real` passed to the constructor and kept in a constant field. Nothing is assumed about its values.
- The `method` string is the datatype `Scheme = Euler | RK4 | Other`. `Other` stands for every string other than "EULER" and "RK4". The default argument "EULER" is the default value `Euler`.
- The field `n`, which the source never changes, is the constant `N = 2`. The second dimension of `sl` is the constant `Stages = 4`.
- The arrays are `const` fields, because the source assigns them only in the constructor. The object invariant records that `x`, `f` and `xi` are three distinct arrays, which the constructor guarantees.
- C# zero-initialises new arrays. The model's constructor fills them with 0.0 explicitly.
- Sim.SimplePend.RhsFunc: requires both arrays to have at least two elements. The public C# method would throw `IndexOutOfRangeException` on a shorter array, and that exception is not modelled.
- The loop body of `step` is split into the methods `EulerUpdate`, `Rk4Update` and the four RK4 stage methods. The statements and their order are the source's.
- The getters `Theta` and `ThetaDot` are plain reads of `x[0]` and `x[1]` with no contract of their own. What they return is stated by the setters' contracts and by `Contents()`.
