# StatusMon core in Dafny

StatusMon is the status monitor of the Cubeception 3 underwater robot. Every
second it redraws a window with the robot's camera targets, orientation,
thruster outputs and movement history. This project models the two parts of
`statusmon.py` that hold logic rather than plotting:

- **Quaternion helpers** (module `Quaternions`, file `quaternions.dfy`).
  - `q_mult` is the Hamilton product (`Mult`).
  - `q_conjugate` negates the vector part (`Conjugate`).
  - `qv_mult` rotates a vector by q·(0, v)·q̄ and keeps the vector part (`Rotate`).
  - `normalize` rescales a tuple to unit length unless its squared length is already within a tolerance of 1 (`Normalize`).

  They are pure functions over idealised real numbers. Lemmas state the algebra the orientation viewer relies on:
  - identity and conjugate laws, associativity, multiplicativity of the norm
  - rotation by the identity, composition and inversion of rotations
  - rigidity of rotation by a unit quaternion
  - that normalising an already-normalised tuple changes nothing.
- **The per-frame update of `animate`** (module `Monitor`, file `monitor.dfy`).
  - A class `Monitor.Monitor` owns the four arrays the display keeps between frames:
    - `data`: latest readings, 9 × 4
    - `cube` and `ca`: the cube and arrow wireframes, 3 × 16 and 3 × 8
    - `dataHist`: movement history, 11 series × 50 samples
  - Its methods rewrite those arrays in place, as the source does:
    - clamp the camera targets into their bands
    - reset both wireframes to their templates and rotate every column by the current attitude, which is the identity when the angular sensor link is down
    - shift the history one slot and write the new sample, with speed and acceleration magnitude
    - scan the history for its range to scale the movement plot.
  - The thruster heatmap layout is a function of `data`.

The methods that rewrite arrays are proved against specification functions:
- `ClampTargets` against `Clamp`
- `RotatePoints` and `UpdateOrientation` against `RotateAll`
- `PushHistory` against `Push` and `Slide`.

The scans `AxisRange` and `ScaleAxis` are specified directly by the least and
greatest sample (`IsLeast`, `IsGreatest`, `AxisLimits`). `Animate` carries the
contracts of the steps it composes. The heatmap is itself a function of `data`,
whose contract places every motor, with `HeatCell` giving the layout.

The lemmas beside them state what those functions promise:
- after a full window of samples nothing older survives
- the heatmap gives every motor its own cell
- a unit attitude moves the cube rigidly.

## Model

| member | source | states |
|---|---|---|
| Quaternions.MultIdentityLeft | statusmon.py:234-241 | (1, 0, 0, 0) · q = q |
| Quaternions.MultIdentityRight | statusmon.py:234-241 | q · (1, 0, 0, 0) = q |
| Quaternions.MultAssociative | statusmon.py:234-241 | the Hamilton product is associative |
| Quaternions.NormMultiplicative | statusmon.py:234-241 | the squared norm of a product is the product of the squared norms |
| Quaternions.ConjugateInvolution | statusmon.py:243-245 | conjugating twice gives back the quaternion |
| Quaternions.MultConjugate | statusmon.py:234-245 | q · q̄ and q̄ · q are both the real quaternion ‖q‖² |
| Quaternions.ConjugateOfProduct | statusmon.py:234-245 | conjugate of p · q is q̄ · p̄ |
| Quaternions.SandwichIsPure | statusmon.py:247-249 | q · (0, v) · q̄ has zero scalar part, so dropping it with `[1:]` loses nothing |
| Quaternions.RotateIdentity | statusmon.py:247-249 | rotating by (1, 0, 0, 0) leaves every vector unchanged |
| Quaternions.RotateByScalar | statusmon.py:247-249 | rotating by the real quaternion s scales a vector by s² |
| Quaternions.RotateCompose | statusmon.py:247-249 | rotating by q then by p is rotating by p · q |
| Quaternions.RotateInverse | statusmon.py:243-249 | for a unit q, rotating by q̄ undoes rotating by q, in both orders |
| Quaternions.RotateLength | statusmon.py:247-249 | rotation multiplies a squared length by ‖q‖⁴, so a unit q keeps lengths |
| Quaternions.RotateLinear | statusmon.py:247-249 | rotation maps the difference of two points to the difference of their images |
| Quaternions.RotateKeepsDistance | statusmon.py:247-249 | a unit q keeps the distance between any two points |
| Quaternions.Normalize | statusmon.py:227-232 | input returned unchanged when the squared length is within tolerance of 1; otherwise each result component times the length is the input component (v / magn, in order) and the squared length is exactly 1; fails exactly when the squared length is outside the tolerance and the tuple is non-empty and all zero |
| Quaternions.NormalizeIdempotent | statusmon.py:227-232 | normalising the result of a normalisation returns it unchanged |
| Quaternions.SumSqDivide | statusmon.py:228-231 | dividing every component by d divides the sum of squares by d² |
| Quaternions.DivideByLength | statusmon.py:228-231 | dividing by the square root of the sum of squares gives sum of squares 1 |
| Quaternions.DivideAll | statusmon.py:231 | each output component times the divisor is the input component, in order |
| Monitor.Clamp | statusmon.py:399-417 | the result lies in the band; a value inside the band is kept; one below becomes the lower bound, one above the upper |
| Monitor.Monitor.ClampTargets | statusmon.py:399-417 | forward depth in [-10, 0], downward depth in [-10, 10], both confidences in [0, 255], via `Clamp`; every other reading unchanged |
| Monitor.Monitor.Attitude | statusmon.py:439-442 | the reported quaternion from row 2 when the angular link is up; otherwise a fallback that leaves every point where it is when rotated by |
| Monitor.Monitor.LoadShape | statusmon.py:447-453 | after the reset the array's columns are exactly the template's points |
| Monitor.Monitor.RotatePoints | statusmon.py:456-467 | every column is replaced by its rotation by q and nothing else changes (point count and order kept) |
| Monitor.Monitor.UpdateOrientation | statusmon.py:439-467 | cube column j is template point j rotated by the attitude, for all 16 columns, and likewise the 8 arrow columns; with the link down both shapes equal their templates |
| Monitor.RotateAllIdentity | statusmon.py:439-467 | rotating a whole shape by the identity returns the shape |
| Monitor.RotateAllRigid | statusmon.py:456-467 | with a unit attitude, any two points of the rotated shape are as far apart as in the template |
| Monitor.HeatCell | statusmon.py:476-477 | motors 0-3 land in the bottom row, motors 4-7 in the left half of the two upper rows |
| Monitor.HeatCellInjective | statusmon.py:476-477 | no two motors share a heatmap cell |
| Monitor.HeatCellOnto | statusmon.py:476-477 | every cell outside the four padding cells shows some motor |
| Monitor.Monitor.Heatmap | statusmon.py:476-477 | 3 × 4 grid in which each motor output (motors 0-3 in data row 3, 4-7 in row 4, as filled at statusmon.py:292-295) sits in its cell and the four padding cells are 0 |
| Monitor.Slide | statusmon.py:487-497 | one step of a series: same length, element k is the old element k + 1, the last is the new sample |
| Monitor.SlideAllWindow | statusmon.py:487-497 | after n ≤ 50 steps a series holds its last 50 − n old samples followed by the n new ones in arrival order |
| Monitor.FullWindowForgets | statusmon.py:487-497 | after 50 steps a series holds exactly the last 50 samples |
| Monitor.Monitor.ShiftHistory | statusmon.py:487-489 | every series slot k < 49 takes the old value of slot k + 1; slot 49 is untouched |
| Monitor.Monitor.WriteNewest | statusmon.py:490-497 | slot 49 of series j receives component j of the sample (position, velocity, speed, acceleration, acceleration magnitude); every other slot is untouched |
| Monitor.Monitor.PushHistory | statusmon.py:487-497 | every series k < 49 gets old k + 1; slot 49 holds position in series 0-2, velocity in 3-5, acceleration in 7-9, and in series 6 and 10 non-negative values whose squares are the sums of squares of velocity and acceleration |
| Monitor.Monitor.AxisRange | statusmon.py:504-511 | every sample lies in [ymin, ymax] and both bounds are attained by some sample |
| Monitor.Monitor.ScaleAxis | statusmon.py:504-518 | the lower limit is the least sample; the upper limit is the greatest sample plus a fifth of the span; both enclose every sample; ticks are recomputed exactly when the history is not constant, which is exactly when the limits span a non-zero range |
| Monitor.Monitor.UpdateReadings | statusmon.py:399-477 | the four target cells become `Clamp` of their old values and every other reading is unchanged; both shapes are the attitude's rotation of their templates; the heatmap places every motor |
| Monitor.Monitor.UpdateMovement | statusmon.py:487-518 | the history advances by one sample per series; the axis limits are the least sample and the greatest plus a fifth of the span; ticks exactly when the history is not constant |
| Monitor.Monitor.Animate | statusmon.py:382-518 | one frame composes the steps above: the four target cells become `Clamp` of their old values and the other 32 readings are unchanged, so the attitude and the new sample are the readings that came in; both shapes at the attitude's rotation of their templates; the heatmap; the history advanced by that sample; the axis limits and ticks as for `ScaleAxis` |

## Left out

- Shared-memory client (`pydsm`), buffer registration and decoding (statusmon.py:58-60, 269-377) are foreign calls. Their outcome reaches the model as the current contents of `data` and as the parameter `angularUp`, which stands for the angular sensor status string being `'Up  '`.
- Link status strings, plotting, colours, marker sizes, legends, status text and the animation driver are display only.
  - The polar-plot maximum and its ticks (statusmon.py:390-396) are display only as well.
  - So is the `linspace` of tick positions (statusmon.py:517). The model records only whether ticks are recomputed.
- `axisangle_to_q` and `q_to_axisangle` (statusmon.py:251-264) need trigonometry, which Dafny's reals lack.
- Square roots: Dafny's reals have none.
  - `Normalize` receives the length as a parameter `magn` with `magn ≥ 0` and `magn² = Σ n²`.
  - `PushHistory` receives speed and acceleration magnitude in the same way (`IsLength`).
- `Normalize` and `PushHistory`: the exponent `1/2` is read as one half, as under Python 3.
  - Under Python 2 integer division it would be 0, so every `pow(…, 1/2)` would give 1.
  - `normalize` would then never rescale a tuple.
  - Series 6 and 10 of the history (statusmon.py:496-497) would hold 1.0 every frame instead of the speed and the acceleration magnitude.
- `Normalize`: the source divides by `magn`, which is zero exactly when `magnSqr` is. The model tests `magnSqr` and returns `None` where Python raises `ZeroDivisionError` on a non-empty all-zero tuple.
- Numbers are idealised reals, not IEEE doubles. Identities such as rotation by the identity or rigidity hold exactly here and only up to rounding in the program.
- Integer and float readings are not distinguished. The template coordinates are stored in float arrays (statusmon.py:120, 127) and are reals here too. Only the fallback quaternion `(1, 0, 0, 0)` is integer in the source; it is real here.
- The `print(quat)` after choosing the attitude (statusmon.py:444) is console output and is not modelled.
- Monitor.Monitor.constructor: the demo seed values of `data` and `dataHist` (statusmon.py:71-94) are not reproduced. Both arrays start at zero. The wireframes start at their templates, as in statusmon.py:120-130.
- Monitor.Monitor.ScaleAxis: the source always sets the axis limits and skips only the tick computation when the range is empty. The model follows the code, not a description that says the whole axis scaling is skipped.
- Quaternions.NormalizeIdempotent: stated only for a non-negative tolerance. The default is 0.00001, and a negative tolerance would make every call rescale.
