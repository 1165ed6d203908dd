# Target shot-group statistics, modelled in Dafny

`target.py` is an Inkscape extension. The user selects the circles that mark
the shots on a target. The extension then draws the group's "average
precision circle": a red circle around the group centre, a plus at that
centre, and a text line. The text gives the number of shots, the group size
in inches, and that size in minutes of angle (MOA) at the configured
distance in yards.

This project models the statistics core of that extension and proves what
its results mean:

- `ingestion.dfy` (module `Ingestion`) covers the `Circle` constructor,
  `is_circle` and the filter that `get_circles_from_effect` applies to the
  selection. A node is kept when its tag is the SVG circle tag and its `cx`,
  `cy` and `r` all convert to numbers. Any other node is skipped without an
  error. The proofs cover the order in which circles are kept, and that a
  circle is kept exactly when a selected circle node builds it.
- `statistics.dfy` (module `Statistics`) defines, as functions of the
  collected circles:
  - the last-minimum choice of `min_x` / `min_y`;
  - the centre of `average_center`;
  - the radius of `average_radius`;
  - the `average_precision_circle` triple and its per-component inch
    conversion;
  - `moa`.

  The lemmas beside these functions state what the centre, the radius and
  the MOA mean.
- `target.dfy` (module `Target`) holds the `Circles` class. Its `circles`
  field is the list that the source appends to. The collecting loop is
  proved to compute `Ingestion.Ingested`. The running-minimum loop and the
  `total` accumulations are each proved to compute the matching Statistics
  function above. It also holds `Effect`: the size guard of
  `Target.effect` and the marks it draws.
- `real_arith.dfy` (module `RealArith`) holds small facts of real
  arithmetic that the proofs use.

Three operations the model cannot define are passed in as function
parameters:

- number parsing, the Python builtin `float` applied to attribute text,
  which either yields a value or fails;
- `math.sqrt`, constrained only to be non-negative and zero exactly at zero
  (`Statistics.IsSqrtLike`);
- the host's `uutounit` unit conversion.

Coordinates are Dafny `real`s.

**The centre divides by N - 1.** `average_center` is described as the
average x and y of the group, which would divide by N. The code divides the
summed offsets from the minimum by `len(self.circles) - 1` instead
(target.py:161 and target.py:167). The model follows the code. The lemmas then show what the
formula computes:

- it is the mean of the N - 1 coordinates left once the chosen minimal
  circle is dropped (`CenterDropsMinimum`);
- it lies between the minimum and any common upper bound of the
  coordinates (`CenterAtLeastMin`, `CenterAtMostBound`);
- it is at or above the arithmetic mean, and equal to it only when every
  coordinate equals the minimum (`CenterVersusMean`);
- on three concrete circles it gives (5, 5) where the mean is (10/3, 10/3)
  (`TiedMinimumExample`).

## Model

| member | source | states |
|---|---|---|
| Ingestion.NewCircle | target.py:212-218 | the constructor succeeds exactly when `cx`, `cy` and `r` are all present and parse; the circle then holds the `id` attribute and the three parsed numbers |
| Ingestion.NewCircleRoundTrip | target.py:212-218 | a circle node written with `cx`, `cy`, `r` (and `id`) under the SVG circle tag is accepted by `is_circle`, and reads back as the same circle when each of its three numbers parses back to itself. Python 2's `str` on a float, which `draw_circle` uses (target.py:62), keeps only 12 significant digits, so a drawn circle need not meet that condition |
| Ingestion.IsCircle | target.py:127-130 | `is_circle` holds exactly when the tag is `{http://www.w3.org/2000/svg}circle`, which is the tag `addNS('circle', 'svg')` gives the circles `draw_circle` writes |
| Ingestion.Accepted | target.py:119-125 | a node is kept exactly when it is an SVG circle and `cx`, `cy` and `r` are all present and parse |
| Ingestion.Ingested | target.py:113-125 | the collected list is never longer than the selection |
| Ingestion.IngestedStep | target.py:117-125 | one more node adds its circle exactly when it is a circle node whose constructor succeeds, and adds nothing otherwise |
| Ingestion.IngestedAppend | target.py:113-125 | collecting a concatenated selection gives the concatenation of the two collections, so the selection order is kept |
| Ingestion.SkipsRejected | target.py:119-125 | a node that is not a circle, or whose constructor fails, is skipped anywhere in the selection without changing what the other nodes contribute |
| Ingestion.KeepsAccepted | target.py:119-125 | an accepted node contributes its circle exactly at its own position between what comes before and after it |
| Ingestion.IngestedMembership | target.py:113-130 | a circle is collected if and only if some selected node has the tag `{http://www.w3.org/2000/svg}circle` and constructs it |
| Statistics.LastMinIndex | target.py:132-152 | the chosen index is in range, its coordinate is <= every coordinate, and strictly below every later one (the last of tied minima wins) |
| Statistics.LastMinIndexUnique | target.py:132-152 | those two properties single out the chosen index |
| Statistics.SumOffsets | target.py:158-166 | the `total` of offsets from m, plus N times m, is the sum of the coordinates |
| Statistics.SumOffsetsNonNegative | target.py:157-166 | offsets from a lower bound sum to at least zero, and to zero exactly when every coordinate equals that bound |
| Statistics.CenterCoord | target.py:154-168 | one centre coordinate, `total / (N - 1) + min` as written, is never below the chosen minimum |
| Statistics.CenterAtLeastMin | target.py:154-168 | a centre coordinate equals the minimum exactly when all circles share the minimal coordinate |
| Statistics.CenterClosedForm | target.py:161-167 | the centre is (S - m) / (N - 1) for the coordinate sum S and the chosen minimum m |
| Statistics.CenterDropsMinimum | target.py:154-168 | the centre as written is the mean of the N - 1 coordinates left after removing the circle `min_x` / `min_y` returns |
| Statistics.CenterAtMostBound | target.py:154-168 | the centre never exceeds a bound that every coordinate respects |
| Statistics.CenterVersusMean | target.py:154-168 | the centre is >= the arithmetic mean over N, and equal to it exactly when every coordinate equals the minimum |
| Statistics.Center | target.py:154-168 | the `average_center` pair is at or above the arithmetic mean on each axis |
| Statistics.SquaredDistance | target.py:176-178 | x*x + y*y of the absolute offsets is >= 0, and 0 exactly when the circle sits on the centre |
| Statistics.Distance | target.py:176-178 | with a square root that is non-negative and zero only at zero, each per-circle distance is >= 0, and 0 exactly when the circle sits on the centre |
| Statistics.SumDistances | target.py:173-179 | the summed distances are >= 0, and 0 exactly when every circle sits on the centre |
| Statistics.Radius | target.py:170-180 | the precision radius is >= 0, and 0 exactly when every circle sits on the group centre |
| Statistics.PrecisionCircle | target.py:182-187 | the triple starts with the `average_center` pair, and its radius is >= 0 and 0 exactly when every shot sits on its centre |
| Statistics.PrecisionCircleInches | target.py:189-197 | each component goes through the unit conversion to inches, so a drawing whose units are already inches is left unchanged |
| Statistics.InchesComponentwise | target.py:189-197 | each converted component depends only on the matching input component |
| Statistics.InchesScale | target.py:189-197 | under a conversion that scales by a fixed factor, x, y and r are each scaled by it |
| Statistics.Moa | target.py:199-203 | the MOA times 1.047 * distance / 100 gives back the group diameter 2r |
| Statistics.MoaAt100Yards | target.py:199-203 | at 100 yards the MOA is 2r / 1.047 |
| Statistics.MoaOnlyRadius | target.py:199-203 | only the third component of the tuple affects the MOA |
| Statistics.MoaLinear | target.py:199-203 | the MOA is linear in r |
| Statistics.MoaDoubleDistance | target.py:199-203 | doubling the distance halves the MOA |
| Statistics.TiedMinimumExample | target.py:132-168 | with two circles tied at the minimum the second one is chosen, and the centre (5, 5) differs from the mean (10/3, 10/3) |
| Target.Circles.constructor | target.py:39-43 | a new `Circles` holds exactly the circles collected from the selection |
| Target.Circles.GetCirclesFromEffect | target.py:113-125 | the loop appends exactly the collected circles of the selection to the existing list |
| Target.Circles.MinBy | target.py:132-152 | the running-minimum loop returns the circle at the last minimal index, never None, and its coordinate is <= every circle's |
| Target.Circles.MinX | target.py:132-141 | `min_x` returns the last circle with minimal x, and its x is <= every circle's |
| Target.Circles.MinY | target.py:143-152 | `min_y` returns the last circle with minimal y, and its y is <= every circle's |
| Target.Circles.OffsetTotal | target.py:158-160 | the `total` loop computes the summed offsets from the given minimum |
| Target.Circles.AverageCenter | target.py:154-168 | `average_center` returns the centre whose meaning the Center lemmas state |
| Target.Circles.AverageRadius | target.py:170-180 | `average_radius` returns the summed distances to that centre divided by N |
| Target.Circles.AveragePrecisionCircle | target.py:182-187 | the triple is the centre followed by the precision radius, and its first two components are `average_center`'s |
| Target.Plus | target.py:66-69 | the plus is a horizontal and a vertical line, both centred on the given point; with Python 2's rounded-down `size / 2` they are `size` long for an even size and `size - 1` long for an odd one |
| Target.Effect | target.py:23-35 | two or fewer collected circles give the refusal "select more than 2 circles" and no marks. Otherwise it draws the precision circle, a plus of size 20 at its centre, and text at (cx + 2, cy + 10) with the shot count, twice the radius in inches, the distance and the MOA. A distance of 0 stops after the circle and the plus |

## Left out

- Host plumbing is not modelled: the `inkex.Effect` subclass, option registration and `__main__` (target.py:10-21, 223-225).
- SVG element construction, styles and labels in `draw_circle`, `draw_line`, `draw_text` and `parent` (target.py:45-110) are foreign etree calls. `Effect` records only the geometry of what it draws, as `Mark` values.
- `uutounit` is the host's unit conversion. It is a function parameter, and nothing is assumed about it beyond the premises of `InchesScale` and `PrecisionCircleInches`.
- `math.sqrt` is a function parameter. `IsSqrtLike` requires only that it is non-negative and zero exactly at zero.
- The builtin `float()` on attribute text is a parsing parameter. A missing attribute counts as a parse failure, like the `TypeError` that `float(None)` raises inside the `try`.
- The `%.2f` / `str()` rendering of the summary text and the `__str__` methods (target.py:35, 205-209, 220-221) are not modelled. `TextMark` carries the numbers that are formatted.
- IEEE floating-point rounding, infinities and NaN are not modelled: coordinates are exact reals.
- The iteration order of the host's `selected` dictionary is taken as the given sequence of nodes.
- `Circle` keeps the node's `id` but not the node itself. The node is only used to find a parent to draw on.
- Statistics.Moa: requires a non-zero distance. The source raises a division by zero there, and `Effect` models that as the `DivisionByZero` outcome.
- Target.Circles.AverageRadius: adds `Distance` for each circle, the one definition of sqrt(x*x + y*y) over the absolute offsets. The loop does not spell out the products itself.
- Target.Circles.MinBy, MinX, MinY, AverageCenter, AverageRadius and AveragePrecisionCircle: require at least one circle (the three minimum methods) or two (the others), so they leave out the `IndexError` that `min_x` / `min_y` raise on an empty list (target.py:135, 146) and the `ZeroDivisionError` of `average_center` for a single circle (target.py:161, 167). Every call in `effect` follows its guard of more than two circles, so those errors cannot arise there.
- The text `draw_circle` writes for `cx`, `cy` and `r` (`str` of a float, target.py:62) is not modelled; `NewCircleRoundTrip` assumes a rendering that parses back to each value.
