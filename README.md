# J-wire guidewire geometry

A model of the `JWire` device description of the aortic-arch navigation
benchmark. A J-wire is a guidewire made of a straight shaft followed by a
curved tip that bends through `tip_angle` radians. Its constructor
(`JWire.__post_init__`) turns the physical parameters (lengths, diameters,
moduli, mass densities and per-millimetre discretisation densities) into the
values a beam-adapter finite-element simulation is configured with: the
straight-segment length, the spire diameter and height of the tip arc, the
per-segment material and radius aliases, the visual, collision and beam counts,
and the three key points along the device's arclength.

The project has two modules:

- `Ceiling` (`ceiling.dfy`): `Ceil`, rounding a real up to an integer as
  `math.ceil` does, defined through `Floor` and characterised by its bounds,
  with monotonicity lemmas.
- `JWire` (`jwire.dfy`): the `Inputs` record (every dataclass field, with the
  source's defaults in `Defaults`), the `Derived` record (every attribute the
  constructor adds except the two placeholder fields, see "Left out"), the construction `Derive`, an independent reference
  description `Describes` of what each derived field means, and the lemmas.

All quantities are exact `real`s; the counts are `int`s.

## Model

| member | source | states |
|---|---|---|
| `Ceiling.Ceil` | eve_bench/aorticarch/arch_vmr94_util/jwire.py:61-67 | the rounded-up value `n` satisfies `x <= n < x + 1`: it never under-resolves and overshoots by less than one |
| `Ceiling.CeilIsUnique` | eve_bench/aorticarch/arch_vmr94_util/jwire.py:61-67 | `Ceil(x) == n` exactly when `n - 1 < x <= n`, both directions, so a count is the ceiling and not a floor or a rounding |
| `Ceiling.CeilMonotone` | eve_bench/aorticarch/arch_vmr94_util/jwire.py:61-67 | rounding up preserves `<=` |
| `Ceiling.CeilNonNegative` | eve_bench/aorticarch/arch_vmr94_util/jwire.py:61-67 | the ceiling of a non-negative product is a natural number, and is zero exactly when the product is zero |
| `Ceiling.ScaledCeilMonotone` | eve_bench/aorticarch/arch_vmr94_util/jwire.py:61-67 | with a fixed non-negative length, a larger density gives a count at least as large, in either operand order |
| `JWire.Defaults` | eve_bench/aorticarch/arch_vmr94_util/jwire.py:36-55 | the dataclass defaults, field for field (450 mm long, a 15.2 mm tip bent through `0.4 * pi`, diameters 0.89 and 0.7, moduli 80e3 and 17e3, the five densities); what they derive to is stated by `DefaultGeometry` and `DefaultCounts` |
| `JWire.SpireDiameter` | eve_bench/aorticarch/arch_vmr94_util/jwire.py:60 | `tip_length / tip_angle * 2`, defined only for a non-zero angle; its meaning, the diameter of the circle on which the tip is an arc of `tip_angle` radians, is stated by `SpireArcLength` and by the spire clause of `DeriveDescribes` |
| `JWire.Derive` | eve_bench/aorticarch/arch_vmr94_util/jwire.py:57-86 | the construction, defined for every input with a non-zero tip angle and no other precondition; its contract is carried by `DeriveDescribes` (it meets the reference description) and `DescribesUnique` (it is the only record that does) |
| `JWire.DeriveDescribes` | eve_bench/aorticarch/arch_vmr94_util/jwire.py:57-86 | the constructed record meets the reference description: `straight_length + tip_length == length`; `spire_diameter * tip_angle == 2 * tip_length`; `spire_height == 0`; the straight segment's modulus and mass density are the plain names and the tip's the `_extremity` names; every radius is half its diameter; each of the five counts is the ceiling of its density times its segment length; `num_edges_collis` and `density_of_beams` have two entries, straight first and tip second; `key_points == [0, straight_length, length]` |
| `JWire.DescribesUnique` | eve_bench/aorticarch/arch_vmr94_util/jwire.py:57-86 | two records meeting the reference description for the same inputs are equal (for a non-zero tip angle), so construction is deterministic and `Derive` is the only record meeting it |
| `JWire.KeyPointsOrdered` | eve_bench/aorticarch/arch_vmr94_util/jwire.py:86 | `key_points` has three entries, and is non-decreasing if and only if `0 <= tip_length <= length` |
| `JWire.SpireArcLength` | eve_bench/aorticarch/arch_vmr94_util/jwire.py:60 | an arc of `tip_angle` radians on a circle of diameter `spire_diameter` has length `tip_length` |
| `JWire.CountsNonNegative` | eve_bench/aorticarch/arch_vmr94_util/jwire.py:59-67 | with non-negative densities and `0 <= tip_length <= length`, all five counts are `>= 0` |
| `JWire.FullLengthTip` | eve_bench/aorticarch/arch_vmr94_util/jwire.py:59-67 | for any non-zero tip angle, when `tip_length == length` the straight length and both straight-segment counts are 0, while a tip of positive length with positive densities keeps at least one collision edge and one beam |
| `JWire.VisuEdgesMonotone` | eve_bench/aorticarch/arch_vmr94_util/jwire.py:61 | raising `visu_edges_per_mm` (non-negative length) never lowers `num_edges` |
| `JWire.CollisTipMonotone` | eve_bench/aorticarch/arch_vmr94_util/jwire.py:62 | raising `collis_edges_per_mm_tip` (non-negative tip length) never lowers the tip's collision-edge count |
| `JWire.CollisStraightMonotone` | eve_bench/aorticarch/arch_vmr94_util/jwire.py:63-65 | raising `collis_edges_per_mm_straight` (tip no longer than the device) never lowers the straight segment's collision-edge count |
| `JWire.BeamsTipMonotone` | eve_bench/aorticarch/arch_vmr94_util/jwire.py:66 | raising `beams_per_mm_tip` (non-negative tip length) never lowers the tip's beam count |
| `JWire.BeamsStraightMonotone` | eve_bench/aorticarch/arch_vmr94_util/jwire.py:67 | raising `beams_per_mm_straight` (tip no longer than the device) never lowers the straight segment's beam count |
| `JWire.DefaultGeometry` | eve_bench/aorticarch/arch_vmr94_util/jwire.py:36-55 | with the default parameters the straight length is 434.8, the key points are `[0, 434.8, 450]`, the radii are 0.445 and 0.35 (inner radii 0), and the moduli are 80e3 (straight) and 17e3 (tip) |
| `JWire.DefaultCounts` | eve_bench/aorticarch/arch_vmr94_util/jwire.py:36-55 | with the default parameters `num_edges == 225`, `num_edges_collis == [44, 31]` and `density_of_beams == [40, 22]` |

## Left out

- Floating point: every parameter is an exact real, so IEEE-754 rounding (for instance `0.1 * 434.8` not being exactly `43.48` in binary) and the ceilings it could shift at their edge cases are not modelled. Nor are infinities and NaN: a product that overflows to infinity makes `math.ceil` raise `OverflowError`, and a NaN product (such as `0.0 * inf`) makes it raise `ValueError`, whereas `Ceil` is total over the reals.
- `math.pi` is written as `3.141592653589793`, the shortest decimal that reads back as Python's `math.pi`; it only enters the default tip angle and hence the default spire diameter, about which nothing numeric is stated.
- A zero `tip_angle` makes the source's division raise `ZeroDivisionError`; the model expresses this as the precondition `tipAngle != 0.0` on `Derive` rather than as an error value. No other input is checked by the source, and the model adds no validation: a tip longer than the device yields a negative straight length and, with non-negative straight densities, non-positive straight-segment counts (negative once the overhang times the density reaches 1), as in the source.
- `is_a_procedural_shape` and `mesh_path` (jwire.py:69-70) are assigned `dataclasses.field(...)` objects rather than `True` and `""`, so they carry no usable value; they are not part of `Derived`.
- `name`, `velocity_limit`, `poisson_ratio` and `color` are kept in `Inputs` but are passed through unchanged and have no derived behaviour.
- Monotonicity is stated one density at a time (each count depends on exactly one density); a simultaneous raise of several densities follows by applying the lemmas in turn.
- eve_bench/archvarietyimage_v2.py (assembly of the external vessel-tree, instrument, simulation, fluoroscopy and target objects), example/function_check.py (simulation stepping, rendering, timing) and setup.py (packaging) are not part of this model: they compute nothing themselves.

## Notes on the source

- `JWire` validates none of its inputs; for finite products, only a zero `tip_angle` fails, with Python's `ZeroDivisionError` (jwire.py:60).
- The code computes the spire diameter as `tip_length / tip_angle * 2`; over exact reals this equals `2 * tip_length / tip_angle`.
