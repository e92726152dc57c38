# Cabinet calculators — a Dafny model

This project models the calculation core of a cabinet-making web app: pure
functions that turn a cabinet opening and fit options into door and drawer-front
sizes and cut lists, shaker-door part lists, and hardware drilling points (handle,
evenly spaced hinges, Blum Clip Top hinge plates, Blum Tandembox drawer drilling).

Modules follow the source files:

- `CabinetTypes` (`types.dfy`): the records of `src/core/types.ts`. The TypeScript
  field `type: "inset" | "overlay"` is named `fit: FitType` (`type` is a Dafny keyword).
- `DoorDrawerCalculator` (`door_drawer_calculator.dfy`): `doorDrawerCalculator.ts`.
- `HardwarePlacementCalculator` (`hardware_placement_calculator.dfy`): `hardwarePlacementCalculator.ts`.
- `ShakerDoorCalculator` (`shaker_door_calculator.dfy`): `shakerDoorCalculator.ts`.
- `CalculatorExamples` (`calculator_examples.dfy`): the concrete cases of
  `tests/core/doorDrawerCalculator.test.ts` and the Clip Top thresholds.

Modelling choices:

- Every measurement is an exact `real`. The source only adds, subtracts, and
  multiplies or divides by constants or small integers. Hinge `count` and cut-list
  `quantity` are `int`.
- No input is rejected. Zero and negative values flow through the formulas, as in the source.
- TypeScript default parameters become explicit arguments plus `...Default` wrappers
  that supply the defaults: "Door", "Drawer Front", quantity 1, panel gap 2 and hinge type `Straight`.
  The optional Clip Top gaps `topGap?` and `bottomGap?` are `Option<real>`. Their
  `??` fallback to 100 is `GetOr`.
- Clip Top positions are measured down from the top edge of the door. The top plate
  is at `topGap` and the bottom plate is at `doorHeight - bottomGap`.
- The Tandembox `model` is a `string`. "M", "B" and "D" select a constant pair (edge
  inset, front offset): 37/9, 42/12 and 50/15. Any other string gives three empty groups.
- Hinge placement has two forms. `HingePlacements` is a sequence comprehension that
  serves as the reference. `CalculateHingePlacements` is the source's push loop, proved equal to it.
- Double doors with a 0.1 centre gap on a 500 × 700 opening with overlay 18 are
  (500 + 36 − 0.1) / 2 = 267.95 wide. The repository's test
  (`tests/core/doorDrawerCalculator.test.ts:61-68`) expects 268.95, which the code's
  formula does not produce. The model follows the code, and `DoubleDoorExamples`
  proves 267.95 and that the width is not 268.95.

## Model

| member | source | states |
|---|---|---|
| DoorDrawerCalculator.CalculateDoorDimensions | my-next-app/src/core/doorDrawerCalculator.ts:10-26 | an inset door leaves a reveal of `gap` on each side of the opening (gap + width + gap = opening); an overlay door overhangs the opening by `overlay` on each side |
| DoorDrawerCalculator.InsetIgnoresOverlay | my-next-app/src/core/doorDrawerCalculator.ts:14-18 | with the inset style, changing `overlay` never changes the door |
| DoorDrawerCalculator.OverlayIgnoresGap | my-next-app/src/core/doorDrawerCalculator.ts:19-25 | with the overlay style, changing `gap` never changes the door |
| DoorDrawerCalculator.InsetIsNegativeOverlay | my-next-app/src/core/doorDrawerCalculator.ts:14-25 | an inset door with reveal g equals an overlay door with overlay −g |
| DoorDrawerCalculator.GetDoorMaterialCuts | my-next-app/src/core/doorDrawerCalculator.ts:29-42 | exactly one cut-list entry, carrying the door's width and height and the given label and quantity unchanged |
| DoorDrawerCalculator.GetDoorMaterialCutsDefault | my-next-app/src/core/doorDrawerCalculator.ts:29-33 | with defaults, the single entry is one piece labelled "Door" |
| DoorDrawerCalculator.GetDrawerFrontMaterialCuts | my-next-app/src/core/doorDrawerCalculator.ts:45-68 | one entry, equal to the door cut list for an opening of the same width and of height `frontHeight`, with the same fit options |
| DoorDrawerCalculator.GetDrawerFrontMaterialCutsDefault | my-next-app/src/core/doorDrawerCalculator.ts:45-68 | with defaults, one piece labelled "Drawer Front", sized as the door cut for an opening of the same width and of height `frontHeight` |
| DoorDrawerCalculator.DrawerFrontIgnoresHeights | my-next-app/src/core/doorDrawerCalculator.ts:53-59 | neither the opening height nor `boxHeight` affects the drawer front |
| DoorDrawerCalculator.CalculateSingleDoor | my-next-app/src/core/doorDrawerCalculator.ts:74-82 | the single door is always the overlay-style door of the general calculator, whatever the fit style |
| DoorDrawerCalculator.SingleDoorIgnoresFitAndGap | my-next-app/src/core/doorDrawerCalculator.ts:74-82 | changing the fit style or `gap` never changes the single door |
| DoorDrawerCalculator.SingleDoorOverlaySign | my-next-app/src/core/doorDrawerCalculator.ts:78-81 | overlay 0 leaves the opening's size; the door is narrower, and shorter, than the opening exactly when the overlay is negative |
| DoorDrawerCalculator.CalculateDoubleDoors | my-next-app/src/core/doorDrawerCalculator.ts:90-103 | the two doors are identical; left + gapBetween + right spans the single overlay door's width; their height is the single door's |
| DoorDrawerCalculator.DoubleDoorsHalveSingleDoor | my-next-app/src/core/doorDrawerCalculator.ts:95-97 | with no centre gap each door is half the single door's width |
| DoorDrawerCalculator.DoubleDoorsGapTradeoff | my-next-app/src/core/doorDrawerCalculator.ts:95-97 | widening the centre gap by d narrows each door by d/2 |
| HardwarePlacementCalculator.CalculateHandlePlacement | my-next-app/src/core/hardwarePlacementCalculator.ts:10-20 | the handle is `offsetX` in from the right edge and `offsetY` in from the bottom edge, labelled "handle" |
| HardwarePlacementCalculator.HingePlacements | my-next-app/src/core/hardwarePlacementCalculator.ts:29-45 | fewer than 2 hinges gives one hinge at (0, height/2); otherwise exactly `count` hinges; every hinge is on the edge x = 0 and labelled "hinge" |
| HardwarePlacementCalculator.CalculateHingePlacements | my-next-app/src/core/hardwarePlacementCalculator.ts:38-44 | the source's push loop produces exactly the reference hinge sequence |
| HardwarePlacementCalculator.SingleHingeIgnoresEdgeOffset | my-next-app/src/core/hardwarePlacementCalculator.ts:34-37 | with count < 2, `edgeOffset` never changes the result |
| HardwarePlacementCalculator.HingeEndpoints | my-next-app/src/core/hardwarePlacementCalculator.ts:39-43 | the first hinge is `edgeOffset` below the top edge (y = edgeOffset) and the last `edgeOffset` above the bottom edge (y = height − edgeOffset) |
| HardwarePlacementCalculator.HingeSpacing | my-next-app/src/core/hardwarePlacementCalculator.ts:39-41 | consecutive hinges are exactly (height − 2·edgeOffset)/(count − 1) apart |
| HardwarePlacementCalculator.HingeYLinear | my-next-app/src/core/hardwarePlacementCalculator.ts:41 | hinge i sits i equal signed steps of (height − 2·edgeOffset)/(count − 1) from the first; further down the door only when height > 2·edgeOffset |
| HardwarePlacementCalculator.HingeYOrdered | my-next-app/src/core/hardwarePlacementCalculator.ts:39-41 | on a door taller than twice the edge offset, a later hinge is strictly further down (larger y) than an earlier one |
| HardwarePlacementCalculator.HingesStrictlyIncreasing | my-next-app/src/core/hardwarePlacementCalculator.ts:38-44 | the hinge ys are strictly increasing if and only if height > 2·edgeOffset |
| HardwarePlacementCalculator.HingesSymmetric | my-next-app/src/core/hardwarePlacementCalculator.ts:39-41 | hinge i from the top and hinge i from the bottom are mirror images: their ys sum to the door height |
| HardwarePlacementCalculator.ClipTopHingeCount | my-next-app/src/core/hardwarePlacementCalculator.ts:64-76 | 2 to 4 hinges; 2 exactly below 900; 4 exactly from 1600 |
| HardwarePlacementCalculator.ClipTopHingeCountMonotone | my-next-app/src/core/hardwarePlacementCalculator.ts:71-76 | a taller door never gets fewer hinges |
| HardwarePlacementCalculator.CalculateBlumClipTopHingePlate | my-next-app/src/core/hardwarePlacementCalculator.ts:55-92 | top plate at topGap (default 100); bottom plate bottomGap (default 100) above the bottom edge; no middle plates exactly for 2 hinges; count − 2 middle plates otherwise; 3 hinges: middle at half the door height; 4 hinges: the four plates are equally spaced |
| HardwarePlacementCalculator.CalculateBlumClipTopHingePlateDefault | my-next-app/src/core/hardwarePlacementCalculator.ts:57-68 | with defaults, plates at 100 and doorHeight − 100, and the whole result (middle plates included) equals the call with both gaps 100, for either hinge type |
| HardwarePlacementCalculator.ClipTopIgnoresHingeType | my-next-app/src/core/hardwarePlacementCalculator.ts:55-60 | the hinge type never changes the plates |
| HardwarePlacementCalculator.ClipTopThreeHingeMidpoint | my-next-app/src/core/hardwarePlacementCalculator.ts:83-84 | the single middle plate is halfway between the top and bottom plates if and only if the two gaps are equal |
| HardwarePlacementCalculator.ClipTopFourHingesOrdered | my-next-app/src/core/hardwarePlacementCalculator.ts:85-89 | with 4 hinges and top above bottom, the plates are strictly ordered top < middle 1 < middle 2 < bottom |
| HardwarePlacementCalculator.CalculateBlumTandemboxDrillPoints | my-next-app/src/core/hardwarePlacementCalculator.ts:102-163 | an unknown model gives three empty groups, and only an unknown model does; for M/B/D each group is a left/right mirrored pair; front bracket, side and bottom groups share the edge inset; the side pair sits at y = inset; the bottom pair sits the same inset from the back |
| HardwarePlacementCalculator.TandemboxConstants | my-next-app/src/core/hardwarePlacementCalculator.ts:118-160 | the exact points for M (37/9), B (42/12) and D (50/15) |
| HardwarePlacementCalculator.TandemboxIgnoresSlideLength | my-next-app/src/core/hardwarePlacementCalculator.ts:102-111 | the slide length never changes the drill points |
| ShakerDoorCalculator.CalculateShakerDoorParts | my-next-app/src/core/shakerDoorCalculator.ts:11-30 | three entries, Stile/Rail/Panel with quantities 2/2/1; stiles are stileWidth × full door height; stile + rail + stile spans the door width; rails are railWidth high; the panel is the rail length plus panelGap wide and fills the height between the rails plus panelGap |
| ShakerDoorCalculator.CalculateShakerDoorPartsDefault | my-next-app/src/core/shakerDoorCalculator.ts:15 | with the default panel gap of 2: the same stiles and rails as the general cut list, and a panel 2 wider than a rail and 2 taller than the height between the rails |
| ShakerDoorCalculator.CalculateShakerDoorComponents | my-next-app/src/core/shakerDoorCalculator.ts:39-67 | top rail = bottom rail = panel width, and stile + rail + stile spans the door width; stiles are full door height; rail + panel height + rail spans the door height |
| ShakerDoorCalculator.PartsAgreeWithComponents | my-next-app/src/core/shakerDoorCalculator.ts:11-58 | for the same door and widths (passed in opposite orders), the cut list's stile and rail equal the components; its panel is the components' panel plus panelGap in each axis |
| ShakerDoorCalculator.ZeroGapPanelsCoincide | my-next-app/src/core/shakerDoorCalculator.ts:22-23 | with panelGap 0 the two panels coincide |
| CalculatorExamples.SingleDoorExamples | my-next-app/tests/core/doorDrawerCalculator.test.ts:9-37 | 400×700 with overlay 18 → 436×736; overlay 0 → 400×700; 0×0 with overlay 18 → 36×36; overlay −5 → 390×690 |
| CalculatorExamples.DoubleDoorExamples | my-next-app/tests/core/doorDrawerCalculator.test.ts:41-77 | 266.5×736 for gap 3; 250×700 with no overlay or gap; 267.95×736 (not 268.95) for gap 0.1; 0×0 for an all-zero input |
| CalculatorExamples.ClipTopThresholdExamples | my-next-app/src/core/hardwarePlacementCalculator.ts:64-89 | heights 899/900/1599/1600 give 0/1/1/2 middle plates at the expected positions |
| CalculatorExamples.TandemboxUnknownModelExample | my-next-app/src/core/hardwarePlacementCalculator.ts:114-116 | model "X" gives three empty groups |
| CalculatorExamples.HingePlacementExample | my-next-app/src/core/hardwarePlacementCalculator.ts:38-44 | three hinges on a 700 door, 100 from each end, at 100, 350 and 600 |

## Left out

- `Cabinet` and `Project` (`src/core/types.ts:3-16`): no calculator reads or writes them.
- `next.config.mjs`: PWA and caching configuration, with no calculation in it.
- IEEE-754 rounding of JavaScript numbers: all arithmetic is exact over the reals.
- Non-integer hinge counts and cut quantities: `count` and `quantity` are `int`. A
  fractional count would run the source loop ⌈count⌉ times, and this is not modelled.
- The TypeScript literal types `"straight" | "cranked"` and `"M" | "B" | "D"`: the
  hinge type is a two-case datatype, which is enough because it is never read. The
  model is any string, so the empty-group fallback for other strings can be stated.
- The `pattern?` label is optional in `HardwareLocation`. Tandembox points carry no
  label in the source, so they are a separate `Point(x, y)` record.
