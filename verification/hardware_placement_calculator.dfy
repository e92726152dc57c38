/** Handle, hinge and brand-specific drilling coordinates (`hardwarePlacementCalculator.ts`).
    Coordinates are local to the part: x across the door from the hinge
    edge, y down the door from its top edge (y = height is the bottom edge). */
module HardwarePlacementCalculator {
  import opened CabinetTypes

  // ---------------------------------------------------------------------------
  // Handle

  /** The handle sits `offsetX` in from the right edge and `offsetY` in from the
      bottom edge (measured from the far corner `(door.width, door.height)`). */
  function CalculateHandlePlacement(door: DoorDimensions, offsetX: real, offsetY: real): (h: HardwareLocation)
    ensures h.x + offsetX == door.width && h.y + offsetY == door.height
    ensures h.pattern == Some("handle")
  {
    HardwareLocation(door.width - offsetX, door.height - offsetY, Some("handle"))
  }

  // ---------------------------------------------------------------------------
  // Evenly spaced hinges

  /** Height left between the first and last hinge. */
  function UsableHeight(door: DoorDimensions, edgeOffset: real): (u: real)
  {
    door.height - 2.0 * edgeOffset
  }

  /** The y of hinge `i` of `count` (count >= 2): linear interpolation from
      `edgeOffset` to `height - edgeOffset`. */
  function HingeY(door: DoorDimensions, count: int, edgeOffset: real, i: int): (y: real)
    requires count >= 2
  {
    edgeOffset + (UsableHeight(door, edgeOffset) * (i as real)) / ((count - 1) as real)
  }

  /** Hinge `i` of `count` on the hinge edge (x = 0). */
  function Hinge(door: DoorDimensions, count: int, edgeOffset: real, i: int): (h: HardwareLocation)
    requires count >= 2
  {
    HardwareLocation(0.0, HingeY(door, count, edgeOffset, i), Some("hinge"))
  }

  /** The hinges of a door: one centred hinge when `count < 2`, otherwise `count`
      hinges evenly spaced on the hinge edge. */
  function HingePlacements(door: DoorDimensions, count: int, edgeOffset: real): (hs: seq<HardwareLocation>)
    ensures count < 2 ==> hs == [HardwareLocation(0.0, door.height / 2.0, Some("hinge"))]
    ensures count >= 2 ==> |hs| == count
    ensures forall i :: 0 <= i < |hs| ==> hs[i].x == 0.0 && hs[i].pattern == Some("hinge")
  {
    if count < 2 then
      [HardwareLocation(0.0, door.height / 2.0, Some("hinge"))]
    else
      seq(count, i requires 0 <= i < count => Hinge(door, count, edgeOffset, i))
  }

  /** The placement loop of the source: pushes one hinge per index. */
  method CalculateHingePlacements(door: DoorDimensions, count: int, edgeOffset: real)
    returns (positions: seq<HardwareLocation>)
    ensures positions == HingePlacements(door, count, edgeOffset)
  {
    if count < 2 {
      return [HardwareLocation(0.0, door.height / 2.0, Some("hinge"))];
    }
    positions := [];
    var usableHeight := door.height - 2.0 * edgeOffset;
    var i := 0;
    while i < count
      invariant 0 <= i <= count
      invariant |positions| == i
      invariant forall j :: 0 <= j < i ==> positions[j] == Hinge(door, count, edgeOffset, j)
    {
      var y := edgeOffset + (usableHeight * (i as real)) / ((count - 1) as real);
      positions := positions + [HardwareLocation(0.0, y, Some("hinge"))];
      i := i + 1;
    }
  }

  /** With fewer than two hinges requested, `edgeOffset` is never read. */
  lemma SingleHingeIgnoresEdgeOffset(door: DoorDimensions, count: int, edgeOffset: real, otherOffset: real)
    requires count < 2
    ensures HingePlacements(door, count, edgeOffset) == HingePlacements(door, count, otherOffset)
  {
  }

  /** The first hinge is `edgeOffset` below the top edge (y = edgeOffset) and the last
      `edgeOffset` above the bottom edge (y = height - edgeOffset). */
  lemma HingeEndpoints(door: DoorDimensions, count: int, edgeOffset: real)
    requires count >= 2
    ensures HingePlacements(door, count, edgeOffset)[0].y == edgeOffset
    ensures HingePlacements(door, count, edgeOffset)[count - 1].y == door.height - edgeOffset
  {
    var hs := HingePlacements(door, count, edgeOffset);
    var c := (count - 1) as real;
    var u := UsableHeight(door, edgeOffset);
    assert hs[0].y == HingeY(door, count, edgeOffset, 0);
    assert hs[count - 1].y == HingeY(door, count, edgeOffset, count - 1);
    assert HingeY(door, count, edgeOffset, count - 1) == edgeOffset + (u * c) / c;
    assert (u * c) / c == u;
  }

  /** Division of a real by a non-zero real distributes over a difference. */
  lemma DivideDifference(a: real, b: real, c: real)
    requires c != 0.0
    ensures a / c - b / c == (a - b) / c
  {
  }

  /** Consecutive hinges are exactly `(height - 2 * edgeOffset) / (count - 1)` apart. */
  lemma HingeSpacing(door: DoorDimensions, count: int, edgeOffset: real, i: int)
    requires count >= 2 && 0 <= i < count - 1
    ensures HingePlacements(door, count, edgeOffset)[i + 1].y - HingePlacements(door, count, edgeOffset)[i].y
         == UsableHeight(door, edgeOffset) / ((count - 1) as real)
  {
    var c := (count - 1) as real;
    var u := UsableHeight(door, edgeOffset);
    assert u * ((i + 1) as real) - u * (i as real) == u;
    DivideDifference(u * ((i + 1) as real), u * (i as real), c);
  }

  /** Hinge `i` is `i` steps of `(height - 2 * edgeOffset) / (count - 1)` from the first
      (a signed step: further down only when height > 2 * edgeOffset). */
  lemma HingeYLinear(door: DoorDimensions, count: int, edgeOffset: real, k: int)
    requires count >= 2
    ensures HingeY(door, count, edgeOffset, k)
         == edgeOffset + (UsableHeight(door, edgeOffset) / ((count - 1) as real)) * (k as real)
  {
    var c := (count - 1) as real;
    var u := UsableHeight(door, edgeOffset);
    var step := u / c;
    assert u == step * c;
    assert u * (k as real) == (step * (k as real)) * c;
  }

  /** Multiplying by a positive step keeps a strict order. */
  lemma ScaleStrictlyMonotone(step: real, a: real, b: real)
    requires step > 0.0 && a < b
    ensures step * a < step * b
  {
    assert step * b - step * a == step * (b - a);
  }

  /** On a door taller than twice the edge offset, a later hinge is strictly further down (larger y). */
  lemma HingeYOrdered(door: DoorDimensions, count: int, edgeOffset: real, i: int, j: int)
    requires count >= 2 && door.height > 2.0 * edgeOffset && i < j
    ensures HingeY(door, count, edgeOffset, i) < HingeY(door, count, edgeOffset, j)
  {
    var step := UsableHeight(door, edgeOffset) / ((count - 1) as real);
    assert step > 0.0;
    HingeYLinear(door, count, edgeOffset, i);
    HingeYLinear(door, count, edgeOffset, j);
    ScaleStrictlyMonotone(step, i as real, j as real);
  }

  /** The hinge ys strictly increase, top edge to bottom edge, exactly when the usable
      height is positive, i.e. when the door is taller than twice the edge offset. */
  lemma HingesStrictlyIncreasing(door: DoorDimensions, count: int, edgeOffset: real)
    requires count >= 2
    ensures (forall i, j :: 0 <= i < j < count ==>
               HingePlacements(door, count, edgeOffset)[i].y < HingePlacements(door, count, edgeOffset)[j].y)
        <==> door.height > 2.0 * edgeOffset
  {
    var hs := HingePlacements(door, count, edgeOffset);
    var step := UsableHeight(door, edgeOffset) / ((count - 1) as real);
    if door.height > 2.0 * edgeOffset {
      assert step > 0.0;
      forall i, j | 0 <= i < j < count
        ensures hs[i].y < hs[j].y
      {
        assert hs[i].y == HingeY(door, count, edgeOffset, i);
        assert hs[j].y == HingeY(door, count, edgeOffset, j);
        HingeYOrdered(door, count, edgeOffset, i, j);
      }
    } else {
      HingeSpacing(door, count, edgeOffset, 0);
      assert !(hs[0].y < hs[1].y);
    }
  }

  /** The hinges are placed symmetrically: hinge `i` from the top and hinge `i`
      from the bottom are equally far from their edges. */
  lemma HingesSymmetric(door: DoorDimensions, count: int, edgeOffset: real, i: int)
    requires count >= 2 && 0 <= i < count
    ensures HingePlacements(door, count, edgeOffset)[i].y + HingePlacements(door, count, edgeOffset)[count - 1 - i].y
         == door.height
  {
    var c := (count - 1) as real;
    var u := UsableHeight(door, edgeOffset);
    var step := u / c;
    assert u == step * c;
    assert u * (i as real) == (step * (i as real)) * c;
    assert u * ((count - 1 - i) as real) == (step * ((count - 1 - i) as real)) * c;
  }

  // ---------------------------------------------------------------------------
  // Blum Clip Top hinge plates

  /** Hinge arm style; accepted but not used by the geometry. */
  datatype HingeType = Straight | Cranked

  /** Clip Top plate positions, measured down from the top edge of the door. */
  datatype ClipTopPlate = ClipTopPlate(topHinge: real, bottomHinge: real, middleHinges: Option<seq<real>>)

  const DefaultTopGap: real := 100.0
  const DefaultBottomGap: real := 100.0
  const MinHeightFor3: real := 900.0
  const MinHeightFor4: real := 1600.0

  /** Number of Clip Top hinges a door of `doorHeight` receives. */
  function ClipTopHingeCount(doorHeight: real): (n: int)
    ensures 2 <= n <= 4
    ensures n == 2 <==> doorHeight < MinHeightFor3
    ensures n == 4 <==> doorHeight >= MinHeightFor4
  {
    if doorHeight >= MinHeightFor4 then 4
    else if doorHeight >= MinHeightFor3 then 3
    else 2
  }

  /** A taller door never receives fewer hinges. */
  lemma ClipTopHingeCountMonotone(h1: real, h2: real)
    requires h1 <= h2
    ensures ClipTopHingeCount(h1) <= ClipTopHingeCount(h2)
  {
  }

  /** Clip Top plates: the top plate `topGap` (default 100) below the top edge, the
      bottom plate `bottomGap` (default 100) above the bottom edge, and 0, 1 or 2
      middle plates by door height. */
  function CalculateBlumClipTopHingePlate(doorHeight: real, hingeType: HingeType,
                                          topGap: Option<real>, bottomGap: Option<real>): (p: ClipTopPlate)
    ensures p.topHinge == topGap.GetOr(DefaultTopGap)
    ensures doorHeight - p.bottomHinge == bottomGap.GetOr(DefaultBottomGap)
    ensures p.middleHinges.None? <==> ClipTopHingeCount(doorHeight) == 2
    ensures p.middleHinges.Some? ==> |p.middleHinges.value| == ClipTopHingeCount(doorHeight) - 2
    ensures ClipTopHingeCount(doorHeight) == 3 ==> p.middleHinges.value[0] * 2.0 == doorHeight
    ensures ClipTopHingeCount(doorHeight) == 4 ==>
      var m := p.middleHinges.value;
      m[0] - p.topHinge == m[1] - m[0] == p.bottomHinge - m[1]
  {
    var tGap := topGap.GetOr(DefaultTopGap);
    var bGap := bottomGap.GetOr(DefaultBottomGap);
    var hingeCount := ClipTopHingeCount(doorHeight);
    var topHinge := tGap;
    var bottomHinge := doorHeight - bGap;
    var middleHinges :=
      if hingeCount == 3 then Some([doorHeight / 2.0])
      else if hingeCount == 4 then
        var span := bottomHinge - topHinge;
        Some([topHinge + span / 3.0, topHinge + (2.0 * span) / 3.0])
      else None;
    ClipTopPlate(topHinge, bottomHinge, middleHinges)
  }

  /** `calculateBlumClipTopHingePlate` with only the door height given. */
  function CalculateBlumClipTopHingePlateDefault(doorHeight: real): (p: ClipTopPlate)
    ensures p.topHinge == 100.0 && p.bottomHinge == doorHeight - 100.0
    ensures forall t: HingeType :: p == CalculateBlumClipTopHingePlate(doorHeight, t, Some(100.0), Some(100.0))
  {
    CalculateBlumClipTopHingePlate(doorHeight, Straight, None, None)
  }

  /** The hinge type never changes the plate positions. */
  lemma ClipTopIgnoresHingeType(doorHeight: real, t1: HingeType, t2: HingeType,
                                topGap: Option<real>, bottomGap: Option<real>)
    ensures CalculateBlumClipTopHingePlate(doorHeight, t1, topGap, bottomGap)
         == CalculateBlumClipTopHingePlate(doorHeight, t2, topGap, bottomGap)
  {
  }

  /** With three hinges the middle one is at half the door height, which is halfway
      between the top and bottom plates only when the two gaps are equal. */
  lemma ClipTopThreeHingeMidpoint(doorHeight: real, hingeType: HingeType,
                                  topGap: Option<real>, bottomGap: Option<real>)
    requires MinHeightFor3 <= doorHeight < MinHeightFor4
    ensures var p := CalculateBlumClipTopHingePlate(doorHeight, hingeType, topGap, bottomGap);
      p.middleHinges.value[0] - p.topHinge == p.bottomHinge - p.middleHinges.value[0]
      <==> topGap.GetOr(DefaultTopGap) == bottomGap.GetOr(DefaultBottomGap)
  {
  }

  /** With four hinges and the top plate above the bottom one, the middle plates lie
      strictly between them, in order. */
  lemma ClipTopFourHingesOrdered(doorHeight: real, hingeType: HingeType,
                                 topGap: Option<real>, bottomGap: Option<real>)
    requires doorHeight >= MinHeightFor4
    requires topGap.GetOr(DefaultTopGap) < doorHeight - bottomGap.GetOr(DefaultBottomGap)
    ensures var p := CalculateBlumClipTopHingePlate(doorHeight, hingeType, topGap, bottomGap);
      p.topHinge < p.middleHinges.value[0] < p.middleHinges.value[1] < p.bottomHinge
  {
  }

  // ---------------------------------------------------------------------------
  // Blum Tandembox drilling

  /** A drilling point without a label. */
  datatype Point = Point(x: real, y: real)

  /** The three drilling groups of a Tandembox drawer. */
  datatype TandemboxDrillPoints = TandemboxDrillPoints(frontBracket: seq<Point>, sideDrill: seq<Point>, bottomDrill: seq<Point>)

  /** Per-model constants: the inset from each side edge (also used front-to-back for
      the side and bottom groups) and the front bracket's offset. */
  datatype TandemboxPattern = TandemboxPattern(edgeInset: real, frontOffset: real)

  /** The constant table of the three known models. */
  function TandemboxTable(model: string): (k: Option<TandemboxPattern>)
  {
    if model == "M" then Some(TandemboxPattern(37.0, 9.0))
    else if model == "B" then Some(TandemboxPattern(42.0, 12.0))
    else if model == "D" then Some(TandemboxPattern(50.0, 15.0))
    else None
  }

  /** Two points at height `y`, `inset` in from the left and right edges. */
  function MirroredPair(width: real, inset: real, y: real): (g: seq<Point>)
  {
    [Point(inset, y), Point(width - inset, y)]
  }

  /** A group that is its own mirror image about the vertical centre line. */
  predicate IsMirroredPair(width: real, g: seq<Point>)
  {
    |g| == 2 && g[0].y == g[1].y && g[0].x + g[1].x == width
  }

  /** The model is one of M, B and D, the models with a constant table. */
  predicate KnownModel(model: string)
  {
    model == "M" || model == "B" || model == "D"
  }

  /** Tandembox drilling: for a known model, three left/right mirrored pairs; for any
      other model, three empty groups. */
  function CalculateBlumTandemboxDrillPoints(drawerBoxWidth: real, drawerBoxDepth: real,
                                             slideLength: real, model: string): (r: TandemboxDrillPoints)
    ensures !KnownModel(model) <==> r == TandemboxDrillPoints([], [], [])
    ensures KnownModel(model) ==>
      && IsMirroredPair(drawerBoxWidth, r.frontBracket)
      && IsMirroredPair(drawerBoxWidth, r.sideDrill)
      && IsMirroredPair(drawerBoxWidth, r.bottomDrill)
      && r.frontBracket[0].x == r.sideDrill[0].x == r.sideDrill[0].y == r.bottomDrill[0].x
      && r.bottomDrill[0].y == drawerBoxDepth - r.sideDrill[0].y
  {
    match TandemboxTable(model)
    case None => TandemboxDrillPoints([], [], [])
    case Some(k) =>
      TandemboxDrillPoints(
        MirroredPair(drawerBoxWidth, k.edgeInset, k.frontOffset),
        MirroredPair(drawerBoxWidth, k.edgeInset, k.edgeInset),
        MirroredPair(drawerBoxWidth, k.edgeInset, drawerBoxDepth - k.edgeInset))
  }

  /** The model constants: M is 37/9, B is 42/12, D is 50/15 (edge inset / front offset). */
  lemma TandemboxConstants(drawerBoxWidth: real, drawerBoxDepth: real, slideLength: real, model: string)
    requires KnownModel(model)
    ensures var r := CalculateBlumTandemboxDrillPoints(drawerBoxWidth, drawerBoxDepth, slideLength, model);
      var k := if model == "M" then 37.0 else if model == "B" then 42.0 else 50.0;
      var f := if model == "M" then 9.0 else if model == "B" then 12.0 else 15.0;
      && r.frontBracket == [Point(k, f), Point(drawerBoxWidth - k, f)]
      && r.sideDrill == [Point(k, k), Point(drawerBoxWidth - k, k)]
      && r.bottomDrill == [Point(k, drawerBoxDepth - k), Point(drawerBoxWidth - k, drawerBoxDepth - k)]
  {
  }

  /** The slide length never changes the drilling points. */
  lemma TandemboxIgnoresSlideLength(drawerBoxWidth: real, drawerBoxDepth: real, s1: real, s2: real, model: string)
    ensures CalculateBlumTandemboxDrillPoints(drawerBoxWidth, drawerBoxDepth, s1, model)
         == CalculateBlumTandemboxDrillPoints(drawerBoxWidth, drawerBoxDepth, s2, model)
  {
  }
}
