/** Shaker (frame-and-panel) doors: a stile/rail/panel cut list with a panel
    expansion gap, and the nominal joinery lengths without it (`shakerDoorCalculator.ts`). */
module ShakerDoorCalculator {
  import opened CabinetTypes

  /** Default expansion gap added to the floating panel in each axis. */
  const DefaultPanelGap: real := 2.0

  /** The cut list of a shaker door: two full-height stiles, two rails spanning
      between the stiles, and one panel enlarged by `panelGap` in each axis. */
  function CalculateShakerDoorParts(door: DoorDimensions, railWidth: real, stileWidth: real,
                                    panelGap: real): (cuts: seq<MaterialCut>)
    ensures |cuts| == 3
    ensures cuts[0].partName == "Stile" && cuts[1].partName == "Rail" && cuts[2].partName == "Panel"
    ensures cuts[0].quantity == 2 && cuts[1].quantity == 2 && cuts[2].quantity == 1
    // the stiles run the door's full height and are `stileWidth` wide
    ensures cuts[0].width == stileWidth && cuts[0].height == door.height
    // a rail and the two stiles beside it make up the door's width
    ensures stileWidth + cuts[1].width + stileWidth == door.width && cuts[1].height == railWidth
    // the panel is the opening the frame leaves, plus the expansion gap
    ensures cuts[2].width == cuts[1].width + panelGap
    ensures railWidth + cuts[2].height + railWidth == door.height + panelGap
  {
    var stileHeight := door.height;
    var railLength := door.width - 2.0 * stileWidth;
    var panelWidth := door.width - 2.0 * stileWidth + panelGap;
    var panelHeight := door.height - 2.0 * railWidth + panelGap;
    [ MaterialCut("Stile", stileWidth, stileHeight, 2),
      MaterialCut("Rail", railLength, railWidth, 2),
      MaterialCut("Panel", panelWidth, panelHeight, 1) ]
  }

  /** `calculateShakerDoorParts` with the default 2 mm panel gap. */
  function CalculateShakerDoorPartsDefault(door: DoorDimensions, railWidth: real, stileWidth: real): (cuts: seq<MaterialCut>)
    ensures |cuts| == 3
    ensures cuts[0] == MaterialCut("Stile", stileWidth, door.height, 2)
    ensures stileWidth + cuts[1].width + stileWidth == door.width
    ensures cuts[1].partName == "Rail" && cuts[1].height == railWidth && cuts[1].quantity == 2
    ensures cuts[2].partName == "Panel" && cuts[2].quantity == 1
    ensures cuts[2].width == cuts[1].width + 2.0
    ensures railWidth + cuts[2].height + railWidth == door.height + 2.0
  {
    CalculateShakerDoorParts(door, railWidth, stileWidth, DefaultPanelGap)
  }

  /** Nominal joinery lengths of a shaker door. */
  datatype ShakerComponents = ShakerComponents(topRail: real, bottomRail: real, stiles: real,
                                               panelWidth: real, panelHeight: real)

  /** Rail, stile and panel lengths without an expansion gap: the rails and the panel
      fill the width left between the stiles, the panel the height left between the rails. */
  function CalculateShakerDoorComponents(door: DoorDimensions, stileWidth: real, railWidth: real)
    : (c: ShakerComponents)
    ensures c.topRail == c.bottomRail == c.panelWidth
    ensures stileWidth + c.topRail + stileWidth == door.width
    ensures c.stiles == door.height
    ensures railWidth + c.panelHeight + railWidth == door.height
  {
    var topRail := door.width - 2.0 * stileWidth;
    var bottomRail := topRail;
    var stiles := door.height;
    var panelWidth := door.width - 2.0 * stileWidth;
    var panelHeight := door.height - 2.0 * railWidth;
    ShakerComponents(topRail, bottomRail, stiles, panelWidth, panelHeight)
  }

  /** The cut list and the component lengths agree on everything but the panel, which
      the cut list enlarges by `panelGap` in each axis; note the two functions take the
      rail and stile widths in opposite orders. */
  lemma PartsAgreeWithComponents(door: DoorDimensions, stileWidth: real, railWidth: real, panelGap: real)
    ensures var cuts := CalculateShakerDoorParts(door, railWidth, stileWidth, panelGap);
      var c := CalculateShakerDoorComponents(door, stileWidth, railWidth);
      && cuts[0].height == c.stiles
      && cuts[1].width == c.topRail == c.bottomRail
      && cuts[2].width == c.panelWidth + panelGap
      && cuts[2].height == c.panelHeight + panelGap
  {
  }

  /** With no panel gap, the cut list's panel is exactly the nominal panel. */
  lemma ZeroGapPanelsCoincide(door: DoorDimensions, stileWidth: real, railWidth: real)
    ensures var cuts := CalculateShakerDoorParts(door, railWidth, stileWidth, 0.0);
      var c := CalculateShakerDoorComponents(door, stileWidth, railWidth);
      cuts[2].width == c.panelWidth && cuts[2].height == c.panelHeight
  {
  }
}
