/** Door and drawer-front outer sizes from an opening and a fit style, and the
    single-entry cut lists built from them (`doorDrawerCalculator.ts`).
    No input is rejected: zero and negative values propagate through the arithmetic. */
module DoorDrawerCalculator {
  import opened CabinetTypes

  /** A door that fits `opening` under `options`: an inset door leaves a reveal of
      `gap` on every side, an overlay door covers the frame by `overlay` on every side. */
  function CalculateDoorDimensions(opening: OpeningDimensions, options: DoorOptions): (d: DoorDimensions)
    ensures options.fit == Inset ==>
      options.gap + d.width + options.gap == opening.width &&
      options.gap + d.height + options.gap == opening.height
    ensures options.fit == Overlay ==>
      d.width - options.overlay - options.overlay == opening.width &&
      d.height - options.overlay - options.overlay == opening.height
  {
    if options.fit == Inset then
      DoorDimensions(opening.width - options.gap * 2.0, opening.height - options.gap * 2.0)
    else
      DoorDimensions(opening.width + options.overlay * 2.0, opening.height + options.overlay * 2.0)
  }

  /** An inset door never reads `overlay`. */
  lemma InsetIgnoresOverlay(opening: OpeningDimensions, options: DoorOptions, otherOverlay: real)
    requires options.fit == Inset
    ensures CalculateDoorDimensions(opening, options.(overlay := otherOverlay))
         == CalculateDoorDimensions(opening, options)
  {
  }

  /** An overlay door never reads `gap`. */
  lemma OverlayIgnoresGap(opening: OpeningDimensions, options: DoorOptions, otherGap: real)
    requires options.fit == Overlay
    ensures CalculateDoorDimensions(opening, options.(gap := otherGap))
         == CalculateDoorDimensions(opening, options)
  {
  }

  /** An inset door with reveal `g` is the overlay door with overlay `-g`: the two
      fit styles are one formula with opposite signs. */
  lemma InsetIsNegativeOverlay(opening: OpeningDimensions, options: DoorOptions)
    requires options.fit == Inset
    ensures CalculateDoorDimensions(opening, options)
         == CalculateDoorDimensions(opening, DoorOptions(-options.gap, options.gap, Overlay))
  {
  }

  /** Wraps a door into a one-line cut list carrying its size, label and count unchanged. */
  function GetDoorMaterialCuts(door: DoorDimensions, partName: string, quantity: int): (cuts: seq<MaterialCut>)
    ensures |cuts| == 1
    ensures cuts[0].width == door.width && cuts[0].height == door.height
    ensures cuts[0].partName == partName && cuts[0].quantity == quantity
  {
    [MaterialCut(partName, door.width, door.height, quantity)]
  }

  /** `getDoorMaterialCuts` with its defaults: one piece labelled "Door". */
  function GetDoorMaterialCutsDefault(door: DoorDimensions): (cuts: seq<MaterialCut>)
    ensures cuts == [MaterialCut("Door", door.width, door.height, 1)]
  {
    GetDoorMaterialCuts(door, "Door", 1)
  }

  /** The drawer front's size: the fit-style arithmetic applied to the opening width and
      to `frontHeight` (not the opening height). */
  function DrawerFrontDimensions(opening: OpeningDimensions, options: DrawerOptions): (d: DoorDimensions)
  {
    if options.fit == Inset then
      DoorDimensions(opening.width - options.gap * 2.0, options.frontHeight - options.gap * 2.0)
    else
      DoorDimensions(opening.width + options.overlay * 2.0, options.frontHeight + options.overlay * 2.0)
  }

  /** A drawer front is cut like a door for an opening `frontHeight` tall. */
  function GetDrawerFrontMaterialCuts(opening: OpeningDimensions, options: DrawerOptions,
                                      partName: string, quantity: int): (cuts: seq<MaterialCut>)
    ensures cuts == GetDoorMaterialCuts(
      CalculateDoorDimensions(OpeningDimensions(opening.width, options.frontHeight),
                              DoorOptions(options.overlay, options.gap, options.fit)),
      partName, quantity)
  {
    var d := DrawerFrontDimensions(opening, options);
    [MaterialCut(partName, d.width, d.height, quantity)]
  }

  /** `getDrawerFrontMaterialCuts` with its defaults: one piece labelled "Drawer Front". */
  function GetDrawerFrontMaterialCutsDefault(opening: OpeningDimensions, options: DrawerOptions): (cuts: seq<MaterialCut>)
    ensures |cuts| == 1 && cuts[0].partName == "Drawer Front" && cuts[0].quantity == 1
    ensures cuts == GetDoorMaterialCuts(
      CalculateDoorDimensions(OpeningDimensions(opening.width, options.frontHeight),
                              DoorOptions(options.overlay, options.gap, options.fit)),
      "Drawer Front", 1)
  {
    GetDrawerFrontMaterialCuts(opening, options, "Drawer Front", 1)
  }

  /** Neither the opening's height nor the drawer box height affects the drawer front. */
  lemma DrawerFrontIgnoresHeights(opening: OpeningDimensions, options: DrawerOptions,
                                  partName: string, quantity: int, otherHeight: real, otherBox: real)
    ensures GetDrawerFrontMaterialCuts(opening.(height := otherHeight), options.(boxHeight := otherBox), partName, quantity)
         == GetDrawerFrontMaterialCuts(opening, options, partName, quantity)
  {
  }

  /** The overlay-only single door: the opening grown by `overlay` on every side,
      whatever the fit style and gap say. */
  function CalculateSingleDoor(opening: OpeningDimensions, options: DoorOptions): (d: DoorDimensions)
    ensures d == CalculateDoorDimensions(opening, options.(fit := Overlay))
  {
    DoorDimensions(opening.width + options.overlay * 2.0, opening.height + options.overlay * 2.0)
  }

  /** The single door reads neither `fit` nor `gap`. */
  lemma SingleDoorIgnoresFitAndGap(opening: OpeningDimensions, options: DoorOptions, fit: FitType, gap: real)
    ensures CalculateSingleDoor(opening, options.(fit := fit, gap := gap)) == CalculateSingleDoor(opening, options)
  {
  }

  /** A zero overlay leaves the opening's size; a negative overlay shrinks the door,
      a positive one grows it, equally in both axes. */
  lemma SingleDoorOverlaySign(opening: OpeningDimensions, options: DoorOptions)
    ensures options.overlay == 0.0 <==>
      CalculateSingleDoor(opening, options) == DoorDimensions(opening.width, opening.height)
    ensures options.overlay < 0.0 <==> CalculateSingleDoor(opening, options).width < opening.width
    ensures options.overlay < 0.0 <==> CalculateSingleDoor(opening, options).height < opening.height
  {
  }

  /** Splits one opening into a left and a right overlay door of equal size that,
      with `gapBetween` between them, span what a single overlay door would. */
  function CalculateDoubleDoors(opening: OpeningDimensions, options: DoorOptions, gapBetween: real)
    : (pair: (DoorDimensions, DoorDimensions))
    ensures pair.0 == pair.1
    ensures pair.0.width + gapBetween + pair.1.width == CalculateSingleDoor(opening, options).width
    ensures pair.0.height == CalculateSingleDoor(opening, options).height
  {
    var singleDoorWidth := (opening.width + options.overlay * 2.0 - gapBetween) / 2.0;
    var height := opening.height + options.overlay * 2.0;
    (DoorDimensions(singleDoorWidth, height), DoorDimensions(singleDoorWidth, height))
  }

  /** Double doors with no gap between them are each exactly half the single door. */
  lemma DoubleDoorsHalveSingleDoor(opening: OpeningDimensions, options: DoorOptions)
    ensures CalculateDoubleDoors(opening, options, 0.0).0.width * 2.0 == CalculateSingleDoor(opening, options).width
  {
  }

  /** Widening the centre gap by `delta` narrows each of the two doors by `delta / 2`. */
  lemma DoubleDoorsGapTradeoff(opening: OpeningDimensions, options: DoorOptions, gapBetween: real, delta: real)
    ensures CalculateDoubleDoors(opening, options, gapBetween + delta).0.width
         == CalculateDoubleDoors(opening, options, gapBetween).0.width - delta / 2.0
  {
  }
}
