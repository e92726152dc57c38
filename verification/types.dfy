/** Shared value records of the cabinet calculators (the interfaces of `types.ts`).
    Every measurement is an exact real number in one unit of length (commonly mm). */
module CabinetTypes {

  /** A value that may be absent, used for the optional fields and parameters. */
  datatype Option<+T> = None | Some(value: T) {

    /** The carried value, or `default` when absent (the `??` operator). */
    function GetOr(default: T): (r: T)
      ensures Some? ==> r == value
      ensures None? ==> r == default
    {
      match this
      case Some(v) => v
      case None => default
    }
  }

  /** How a door or drawer front fits its opening: inside it, or over its frame. */
  datatype FitType = Inset | Overlay

  /** The rough opening a door or drawer front must fit. */
  datatype OpeningDimensions = OpeningDimensions(width: real, height: real)

  /** Fit style of a door: `overlay` is used by the overlay style, `gap` by the inset style. */
  datatype DoorOptions = DoorOptions(overlay: real, gap: real, fit: FitType)

  /** Outer size of one door panel. */
  datatype DoorDimensions = DoorDimensions(width: real, height: real)

  /** Fit style of a drawer front; `frontHeight` is the face height, `boxHeight` the box's. */
  datatype DrawerOptions = DrawerOptions(boxHeight: real, frontHeight: real, overlay: real, gap: real, fit: FitType)

  /** A drilling or placement point in a part's own coordinates, with an optional label. */
  datatype HardwareLocation = HardwareLocation(x: real, y: real, pattern: Option<string>)

  /** One line of a cut list: `quantity` identical pieces of the given size. */
  datatype MaterialCut = MaterialCut(partName: string, width: real, height: real, quantity: int)
}
