/** Concrete cases from the repository's tests and documented thresholds, stated as
    lemmas over the model. */
module CalculatorExamples {
  import opened CabinetTypes
  import opened DoorDrawerCalculator
  import opened HardwarePlacementCalculator
  import opened ShakerDoorCalculator

  /** Single doors: overlay 18, overlay 0, a zero opening and a negative overlay. */
  lemma SingleDoorExamples()
    ensures CalculateSingleDoor(OpeningDimensions(400.0, 700.0), DoorOptions(18.0, 2.0, Overlay))
         == DoorDimensions(436.0, 736.0)
    ensures CalculateSingleDoor(OpeningDimensions(400.0, 700.0), DoorOptions(0.0, 2.0, Overlay))
         == DoorDimensions(400.0, 700.0)
    ensures CalculateSingleDoor(OpeningDimensions(0.0, 0.0), DoorOptions(18.0, 2.0, Overlay))
         == DoorDimensions(36.0, 36.0)
    ensures CalculateSingleDoor(OpeningDimensions(400.0, 700.0), DoorOptions(-5.0, 2.0, Overlay))
         == DoorDimensions(390.0, 690.0)
  {
  }

  /** Double doors: gaps 3, 0 and 0.1, and an all-zero input. With gap 0.1 each door
      is (500 + 36 - 0.1) / 2 = 267.95 wide, not the 268.95 the test expects. */
  lemma DoubleDoorExamples()
    ensures CalculateDoubleDoors(OpeningDimensions(500.0, 700.0), DoorOptions(18.0, 2.0, Overlay), 3.0)
         == (DoorDimensions(266.5, 736.0), DoorDimensions(266.5, 736.0))
    ensures CalculateDoubleDoors(OpeningDimensions(500.0, 700.0), DoorOptions(0.0, 2.0, Overlay), 0.0)
         == (DoorDimensions(250.0, 700.0), DoorDimensions(250.0, 700.0))
    ensures CalculateDoubleDoors(OpeningDimensions(500.0, 700.0), DoorOptions(18.0, 2.0, Overlay), 0.1)
         == (DoorDimensions(267.95, 736.0), DoorDimensions(267.95, 736.0))
    ensures CalculateDoubleDoors(OpeningDimensions(500.0, 700.0), DoorOptions(18.0, 2.0, Overlay), 0.1).0.width
         != 268.95
    ensures CalculateDoubleDoors(OpeningDimensions(0.0, 0.0), DoorOptions(0.0, 2.0, Overlay), 0.0)
         == (DoorDimensions(0.0, 0.0), DoorDimensions(0.0, 0.0))
  {
  }

  /** Clip Top hinge counts at the threshold edges 899, 900, 1599 and 1600. */
  lemma ClipTopThresholdExamples()
    ensures CalculateBlumClipTopHingePlateDefault(899.0).middleHinges == None
    ensures CalculateBlumClipTopHingePlateDefault(900.0).middleHinges == Some([450.0])
    ensures CalculateBlumClipTopHingePlateDefault(1599.0).middleHinges == Some([799.5])
    ensures CalculateBlumClipTopHingePlateDefault(1600.0).middleHinges == Some([1700.0 / 3.0, 3100.0 / 3.0])
  {
  }

  /** An unrecognised Tandembox model yields three empty groups. */
  lemma TandemboxUnknownModelExample()
    ensures CalculateBlumTandemboxDrillPoints(400.0, 500.0, 450.0, "X") == TandemboxDrillPoints([], [], [])
  {
  }

  /** Three hinges on a 700 door, 100 in from each end, land at 100, 350 and 600. */
  lemma HingePlacementExample()
    ensures HingePlacements(DoorDimensions(400.0, 700.0), 3, 100.0)
         == [HardwareLocation(0.0, 100.0, Some("hinge")),
             HardwareLocation(0.0, 350.0, Some("hinge")),
             HardwareLocation(0.0, 600.0, Some("hinge"))]
  {
  }
}
