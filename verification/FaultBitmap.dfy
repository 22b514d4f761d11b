/** A fault bitmap set bit by bit, and the masks that are built from one when they are first asked for. */
module FaultBitmap {
  import opened Options
  import opened FaultStatusBits

  class Bitmap {
    var bitmap: FaultBits

    constructor (bits: FaultBits)
      ensures bitmap == bits
    {
      bitmap := bits;
    }

    /** `setBit64`: a position outside the map is an error and changes nothing. */
    method SetBit(pos: int, set_: bool) returns (inRange: bool)
      modifies this
      ensures inRange == (0 <= pos < 64)
      ensures forall p: FaultPos :: p in bitmap <==> if p == pos then set_ else p in old(bitmap)
    {
      inRange := 0 <= pos < 64;
      if inRange {
        bitmap := if set_ then bitmap + {pos} else bitmap - {pos};
      }
    }

    /** `getBit`: a position outside the map reads as 0. */
    method GetBit(pos: int) returns (isSet: bool)
      ensures isSet <==> 0 <= pos < 64 && pos in bitmap
    {
      if pos < 0 || pos >= 64 {
        return false;
      }
      isSet := pos in bitmap;
    }

    /** One `setBitAt` after the other. */
    method SetBits(positions: seq<FaultPos>)
      modifies this
      ensures bitmap == old(bitmap) + (set p | p in positions)
    {
      for i := 0 to |positions|
        invariant bitmap == old(bitmap) + (set p | p in positions[..i])
      {
        assert positions[..i + 1] == positions[..i] + [positions[i]];
        var inRange := SetBit(positions[i], true);
      }
      assert positions[..|positions|] == positions;
    }
  }

  /** Masks cached once built. */
  class Masks {
    var openLoopControl: Option<FaultBits>
    var telemetryOnlyControl: Option<FaultBits>
    var faults: Option<FaultBits>

    ghost predicate Valid()
      reads this
    {
      && (openLoopControl == None || openLoopControl == Some(MASK_OPEN_LOOP_CONTROL))
      && (telemetryOnlyControl == None || telemetryOnlyControl == Some(MASK_TELEMETRY_ONLY_CONTROL))
      && (faults == None || faults == Some(MASK_FAULTS))
    }

    constructor ()
      ensures Valid()
    {
      openLoopControl, telemetryOnlyControl, faults := None, None, None;
    }

    method GetMaskOpenLoopControl() returns (mask: FaultBits)
      requires Valid()
      modifies this`openLoopControl
      ensures Valid() && mask == MASK_OPEN_LOOP_CONTROL && openLoopControl == Some(mask)
    {
      if openLoopControl == None {
        var fsm := new Bitmap({});
        fsm.SetBits([ACTUATOR_LIMIT_CL, INCLINOMETER_W_LUT, CRIO_TIMING_FAULT, INCLINOMETER_RANGE_ERR,
                     MIRROR_TEMP_SENSOR_FAULT, ELEVATION_ANGLE_DIFF_FAULT]);
        assert fsm.bitmap == MASK_OPEN_LOOP_CONTROL;
        openLoopControl := Some(fsm.bitmap);
      }
      mask := openLoopControl.value;
    }

    method GetMaskTelemetryOnlyControl() returns (mask: FaultBits)
      requires Valid()
      modifies this`openLoopControl, this`telemetryOnlyControl
      ensures Valid() && mask == MASK_TELEMETRY_ONLY_CONTROL && telemetryOnlyControl == Some(mask)
    {
      if telemetryOnlyControl == None {
        var inner := GetMaskOpenLoopControl();
        var fsm := new Bitmap(inner);
        fsm.SetBits([ACTUATOR_FAULT, EXCESSIVE_FORCE, MOTOR_VOLTAGE_FAULT, MOTOR_OVER_CURRENT,
                     MOTOR_MULTI_BREAKER_FAULT, AXIAL_ACTUATOR_ENCODER_RANGE_FAULT,
                     TANGENT_ACTUATOR_ENCODER_RANGE_FAULT, ILC_STATE_TRANSITION_FAULT]);
        assert fsm.bitmap == MASK_TELEMETRY_ONLY_CONTROL;
        telemetryOnlyControl := Some(fsm.bitmap);
      }
      mask := telemetryOnlyControl.value;
    }

    /** Whatever was built before, the mask is the same. */
    method GetMaskFaults() returns (mask: FaultBits)
      requires Valid()
      modifies this
      ensures Valid() && mask == MASK_FAULTS && faults == Some(mask)
    {
      if faults == None {
        var inner := GetMaskTelemetryOnlyControl();
        var fsm := new Bitmap(inner);
        fsm.SetBits([COMM_VOLTAGE_FAULT, COMM_OVER_CURRENT, POWER_RELAY_OPEN_FAULT, POWER_HEALTH_FAULT,
                     COMM_MULTI_BREAKER_FAULT, POWER_SUPPLY_LOAD_SHARE_ERR, INTERLOCK_FAULT,
                     TANGENT_LOAD_CELL_FAULT, LOSS_OF_TMA_COMM_ON_ENABLE_FAULT, CRIO_COMM_FAULT,
                     USER_GENERATED_FAULT, PARAMETER_FILE_READ_FAULT, POWER_SYSTEM_TIMEOUT]);
        assert fsm.bitmap == MASK_FAULTS;
        faults := Some(fsm.bitmap);
      }
      mask := faults.value;
    }
  }

  predicate IsFault(p: FaultPos) { p in MASK_FAULTS }
  predicate IsWarning(p: FaultPos) { p in MASK_WARN }
  predicate IsInfo(p: FaultPos) { p in MASK_INFO }

  lemma FaultsAre(p: FaultPos)
    ensures IsFault(p) <==>
            p in {3, 4, 6, 7, 9, 11, 13, 14, 15, 16, 17, 18, 20, 22, 23, 26, 27, 31, 32, 33, 35, 55, 56, 57, 59, 61, 63}
  {}

  lemma WarningsAre(p: FaultPos)
    ensures IsWarning(p) <==> p in {5, 8, 10, 12, 19, 21, 24, 25, 34, 58, 60, 62}
  {}

  lemma InfosAre(p: FaultPos)
    ensures IsInfo(p) <==> p in {0, 1, 2, 28, 29, 30}
  {}

  /** Every used position is in exactly one of the masks of faults, warnings and information. */
  lemma MasksPartition(p: FaultPos)
    ensures IsFault(p) || IsWarning(p) || IsInfo(p) <==> !(36 <= p < 55)
    ensures !(IsFault(p) && IsWarning(p)) && !(IsFault(p) && IsInfo(p)) && !(IsWarning(p) && IsInfo(p))
  {
    hide IsFault, IsWarning, IsInfo;
    FaultsAre(p);
    WarningsAre(p);
    InfosAre(p);
  }

  /** What can trip or block a power subsystem are faults, the subsystems share the relay fault alone. */
  lemma SubsystemMasksAreFaults()
    ensures forall p | p in MASK_MOTOR_SUBSYSTEM + MASK_COMM_SUBSYSTEM + MASK_HEALTH :: IsFault(p)
    ensures MASK_MOTOR_SUBSYSTEM * MASK_COMM_SUBSYSTEM == {POWER_RELAY_OPEN_FAULT}
  {
    hide IsFault;
    forall p | p in MASK_MOTOR_SUBSYSTEM + MASK_COMM_SUBSYSTEM + MASK_HEALTH
      ensures IsFault(p)
    {
      FaultsAre(p);
    }
  }
}
