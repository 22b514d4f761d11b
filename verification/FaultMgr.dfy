/** The fault manager: the records of the power system, of the telemetry and of the whole system, and
    the flag for a lost TCP/IP connection. */
module FaultMgr {
  import opened FaultStatusBits
  import opened FaultRecord

  datatype Faults = Faults(power: Record, telemetry: Record, summary: Record, commFault: bool)

  const INITIAL := Faults(POWER_BLANK, BLANK, BLANK, true)

  /** `updatePowerFaults`: the new records, and whether the model must go to safe mode. */
  function PowerUpdated(f: Faults, current: FaultBits): (Faults, bool) {
    var (power, changed) := Updated(f.power, current);
    if !changed then (f.(power := power), false)
    else
      var status := FaultStatus(f.summary.summary, power.enableMask, power.current,
                                power.affectedWarnInfo, power.affectedFaults).0;
      var summary := if status == f.summary.summary then f.summary
                     else f.summary.(prev := f.summary.current, summary := status, current := status);
      (f.(power := power, summary := summary), current * MASK_HEALTH != {})
  }

  function AllReset(f: Faults, mask: FaultBits): Faults {
    f.(power := Reset(f.power, mask), telemetry := Reset(f.telemetry, mask), summary := Reset(f.summary, mask))
  }

  function AllEnabled(f: Faults, mask: FaultBits): Faults {
    f.(power := Enabled(f.power, mask), telemetry := Enabled(f.telemetry, mask),
       summary := Enabled(f.summary, mask))
  }

  /** The records after `count` connections are reported; with none, the model also goes to safe mode. */
  function ConnectionsReported(f: Faults, count: nat): Faults {
    if count < 1 then f.(commFault := true, summary := CommMasked(f.summary, {CRIO_COMM_FAULT}))
    else AllReset(f.(commFault := false), {CRIO_COMM_FAULT})
  }

  /** Power of a subsystem with fault mask `mask` may not be turned on. */
  predicate Blocked(f: Faults, mask: FaultBits) {
    f.commFault || mask * f.power.enableMask * (f.power.current + f.power.summary) != {}
  }

  /** The lost connection blocks, and so does any enabled fault of the mask that is current or latched in the power
      record; nothing else does. */
  lemma BlockedIff(f: Faults, mask: FaultBits)
    ensures Blocked(f, mask) <==>
            || f.commFault
            || exists p | p in mask :: p in f.power.enableMask && (p in f.power.current || p in f.power.summary)
  {
    var bits := mask * f.power.enableMask * (f.power.current + f.power.summary);
    if bits != {} {
      var p :| p in bits;
      assert p in mask && p in f.power.enableMask && (p in f.power.current || p in f.power.summary);
    }
    if p :| p in mask && p in f.power.enableMask && (p in f.power.current || p in f.power.summary) {
      assert p in bits;
    }
  }

  ghost predicate Valid(f: Faults) {
    && FaultRecord.Valid(f.power)
    && f.power.defaultMask == MASK_FAULTS
    && f.power.affectedFaults == MASK_POWER_AFFECTED_WARNINGS && f.power.affectedWarnInfo == {}
  }

  /** A reported fault is latched: from then on it blocks every mask that contains it. */
  lemma ReportLatches(f: Faults, current: FaultBits, mask: FaultBits, bit: FaultPos)
    requires Valid(f) && bit in MASK_FAULTS && bit in mask
    requires bit in current || bit in f.power.summary
    ensures Valid(PowerUpdated(f, current).0) && bit in PowerUpdated(f, current).0.power.summary
    ensures Blocked(PowerUpdated(f, current).0, mask)
  {
    StepKeepsValid(f.power, Report(current));
    StepOnBit(f.power, Report(current), bit);
    var g := PowerUpdated(f, current).0;
    assert bit in mask * g.power.enableMask * (g.power.current + g.power.summary);
  }

  lemma EventsKeepValid(f: Faults, bits: FaultBits, count: nat)
    requires Valid(f)
    ensures Valid(PowerUpdated(f, bits).0) && Valid(AllReset(f, bits)) && Valid(AllEnabled(f, bits))
    ensures Valid(ConnectionsReported(f, count))
    ensures bits == {} && f.power.prev == {} ==> PowerUpdated(f, bits) == (f.(power := f.power.(current := {})), false)
  {
    StepKeepsValid(f.power, Report(bits));
    StepKeepsValid(f.power, ResetBits(bits));
    StepKeepsValid(f.power, ResetBits({CRIO_COMM_FAULT}));
    StepKeepsValid(f.power, EnableBits(bits));
  }

  /** What a power report that differs from the last one in an enabled bit leaves of the global summary. */
  lemma PowerReportClearsGlobalSummary(f: Faults, current: FaultBits, p: FaultPos)
    requires Valid(f) && Xor(f.power.prev, current) * f.power.enableMask != {}
    ensures p in PowerUpdated(f, current).0.summary.summary <==>
            p in { MOTOR_VOLTAGE_WARN, COMM_VOLTAGE_WARN } && p in current && p !in f.summary.summary
  {
    GlobalStatusForgets(Updated(f.power, current).0, f.summary.summary, p);
  }

  /** The global summary does not latch: a power report drops a fault it holds if and only if the report
      differs from the last one kept in an enabled bit, whichever. */
  lemma GlobalFaultIsDroppedIff(f: Faults, current: FaultBits, p: FaultPos)
    requires Valid(f) && p in f.summary.summary
    ensures p !in PowerUpdated(f, current).0.summary.summary <==>
            Xor(f.power.prev, current) * f.power.enableMask != {}
  {
    if Xor(f.power.prev, current) * f.power.enableMask != {} {
      PowerReportClearsGlobalSummary(f, current, p);
    }
  }

  /** From the constructor: the connections are lost, which the global summary shows, until any power fault is
      reported. */
  lemma LostConnectionIsForgotten()
    ensures var lost := ConnectionsReported(INITIAL, 0);
            && CRIO_COMM_FAULT in lost.summary.summary
            && CRIO_COMM_FAULT !in PowerUpdated(lost, {COMM_VOLTAGE_FAULT}).0.summary.summary
  {
    var lost := ConnectionsReported(INITIAL, 0);
    assert lost.power == POWER_BLANK && Valid(INITIAL);
    EventsKeepValid(INITIAL, {}, 0);
    assert CRIO_COMM_FAULT in lost.summary.summary;
    assert COMM_VOLTAGE_FAULT in Xor(lost.power.prev, {COMM_VOLTAGE_FAULT}) * lost.power.enableMask;
    GlobalFaultIsDroppedIff(lost, {COMM_VOLTAGE_FAULT}, CRIO_COMM_FAULT);
  }

  /** A power report is the current one whatever it holds. When it differs from the last one kept in an enabled bit it
      is kept, joins the faults of the power summary, and the global status is made anew; a status that comes out
      as it was leaves the global record alone. Otherwise nothing else changes. */
  lemma PowerReportIs(f: Faults, current: FaultBits, p: FaultPos)
    ensures var g := PowerUpdated(f, current).0;
            && g.power.current == current && g.telemetry == f.telemetry && g.commFault == f.commFault
            && g.power.enableMask == f.power.enableMask && g.summary.enableMask == f.summary.enableMask
            && (if Xor(f.power.prev, current) * f.power.enableMask == {} then
                  g.power.prev == f.power.prev && g.power.summary == f.power.summary && g.summary == f.summary
                else
                  && g.power.prev == current
                  && (p in g.power.summary <==> p in current || (p in f.power.summary && p in f.power.defaultMask))
                  && (g.summary == f.summary || (g.summary.current == g.summary.summary != f.summary.summary
                                                 && g.summary.prev == f.summary.current)))
  {}

  /** With no connection the global summary keeps its faults and has the lost connection; with one the lost
      connection is out of every record and nothing else is. The power record sees only the second. */
  lemma ConnectionsAre(f: Faults, count: nat, p: FaultPos)
    ensures var g := ConnectionsReported(f, count);
            && g.commFault == (count == 0)
            && (count == 0 ==>
                  && g.power == f.power && g.telemetry == f.telemetry
                  && (p in g.summary.summary <==>
                        p == CRIO_COMM_FAULT || (p in f.summary.summary && p in f.summary.defaultMask))
                  && g.summary.current == g.summary.summary && g.summary.prev == f.summary.current
                  && g.summary.enableMask == f.summary.enableMask + {CRIO_COMM_FAULT})
            && (count > 0 ==>
                  && CRIO_COMM_FAULT !in g.power.summary + g.telemetry.summary + g.summary.summary
                  && CRIO_COMM_FAULT !in g.power.current + g.telemetry.current + g.summary.current
                  && CRIO_COMM_FAULT !in g.power.prev + g.telemetry.prev + g.summary.prev
                  && (p != CRIO_COMM_FAULT ==>
                        && (p in g.summary.summary <==> p in f.summary.summary)
                        && (p in g.power.summary <==> p in f.power.summary)
                        && (p in g.telemetry.summary <==> p in f.telemetry.summary)))
  {}

  /** A reset takes exactly its mask out of all three summaries, and an enable adds exactly its mask. */
  lemma ResetAndEnableAre(f: Faults, mask: FaultBits, p: FaultPos)
    ensures var g := AllReset(f, mask);
            && (p in g.power.summary <==> p in f.power.summary && p !in mask)
            && (p in g.telemetry.summary <==> p in f.telemetry.summary && p !in mask)
            && (p in g.summary.summary <==> p in f.summary.summary && p !in mask)
            && g.commFault == f.commFault && g.power.enableMask == f.power.enableMask
    ensures var g := AllEnabled(f, mask);
            && (p in g.power.enableMask <==> p in f.power.enableMask || p in mask)
            && (p in g.telemetry.enableMask <==> p in f.telemetry.enableMask || p in mask)
            && (p in g.summary.enableMask <==> p in f.summary.enableMask || p in mask)
            && g.commFault == f.commFault && g.power.summary == f.power.summary
  {}

  class FaultMgr {
    const powerFaultMgr: BasicFaultMgr
    const telemetryFaultMgr: BasicFaultMgr
    const summarySystemFaultsStatus: BasicFaultMgr
    var commConnectionFault: bool

    ghost function Repr(): set<object> {
      { this, powerFaultMgr, telemetryFaultMgr, summarySystemFaultsStatus }
    }

    ghost predicate Separate() {
      && powerFaultMgr != telemetryFaultMgr
      && powerFaultMgr != summarySystemFaultsStatus
      && telemetryFaultMgr != summarySystemFaultsStatus
    }

    ghost function View(): Faults
      reads Repr()
    {
      Faults(powerFaultMgr.View(), telemetryFaultMgr.View(), summarySystemFaultsStatus.View(),
             commConnectionFault)
    }

    constructor ()
      ensures View() == INITIAL && Separate() && fresh(Repr())
    {
      powerFaultMgr := new BasicFaultMgr.Power();
      telemetryFaultMgr := new BasicFaultMgr();
      summarySystemFaultsStatus := new BasicFaultMgr();
      commConnectionFault := true;
    }

    method ResetFaults(resetMask: FaultBits)
      requires Separate()
      modifies Repr()
      ensures View() == AllReset(old(View()), resetMask)
    {
      powerFaultMgr.ResetFaults(resetMask);
      telemetryFaultMgr.ResetFaults(resetMask);
      summarySystemFaultsStatus.ResetFaults(resetMask);
    }

    /** The call to the model is left to the caller: `goSafe` is set where the program makes it. */
    method ReportComConnectionCount(count: nat) returns (goSafe: bool)
      requires Separate()
      modifies Repr()
      ensures View() == ConnectionsReported(old(View()), count) && goSafe == (count < 1)
    {
      commConnectionFault := count < 1;
      var commMask: FaultBits := {CRIO_COMM_FAULT};
      if commConnectionFault {
        summarySystemFaultsStatus.SetMaskComm(commMask);
        goSafe := true;
      } else {
        ResetFaults(commMask);
        goSafe := false;
      }
    }

    method UpdatePowerFaults(currentFaults: FaultBits) returns (goSafe: bool)
      requires Separate()
      modifies Repr()
      ensures (View(), goSafe) == PowerUpdated(old(View()), currentFaults)
    {
      powerFaultMgr.SetCurrentFaults(currentFaults);
      var changed := powerFaultMgr.UpdateFaults();
      if !changed {
        return false;
      }
      var currentHealthFaults := currentFaults * MASK_HEALTH;
      goSafe := currentHealthFaults != {};
      var (nSummary, _) := FaultStatus(
        summarySystemFaultsStatus.summaryFaults, powerFaultMgr.faultEnableMask, powerFaultMgr.currentFaults,
        powerFaultMgr.affectedWarnInfoMask, powerFaultMgr.affectedFaultsMask);
      if nSummary != summarySystemFaultsStatus.summaryFaults {
        summarySystemFaultsStatus.UpdateSummary(nSummary);
      }
    }

    method CheckForPowerSubsystemFaults(subsystemMask: FaultBits) returns (faultFound: bool)
      ensures faultFound == Blocked(View(), subsystemMask)
    {
      faultFound := commConnectionFault;
      var faultBitmap := subsystemMask * powerFaultMgr.faultEnableMask *
                         (powerFaultMgr.currentFaults + powerFaultMgr.summaryFaults);
      if !faultFound {
        faultFound := faultBitmap != {};
      }
    }

    method EnableFaultsInMask(mask: FaultBits) returns (changed: FaultBits)
      requires Separate()
      modifies Repr()
      ensures View() == AllEnabled(old(View()), mask)
      ensures changed == mask - old(summarySystemFaultsStatus.faultEnableMask)
    {
      changed := summarySystemFaultsStatus.EnableFaultsInMask(mask);
      var p := powerFaultMgr.EnableFaultsInMask(mask);
      var t := telemetryFaultMgr.EnableFaultsInMask(mask);
    }
  }
}
