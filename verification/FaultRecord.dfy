/** One fault record (`BasicFaultMgr`), and the proof that the change-driven updates of the power
    fault record keep exactly the faults reported since each was last reset. */
module FaultRecord {
  import opened FaultStatusBits

  /** The value of a fault record. */
  datatype Record = Record(
    summary: FaultBits, prev: FaultBits, current: FaultBits,
    enableMask: FaultBits, defaultMask: FaultBits,
    affectedFaults: FaultBits, affectedWarnInfo: FaultBits)

  const BLANK := Record({}, {}, {}, MASK_FAULTS, MASK_FAULTS, {}, {})

  // The constructor stores the warning mask over the fault mask and leaves the warning mask empty.
  const POWER_BLANK := BLANK.(affectedFaults := MASK_POWER_AFFECTED_WARNINGS)

  /** Report `faults` to the record: ignored when no enabled bit differs from the last report kept. */
  function Updated(r: Record, faults: FaultBits): (Record, bool) {
    var r1 := r.(current := faults);
    if Xor(r.prev, faults) * r.enableMask == {} then (r1, false)
    else (r1.(prev := faults, summary := (r.summary * r.defaultMask) + faults), true)
  }

  function Reset(r: Record, mask: FaultBits): Record {
    r.(summary := r.summary - mask, current := r.current - mask, prev := r.prev - mask)
  }

  function Enabled(r: Record, mask: FaultBits): Record { r.(enableMask := r.enableMask + mask) }

  /** The record after a loss of the TCP/IP connections. */
  function CommMasked(r: Record, mask: FaultBits): Record {
    var merged := (r.summary * r.defaultMask) + mask;
    r.(enableMask := r.enableMask + mask, affectedFaults := r.affectedFaults + mask,
       prev := r.current, summary := merged, current := merged)
  }

  /** `updateFaultStatus`: the new summary and the changed bits, both cut to 16 bits. */
  function FaultStatus(summary: FaultBits, enableMask: FaultBits, news: FaultBits,
                       warnInfo: FaultBits, affected: FaultBits): (FaultBits, FaultBits)
  {
    var affectedAll := affected + warnInfo;
    var updated := Xor(summary, (news * affectedAll) + (summary - warnInfo));
    (Low16(updated), Low16(enableMask * affectedAll * updated))
  }

  datatype Event = Report(faults: FaultBits) | ResetBits(mask: FaultBits) | EnableBits(mask: FaultBits)

  function Step(r: Record, e: Event): Record {
    match e
    case Report(f) => Updated(r, f).0
    case ResetBits(m) => Reset(r, m)
    case EnableBits(m) => Enabled(r, m)
  }

  function Run(r: Record, history: seq<Event>): Record {
    if history == [] then r
    else Step(Run(r, history[..|history| - 1]), history[|history| - 1])
  }

  /** `bit` was reported at position `k` and no later event resets it. */
  ghost predicate ReportedAndKept(history: seq<Event>, bit: FaultPos, k: int) {
    && 0 <= k < |history|
    && history[k].Report?
    && bit in history[k].faults
    && forall j | k < j < |history| && history[j].ResetBits? :: bit !in history[j].mask
  }

  ghost predicate ReportedSinceReset(history: seq<Event>, bit: FaultPos) {
    exists k :: ReportedAndKept(history, bit, k)
  }

  /** The last report kept is in the summary, every fault is enabled, and outside the fault mask the
      summary is the last report kept. */
  ghost predicate Valid(r: Record) {
    && r.prev <= r.summary
    && r.defaultMask <= r.enableMask
    && (forall p | p in r.summary && p !in r.defaultMask :: p in r.prev)
  }

  lemma StepKeepsValid(r: Record, e: Event)
    requires Valid(r)
    ensures Valid(Step(r, e)) && Step(r, e).defaultMask == r.defaultMask
    ensures Step(r, e).affectedFaults == r.affectedFaults && Step(r, e).affectedWarnInfo == r.affectedWarnInfo
  {}

  lemma {:induction false} HistoryStep(history: seq<Event>, e: Event, bit: FaultPos)
    ensures ReportedSinceReset(history + [e], bit) <==>
            match e
            case Report(f) => bit in f || ReportedSinceReset(history, bit)
            case ResetBits(m) => bit !in m && ReportedSinceReset(history, bit)
            case EnableBits(_) => ReportedSinceReset(history, bit)
  {
    var longer := history + [e];
    if k :| ReportedAndKept(longer, bit, k) {
      if k < |history| {
        assert forall j | k < j < |history| :: longer[j] == history[j];
        assert longer[|history|] == e;
        assert ReportedAndKept(history, bit, k);
      }
    }
    if k :| ReportedAndKept(history, bit, k) {
      assert (e.ResetBits? && bit in e.mask) || ReportedAndKept(longer, bit, k);
    }
    if e.Report? && bit in e.faults {
      assert ReportedAndKept(longer, bit, |history|);
    }
  }

  /** What one step does to one bit of the fault mask. */
  lemma StepOnBit(r: Record, e: Event, bit: FaultPos)
    requires Valid(r) && bit in r.defaultMask
    ensures bit in Step(r, e).summary <==>
            match e
            case Report(f) => bit in f || bit in r.summary
            case ResetBits(m) => bit !in m && bit in r.summary
            case EnableBits(_) => bit in r.summary
  {
    if e.Report? && Xor(r.prev, e.faults) * r.enableMask == {} {
      assert bit !in Xor(r.prev, e.faults) * r.enableMask;
    }
  }

  /** From an empty record, over any history, a fault bit is in the summary exactly when it was
      reported since its last reset, and any other bit only while it is in the last report kept. */
  lemma {:induction false} SummaryIsHistory(blank: Record, history: seq<Event>, bit: FaultPos)
    requires Valid(blank) && blank.summary == {}
    ensures var r := Run(blank, history);
            && Valid(r) && r.defaultMask == blank.defaultMask
            && (if bit in blank.defaultMask then bit in r.summary <==> ReportedSinceReset(history, bit)
                else bit in r.summary <==> bit in r.prev)
  {
    if history != [] {
      var last := |history| - 1;
      assert history == history[..last] + [history[last]];
      SummaryIsHistory(blank, history[..last], bit);
      HistoryStep(history[..last], history[last], bit);
      StepKeepsValid(Run(blank, history[..last]), history[last]);
      if bit in blank.defaultMask {
        StepOnBit(Run(blank, history[..last]), history[last], bit);
      }
    }
  }

  /** Whatever the masks: of the low 16 bits, one that was set comes out when it is a warning that is not reported
      now, and one that was not when it is reported and counts as a fault or warning. The changed bits are those
      of them that are enabled and count. */
  lemma FaultStatusIs(summary: FaultBits, enableMask: FaultBits, news: FaultBits, warnInfo: FaultBits,
                      affected: FaultBits, p: FaultPos)
    ensures var (status, changed) := FaultStatus(summary, enableMask, news, warnInfo, affected);
            && (p in status <==> p < 16 && if p in summary then p in warnInfo && p !in news
                                           else p in news && (p in affected || p in warnInfo))
            && (p in changed <==> p in status && p in enableMask && (p in affected || p in warnInfo))
  {}

  /** With the masks `PowerFaultMgr` really has, a status update of the global summary keeps none of
      the bits that were set: only a newly reported voltage warning comes out of it. */
  lemma GlobalStatusForgets(power: Record, summary: FaultBits, p: FaultPos)
    requires power.affectedFaults == MASK_POWER_AFFECTED_WARNINGS && power.affectedWarnInfo == {}
    ensures p in FaultStatus(summary, power.enableMask, power.current,
                             power.affectedWarnInfo, power.affectedFaults).0
            <==> p in { MOTOR_VOLTAGE_WARN, COMM_VOLTAGE_WARN } && p in power.current && p !in summary
  {
    assert p in MASK_POWER_AFFECTED_WARNINGS && p < 16 <==> p in { MOTOR_VOLTAGE_WARN, COMM_VOLTAGE_WARN };
  }

  /** A fault record updated in place. */
  class BasicFaultMgr {
    var summaryFaults: FaultBits
    var prevFaults: FaultBits
    var currentFaults: FaultBits
    var faultEnableMask: FaultBits
    var defaultFaultMask: FaultBits
    var affectedFaultsMask: FaultBits
    var affectedWarnInfoMask: FaultBits

    ghost function View(): Record
      reads this
    {
      Record(summaryFaults, prevFaults, currentFaults, faultEnableMask, defaultFaultMask,
             affectedFaultsMask, affectedWarnInfoMask)
    }

    constructor ()
      ensures View() == BLANK
    {
      summaryFaults, prevFaults, currentFaults := {}, {}, {};
      faultEnableMask := MASK_FAULTS;
      defaultFaultMask := MASK_FAULTS;
      affectedFaultsMask, affectedWarnInfoMask := {}, {};
    }

    constructor Power()
      ensures View() == POWER_BLANK
    {
      summaryFaults, prevFaults, currentFaults := {}, {}, {};
      faultEnableMask := MASK_FAULTS;
      defaultFaultMask := MASK_FAULTS;
      affectedWarnInfoMask := {};
      affectedFaultsMask := MASK_POWER_AFFECTED_FAULTS;
      affectedFaultsMask := MASK_POWER_AFFECTED_WARNINGS;
    }

    method SetCurrentFaults(faults: FaultBits)
      modifies this
      ensures View() == old(View()).(current := faults)
    {
      currentFaults := faults;
    }

    /** Together with `SetCurrentFaults` this is `Updated`. */
    method UpdateFaults() returns (changed: bool)
      modifies this
      ensures (View(), changed) == Updated(old(View()), old(currentFaults))
    {
      var diff := Xor(prevFaults, currentFaults) * faultEnableMask;
      if diff == {} {
        return false;
      }
      prevFaults := currentFaults;
      var summaryAndDefault := summaryFaults * defaultFaultMask;
      summaryFaults := summaryAndDefault + currentFaults;
      return true;
    }

    method ResetFaults(mask: FaultBits)
      modifies this
      ensures View() == Reset(old(View()), mask)
    {
      summaryFaults := summaryFaults - mask;
      currentFaults := currentFaults - mask;
      prevFaults := prevFaults - mask;
    }

    method UpdateSummary(newSummary: FaultBits)
      modifies this
      ensures View() == old(View()).(prev := old(currentFaults), summary := newSummary, current := newSummary)
    {
      prevFaults := currentFaults;
      summaryFaults := newSummary;
      currentFaults := summaryFaults;
    }

    method SetMaskComm(newFaultMask: FaultBits)
      modifies this
      ensures View() == CommMasked(old(View()), newFaultMask)
    {
      faultEnableMask := faultEnableMask + newFaultMask;
      affectedFaultsMask := affectedFaultsMask + newFaultMask;
      prevFaults := currentFaults;
      currentFaults := newFaultMask;
      summaryFaults := (summaryFaults * defaultFaultMask) + currentFaults;
      currentFaults := summaryFaults;
    }

    /** Add the enabled bits of `bits` to the summary; the result is the set of bits this added. */
    method MergeFaults(bits: FaultBits) returns (changed: FaultBits)
      modifies this
      ensures changed == (bits * faultEnableMask) - old(summaryFaults)
      ensures summaryFaults == old(summaryFaults) + changed
      ensures faultEnableMask == old(faultEnableMask) && defaultFaultMask == old(defaultFaultMask)
      ensures affectedFaultsMask == old(affectedFaultsMask)
      ensures affectedWarnInfoMask == old(affectedWarnInfoMask)
      ensures currentFaults == old(currentFaults) + bits * faultEnableMask
      ensures prevFaults == if bits * faultEnableMask == {} then old(prevFaults) else old(summaryFaults)
    {
      var bitsMask := faultEnableMask * bits;
      assert bitsMask == bits * faultEnableMask;
      if bitsMask == {} {
        return bitsMask;
      }
      var previous := summaryFaults;
      summaryFaults := summaryFaults + bitsMask;
      currentFaults := currentFaults + bitsMask;
      changed := Xor(summaryFaults, previous);
      prevFaults := previous;
    }

    method EnableFaultsInMask(mask: FaultBits) returns (changed: FaultBits)
      modifies this
      ensures View() == Enabled(old(View()), mask)
      ensures changed == mask - old(faultEnableMask)
    {
      var before := faultEnableMask;
      faultEnableMask := faultEnableMask + mask;
      changed := Xor(faultEnableMask, before);
    }
  }
}
