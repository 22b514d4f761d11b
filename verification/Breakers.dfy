/** The breakers by the bits of the input port, and what they do to a subsystem that is on. */
module Breakers {
  import opened ControlDefs
  import opened FaultStatusBits
  import opened PowerLogic
  import opened PowerRuns
  import opened PowerTrips

  predicate AllClosed(kind: PowerSystemType, input: InputPort) {
    match kind
    case MOTOR => forall p | 6 <= p <= 14 :: input[p]
    case COMM => input[15] && forall p | 24 <= p <= 28 :: input[p]
  }

  predicate TwoLow(a: bool, b: bool, c: bool) { (!a && !b) || (!a && !c) || (!b && !c) }

  /** Some feed has lost two breakers; a feed of comm has only two. */
  predicate FeedLost(kind: PowerSystemType, input: InputPort) {
    match kind
    case MOTOR =>
      || TwoLow(input[6], input[7], input[8]) || TwoLow(input[9], input[10], input[11])
      || TwoLow(input[12], input[13], input[14])
    case COMM => (!input[15] && !input[24]) || (!input[25] && !input[26]) || (!input[27] && !input[28])
  }

  lemma FeedStatusIs(feed: Feed, input: InputPort)
    requires 0 <= feed.bit0 < 32 && 0 <= feed.bit1 < 32 && (0 <= feed.bit2 < 32 || feed.bit2 == ALWAYS_HIGH)
    ensures var a, b := input[feed.bit0], input[feed.bit1];
            var c := feed.bit2 == ALWAYS_HIGH || input[feed.bit2];
            FeedStatus(feed, input) == if a && b && c then GOOD else if TwoLow(a, b, c) then FAULT else WARN
  {}

  /** Good if and only if every breaker of the subsystem is closed, a fault if and only if some feed has lost
      two, and otherwise a warning. */
  lemma BreakersAre(kind: PowerSystemType, input: InputPort)
    ensures BreakerStatus(kind, input) == GOOD <==> AllClosed(kind, input)
    ensures BreakerStatus(kind, input) == FAULT <==> FeedLost(kind, input)
    ensures BreakerStatus(kind, input) == WARN <==> !AllClosed(kind, input) && !FeedLost(kind, input)
  {
    hide FeedStatus;
    var feeds := Feeds(kind);
    FeedStatusIs(feeds[0], input);
    FeedStatusIs(feeds[1], input);
    FeedStatusIs(feeds[2], input);
  }

  /** An ON subsystem, within its limits and at operating voltage, with its output on: a lost feed turns it
      off with its breaker fault; any other open breaker only warns; with all closed neither is raised. */
  lemma LostFeedTrips(s: Sub, port: OutputPort, faults: FaultBits, now: real)
    requires SubInv(s, port, now) && s.targ == ON && s.actual == ON && OutputIsOn(s) && InLimits(s)
    requires Voltage(s) >= Cfg(s.kind).breakerOperatingVoltage
    ensures var o, input, cfg := Pass(s, port, faults, now), s.info.inputPort, Cfg(s.kind);
            && (FeedLost(s.kind, input) ==>
                  o.sub.targ == OFF && !o.port[cfg.powerOnPos] && cfg.breakerFault in o.faults)
            && (!FeedLost(s.kind, input) && Voltage(s) >= cfg.minVoltageFault ==> o.sub.targ == ON)
            && (cfg.breakerFault in o.faults <==> cfg.breakerFault in faults || FeedLost(s.kind, input))
            && (cfg.breakerWarn in o.faults <==>
                  cfg.breakerWarn in faults || (!AllClosed(s.kind, input) && !FeedLost(s.kind, input)))
  {
    hide Pass, BreakerStatus, AllClosed, FeedLost, SubInv, OutputIsOn;
    BreakersAre(s.kind, s.info.inputPort);
    PassTripsIff(s, port, faults, now);
    PassBitIff(s, port, faults, now);
    PassRaises(s, port, faults, now);
    StaysOrOff(s, port, faults, now);
  }

  lemma StaysOrOff(s: Sub, port: OutputPort, faults: FaultBits, now: real)
    requires SubInv(s, port, now) && s.targ == ON
    ensures Pass(s, port, faults, now).sub.targ in {ON, OFF} && s.phase in {1, 2}
  {
    hide PowerOnPass;
    PowerOnPassGood(s, port, faults, now);
  }
}
