/** The simulator as objects: two subsystems that share the output and the input port. */
module SimCore {
  import opened ControlDefs
  import opened PowerLogic
  import opened SimLogic

  /** A port shared by reference. */
  class Port {
    var bits: seq<bool>

    constructor (b: seq<bool>)
      ensures bits == b
    {
      bits := b;
    }
  }

  class SimPowerSubsystem {
    const systemType: PowerSystemType
    const outputPort: Port
    const inputPort: Port
    var voltage: real
    var current: real
    var breakerClosed: bool
    var breakerClosedPrev: bool
    var breakerClosedTarg: bool
    var breakerClosedTargTs: real
    var overVoltage: bool
    var overCurrent: bool

    ghost predicate Valid()
      reads outputPort, inputPort
    {
      outputPort != inputPort && |outputPort.bits| == 8 && |inputPort.bits| == 32
    }

    ghost function View(): SimSub
      reads this
    {
      SimSub(systemType, voltage, current, breakerClosed, breakerClosedPrev, breakerClosedTarg, breakerClosedTargTs,
             overVoltage, overCurrent)
    }

    constructor (start: SimSub, output: Port, input: Port)
      ensures View() == start && outputPort == output && inputPort == input
    {
      systemType, outputPort, inputPort := start.kind, output, input;
      voltage, current := start.voltage, start.current;
      breakerClosed, breakerClosedPrev := start.closed, start.closedPrev;
      breakerClosedTarg, breakerClosedTargTs := start.closedTarg, start.closedTargTs;
      overVoltage, overCurrent := start.overVoltage, start.overCurrent;
    }

    /** `calcBreakers`: the input bits are written only when the breaker has changed. */
    method CalcBreakers(ts: real)
      requires Valid()
      modifies this, inputPort
      ensures Valid()
      ensures (View(), inputPort.bits) == BreakersCalculated(old(View()), outputPort.bits, old(inputPort.bits), ts)
    {
      var newTarg := outputPort.bits[Cfg(systemType).breakerPos];
      if newTarg != breakerClosedTarg {
        breakerClosedTargTs := ts;
        breakerClosedTarg := newTarg;
      }
      if !breakerClosed {
        if breakerClosedTarg {
          if ts - breakerClosedTargTs > BreakerCloseTime(systemType) {
            breakerClosed := true;
          }
        }
      } else if !breakerClosedTarg {
        breakerClosed := false;
      }
      if breakerClosed != breakerClosedPrev {
        breakerClosedPrev := breakerClosed;
        WriteBreakerBits(breakerClosed);
      }
    }

    /** Every breaker bit of the input port, and no other, gets `value`. */
    method WriteBreakerBits(value: bool)
      requires Valid()
      modifies inputPort
      ensures Valid() && inputPort.bits == BitsWritten(old(inputPort.bits), BreakerPositions(systemType), value)
    {
      var positions := BreakerPositions(systemType);
      ghost var before := inputPort.bits;
      for i := 0 to |positions|
        invariant Valid() && outputPort.bits == old(outputPort.bits)
        invariant forall k | 0 <= k < 32 :: inputPort.bits[k] == if k in positions[..i] then value else before[k]
      {
        inputPort.bits := inputPort.bits[positions[i] := value];
        assert positions[..i + 1] == positions[..i] + [positions[i]];
      }
      assert positions[..|positions|] == positions;
    }

    /** `calcVoltageCurrent`: clamped after each change. */
    method CalcVoltageCurrent(timeDiff: real)
      requires Valid()
      modifies this
      ensures View() == VoltageCalculated(old(View()), outputPort.bits[Cfg(systemType).powerOnPos], timeDiff)
    {
      if outputPort.bits[Cfg(systemType).powerOnPos] {
        var voltNom := if overVoltage then Cfg(systemType).nominalVoltage * 10.0 else Cfg(systemType).nominalVoltage;
        if voltage < voltNom {
          voltage := voltage + Rise(systemType, timeDiff);
          if voltage > voltNom {
            voltage := voltNom;
          }
        }
        if voltage > voltNom {
          voltage := voltNom;
        }
      } else {
        if voltage > 0.0 {
          voltage := voltage - Fall(systemType, timeDiff);
        }
        if voltage < 0.0 {
          voltage := 0.0;
        }
      }
      if breakerClosed {
        current := Load(systemType, voltage);
        if overCurrent {
          current := current * 10.0;
        }
      } else {
        current := 0.0;
      }
    }
  }

  class SimCore {
    const outputPort: Port
    const inputPort: Port
    const motorSub: SimPowerSubsystem
    const commSub: SimPowerSubsystem
    var newOutput: OutputPort
    var simInfo: SysInfo
    var iterations: nat
    var prevTimeStamp: real

    ghost predicate Valid()
      reads outputPort, inputPort
    {
      && motorSub.systemType == MOTOR && commSub.systemType == COMM
      && motorSub.outputPort == outputPort && motorSub.inputPort == inputPort && motorSub.Valid()
      && commSub.outputPort == outputPort && commSub.inputPort == inputPort
    }

    ghost function View(): Sim
      requires Valid()
      reads this, outputPort, inputPort, motorSub, commSub
    {
      Sim(newOutput, outputPort.bits, inputPort.bits, motorSub.View(), commSub.View(), simInfo, iterations,
          prevTimeStamp)
    }

    constructor (start: Sim)
      requires start.motor.kind == MOTOR && start.comm.kind == COMM
      ensures Valid() && View() == start
      ensures fresh({outputPort, inputPort, motorSub, commSub})
    {
      var output := new Port(start.output);
      var input := new Port(start.input);
      outputPort, inputPort := output, input;
      motorSub := new SimPowerSubsystem(start.motor, output, input);
      commSub := new SimPowerSubsystem(start.comm, output, input);
      newOutput, simInfo, iterations, prevTimeStamp := start.newOutput, start.info, start.iterations, start.prevTs;
    }

    method SetNewOutputPort(port: OutputPort)
      requires Valid()
      modifies this`newOutput
      ensures Valid() && View() == old(View()).(newOutput := port)
    {
      newOutput := port;
    }

    /** One round of the loop of `_simRun` at time `timestamp`. */
    method SimRunOnce(timestamp: real)
      requires Valid()
      modifies this, outputPort, inputPort, motorSub, commSub
      ensures Valid() && View() == Iterated(old(View()), timestamp)
    {
      hide BreakersCalculated, VoltageCalculated;
      outputPort.bits := newOutput;
      var timeDiff := timestamp - prevTimeStamp;
      motorSub.CalcBreakers(timestamp);
      motorSub.CalcVoltageCurrent(timeDiff);
      commSub.CalcBreakers(timestamp);
      commSub.CalcVoltageCurrent(timeDiff);
      simInfo := SysInfo(outputPort.bits, inputPort.bits, motorSub.voltage, motorSub.current, motorSub.breakerClosed,
                         commSub.voltage, commSub.current, commSub.breakerClosed, iterations, timestamp);
      iterations := iterations + 1;
      prevTimeStamp := timestamp;
    }
  }
}
