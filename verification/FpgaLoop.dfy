/** The loop between the controller and the simulator, as calls on the objects. */
module FpgaLoop {
  import opened ControlDefs
  import opened SimLogic
  import opened CellLogic
  import opened LoopLogic
  import Model
  import PowerSubsystem
  import SimCore

  /** One round of `_readWriteFpga`: the port goes out and the latest snapshot comes in. Without a power
      system to check breakers and limits, the power bits are lowered first. */
  method ReadWriteOnce(io: PowerSubsystem.FpgaIo, sim: SimCore.SimCore, powerSysRegistered: bool)
    requires sim.Valid()
    modifies io, sim`newOutput
    ensures sim.Valid() && sim.View() == old(sim.View()).(newOutput := io.outputPort)
    ensures io.sysInfo == sim.View().info
    ensures powerSysRegistered ==> io.outputPort == old(io.outputPort)
    ensures !powerSysRegistered ==> !io.outputPort[MOTOR_POWER_ON] && !io.outputPort[ILC_COMM_POWER_ON]
  {
    if !powerSysRegistered {
      io.EmergencyTurnOffAllPower();
    }
    sim.SetNewOutputPort(io.outputPort);
    io.sysInfo := sim.simInfo;
  }

  /** The objects as one loop, with `queued` reads on the event thread. */
  ghost function View(model: Model.Model, sim: SimCore.SimCore, queued: nat): Loop
    requires sim.Valid()
    reads model, model.Repr(), sim, sim.outputPort, sim.inputPort, sim.motorSub, sim.commSub
  {
    Loop(model.View(), sim.View(), model.fpgaIo.sysInfo, queued, model.daqReadTime)
  }

  /** A round with the power system registered: it queues a read. */
  method Round(model: Model.Model, sim: SimCore.SimCore, ghost queued: nat, now: real)
    requires model.Valid() && sim.Valid()
    modifies model.fpgaIo, sim`newOutput
    ensures model.Valid() && sim.Valid()
    ensures View(model, sim, queued + 1) == After(old(View(model, sim, queued)), Exchange(now))
  {
    ReadWriteOnce(model.fpgaIo, sim, true);
  }

  /** The event thread carries out a queued read. */
  method QueuedRead(model: Model.Model, sim: SimCore.SimCore, ghost queued: nat, now: real)
    requires model.Valid() && sim.Valid() && queued > 0
    modifies model`daqReadTime, model.Parts(), model.fpgaIo`outputPort
    ensures model.Valid() && sim.Valid()
    ensures View(model, sim, queued - 1) == After(old(View(model, sim, queued)), Read(now))
  {
    hide DaqRead, SimCore.SimCore.View, Model.Model.View;
    model.DaqInfoRead(SYS_INFO_TIMEOUT, now);
  }

  /** The event thread carries out a time-out check. */
  method QueuedCheck(model: Model.Model, sim: SimCore.SimCore, ghost queued: nat, now: real)
    requires model.Valid() && sim.Valid()
    modifies model.Parts(), model.fpgaIo`outputPort
    ensures model.Valid() && sim.Valid()
    ensures View(model, sim, queued) == After(old(View(model, sim, queued)), Check(now))
  {
    hide DaqRead, SimCore.SimCore.View, Model.Model.View;
    model.DaqTimeoutCheck(SYS_INFO_TIMEOUT, now);
  }
}
