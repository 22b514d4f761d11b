/** Enumerations, port bitmaps and the hardware snapshot shared by the power control modules. */
module ControlDefs {

  datatype PowerSystemType = MOTOR | COMM

  datatype PowerState = UNKNOWN | OFF | TURNING_ON | RESET | ON | TURNING_OFF

  // The enumerators are ordered from worst to best, as their integer values are in the program.
  datatype SysStatus = CRITICAL | FAULT | WARN | GOOD | WAITING {
    function Rank(): int {
      match this
      case CRITICAL => -3
      case FAULT => -2
      case WARN => -1
      case GOOD => 0
      case WAITING => 1
    }
  }

  // Bit positions of the 8-bit output port.
  const MOTOR_POWER_ON := 0
  const ILC_COMM_POWER_ON := 1
  const CRIO_INTERLOCK_ENABLE := 2
  const RESET_MOTOR_BREAKERS := 3
  const RESET_COMM_BREAKERS := 4

  // Bit positions of the 32-bit input port that the power system reads.
  const REDUNDANCY_OK := 0
  const LOAD_DISTRIBUTION_OK := 1
  const POWER_SUPPLY_2_DC_OK := 2
  const POWER_SUPPLY_1_DC_OK := 3
  const POWER_SUPPLY_2_CURRENT_OK := 4
  const POWER_SUPPLY_1_CURRENT_OK := 5
  const INTERLOCK_POWER_RELAY := 31
  // Position that is not in the port and always reads as 1.
  const ALWAYS_HIGH := 100000

  /** The bits of a `uint8_t`, least significant first. */
  type OutputPort = bits: seq<bool> | |bits| == 8 witness seq(8, _ => false)
  type OutputPos = pos: nat | pos < 8

  /** The bits of a `uint32_t`, least significant first. */
  type InputPort = bits: seq<bool> | |bits| == 32 witness seq(32, _ => false)

  function InputBit(port: InputPort, pos: int): bool {
    if 0 <= pos < 32 then port[pos] else pos == ALWAYS_HIGH
  }

  /** One snapshot of the hardware: volts, amps and seconds are reals. */
  datatype SysInfo = SysInfo(
    outputPort: OutputPort, inputPort: InputPort,
    motorVoltage: real, motorCurrent: real, motorBreakerClosed: bool,
    commVoltage: real, commCurrent: real, commBreakerClosed: bool,
    iterations: nat, timestamp: real)
}
