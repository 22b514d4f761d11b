/** The 64-bit fault map. A `uint64_t` bitmap is the set of the positions of its set bits, so that
    `|`, `&`, `& ~` and `^` are union, intersection, difference and symmetric difference. */
module FaultStatusBits {

  type FaultPos = pos: nat | pos < 64
  type FaultBits = set<FaultPos>

  const STALE_DATA_WARN: FaultPos := 0
  const STALE_DATA_FAULT: FaultPos := 1
  const BROADCAST_ERR: FaultPos := 2
  const ACTUATOR_FAULT: FaultPos := 3
  const EXCESSIVE_FORCE: FaultPos := 4
  const ACTUATOR_LIMIT_OL: FaultPos := 5
  const ACTUATOR_LIMIT_CL: FaultPos := 6
  const INCLINOMETER_W_LUT: FaultPos := 7
  const INCLINOMETER_WO_LUT: FaultPos := 8
  const MOTOR_VOLTAGE_FAULT: FaultPos := 9
  const MOTOR_VOLTAGE_WARN: FaultPos := 10
  const COMM_VOLTAGE_FAULT: FaultPos := 11
  const COMM_VOLTAGE_WARN: FaultPos := 12
  const MOTOR_OVER_CURRENT: FaultPos := 13
  const COMM_OVER_CURRENT: FaultPos := 14
  const POWER_RELAY_OPEN_FAULT: FaultPos := 15
  const POWER_HEALTH_FAULT: FaultPos := 16
  const COMM_MULTI_BREAKER_FAULT: FaultPos := 17
  const MOTOR_MULTI_BREAKER_FAULT: FaultPos := 18
  const SINGLE_BREAKER_TRIP: FaultPos := 19
  const POWER_SUPPLY_LOAD_SHARE_ERR: FaultPos := 20
  const DISPLACEMENT_SENSOR_RANGE_ERR: FaultPos := 21
  const INCLINOMETER_RANGE_ERR: FaultPos := 22
  const MIRROR_TEMP_SENSOR_FAULT: FaultPos := 23
  const MIRROR_TEMP_SENSOR_WARN: FaultPos := 24
  const CELL_TEMP_WARN: FaultPos := 25
  const AXIAL_ACTUATOR_ENCODER_RANGE_FAULT: FaultPos := 26
  const TANGENT_ACTUATOR_ENCODER_RANGE_FAULT: FaultPos := 27
  const MOTOR_RELAY: FaultPos := 28
  const COMM_RELAY: FaultPos := 29
  const HARDWARE_FAULT: FaultPos := 30
  const INTERLOCK_FAULT: FaultPos := 31
  const TANGENT_LOAD_CELL_FAULT: FaultPos := 32
  const ELEVATION_ANGLE_DIFF_FAULT: FaultPos := 33
  const MONITOR_ILC_READ_WARN: FaultPos := 34
  const POWER_SYSTEM_TIMEOUT: FaultPos := 35
  const PARAMETER_FILE_READ_FAULT: FaultPos := 55
  const ILC_STATE_TRANSITION_FAULT: FaultPos := 56
  const CRIO_COMM_FAULT: FaultPos := 57
  const LOSS_OF_TMA_WARN: FaultPos := 58
  const LOSS_OF_TMA_COMM_ON_ENABLE_FAULT: FaultPos := 59
  const TEMP_DIFF_WARN: FaultPos := 60
  const CRIO_TIMING_FAULT: FaultPos := 61
  const CRIO_TIMING_WARN: FaultPos := 62
  const USER_GENERATED_FAULT: FaultPos := 63

  const MASK_OPEN_LOOP_CONTROL: FaultBits := {
    ACTUATOR_LIMIT_CL, INCLINOMETER_W_LUT, CRIO_TIMING_FAULT, INCLINOMETER_RANGE_ERR,
    MIRROR_TEMP_SENSOR_FAULT, ELEVATION_ANGLE_DIFF_FAULT }

  const MASK_TELEMETRY_ONLY_CONTROL: FaultBits := MASK_OPEN_LOOP_CONTROL + {
    ACTUATOR_FAULT, EXCESSIVE_FORCE, MOTOR_VOLTAGE_FAULT, MOTOR_OVER_CURRENT,
    MOTOR_MULTI_BREAKER_FAULT, AXIAL_ACTUATOR_ENCODER_RANGE_FAULT,
    TANGENT_ACTUATOR_ENCODER_RANGE_FAULT, ILC_STATE_TRANSITION_FAULT }

  const MASK_FAULTS: FaultBits := MASK_TELEMETRY_ONLY_CONTROL + {
    COMM_VOLTAGE_FAULT, COMM_OVER_CURRENT, POWER_RELAY_OPEN_FAULT, POWER_HEALTH_FAULT,
    COMM_MULTI_BREAKER_FAULT, POWER_SUPPLY_LOAD_SHARE_ERR, INTERLOCK_FAULT, TANGENT_LOAD_CELL_FAULT,
    LOSS_OF_TMA_COMM_ON_ENABLE_FAULT, CRIO_COMM_FAULT, USER_GENERATED_FAULT,
    PARAMETER_FILE_READ_FAULT, POWER_SYSTEM_TIMEOUT }

  const MASK_WARN: FaultBits := {
    ACTUATOR_LIMIT_OL, INCLINOMETER_WO_LUT, MOTOR_VOLTAGE_WARN, COMM_VOLTAGE_WARN, SINGLE_BREAKER_TRIP,
    CRIO_TIMING_WARN, DISPLACEMENT_SENSOR_RANGE_ERR, MIRROR_TEMP_SENSOR_WARN, CELL_TEMP_WARN,
    TEMP_DIFF_WARN, LOSS_OF_TMA_WARN, MONITOR_ILC_READ_WARN }

  const MASK_INFO: FaultBits := {
    BROADCAST_ERR, MOTOR_RELAY, COMM_RELAY, HARDWARE_FAULT, STALE_DATA_WARN, STALE_DATA_FAULT }

  const MASK_COMM_SUBSYSTEM: FaultBits := {
    COMM_VOLTAGE_FAULT, COMM_OVER_CURRENT, POWER_RELAY_OPEN_FAULT, COMM_MULTI_BREAKER_FAULT }

  const MASK_MOTOR_SUBSYSTEM: FaultBits := {
    MOTOR_VOLTAGE_FAULT, MOTOR_OVER_CURRENT, POWER_RELAY_OPEN_FAULT, MOTOR_MULTI_BREAKER_FAULT }

  const MASK_POWER_AFFECTED_WARNINGS: FaultBits := {
    MOTOR_VOLTAGE_WARN, COMM_VOLTAGE_WARN, SINGLE_BREAKER_TRIP, MOTOR_RELAY, COMM_RELAY, HARDWARE_FAULT }

  const MASK_POWER_AFFECTED_FAULTS: FaultBits := {
    MOTOR_VOLTAGE_FAULT, MOTOR_OVER_CURRENT, MOTOR_MULTI_BREAKER_FAULT, COMM_VOLTAGE_FAULT,
    COMM_OVER_CURRENT, POWER_RELAY_OPEN_FAULT, POWER_HEALTH_FAULT, COMM_MULTI_BREAKER_FAULT,
    POWER_SUPPLY_LOAD_SHARE_ERR, INTERLOCK_FAULT, POWER_SYSTEM_TIMEOUT }

  const MASK_HEALTH: FaultBits := { POWER_HEALTH_FAULT, POWER_SUPPLY_LOAD_SHARE_ERR }

  /** Exclusive or. */
  function Xor(a: FaultBits, b: FaultBits): FaultBits { (a - b) + (b - a) }

  /** The low 16 bits, as when a `uint64_t` is returned as a `uint16_t`. */
  function Low16(a: FaultBits): FaultBits { set p | p in a && p < 16 }
}
