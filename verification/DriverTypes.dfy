/** Status codes, jobs, faults, snapshots and results of the driver. */
module DriverTypes {
  import opened CommandTable
  import opened Profile

  datatype Option<+T> = None | Some(value: T)

  datatype Err =
    | OK | NOT_BOUND | INVALID_CONFIG | INVALID_PARAM | BUSY | IN_PROGRESS
    | RESULT_NOT_READY | RESULT_QUEUE_FULL | DUPLICATE_OPERATION_ID
    | DEVICE_NOT_FOUND | TIMEOUT | CANCELLED_BY_OWNER | CONFIG_DIRTY
    | I2C_ERROR | I2C_NACK_ADDR | I2C_NACK_DATA | I2C_TIMEOUT | I2C_BUS

  /** Only a confirmed address NACK proves that the device accepted nothing. */
  predicate FailureMayHaveReachedDevice(status: Err) {
    status != I2C_NACK_ADDR
  }

  datatype AppliedState = UNKNOWN | APPLYING | APPLIED_SLEEPING | APPLIED_ACTIVE | DIRTY

  datatype JobKind = NO_JOB | INITIALIZE | APPLY_CONFIG | RESET_AND_REAPPLY | ACQUIRE

  datatype JobPhase =
    | NO_PHASE | VERIFY_MANUFACTURER | VERIFY_DEVICE | FORCE_SLEEP
    | WRITE_RCOUNT | WRITE_SETTLECOUNT | WRITE_CLOCK_DIVIDERS | WRITE_OFFSET
    | WRITE_DRIVE_CURRENT | WRITE_ERROR_CONFIG | WRITE_MUX_CONFIG | WRITE_FINAL_CONFIG
    | SOFTWARE_RESET | READ_STATUS_BEFORE | READ_DATA_MSB | READ_DATA_LSB | READ_STATUS_AFTER

  datatype Outcome = NO_OUTCOME | SUCCESS | FAILED | CANCELLED | TIMED_OUT

  /** The effect bitset of a job: READ_SIDE_EFFECTS, PARTIAL_WRITE, INDETERMINATE_WRITE. */
  datatype Effects = Effects(read: bool, partial: bool, indeterminate: bool)
  const NO_EFFECTS := Effects(false, false, false)

  datatype ConfigFault = ConfigFault(
    valid: bool, cause: Err, job: JobKind, phase: JobPhase, register: int,
    channel: Channel, effects: Effects)
  const NO_FAULT := ConfigFault(false, OK, NO_JOB, NO_PHASE, INVALID_REGISTER, NO_CHANNEL, NO_EFFECTS)

  datatype DeviceStatus = DeviceStatus(
    observed: bool, errorChannel: Channel, errorUnderRange: bool, errorOverRange: bool,
    errorWatchdog: bool, errorAmplitudeHigh: bool, errorAmplitudeLow: bool,
    errorZeroCount: bool, dataReady: bool, unreadChannels: ChannelMask, raw: bv16)
  {
    predicate HasError() {
      errorUnderRange || errorOverRange || errorWatchdog ||
      errorAmplitudeHigh || errorAmplitudeLow || errorZeroCount
    }
  }
  const NO_STATUS := DeviceStatus(false, NO_CHANNEL, false, false, false, false, false, false, false, 0, 0)

  // Sample quality bits.
  const QUALITY_FRESH: bv16 := 0x01
  const QUALITY_STALE: bv16 := 0x02
  const QUALITY_UNDER_RANGE: bv16 := 0x04
  const QUALITY_OVER_RANGE: bv16 := 0x08
  const QUALITY_WATCHDOG: bv16 := 0x10
  const QUALITY_AMPLITUDE_SUSPECT: bv16 := 0x20
  const QUALITY_ZERO_COUNT: bv16 := 0x40
  const QUALITY_DATA_LOST: bv16 := 0x80

  datatype ChannelSample = ChannelSample(rawCount28: bv32, rawDataMsb: bv16, rawDataLsb: bv16, quality: bv16)
  const NO_SAMPLE := ChannelSample(0, 0, 0, 0)

  type Samples = s: seq<ChannelSample> | |s| == MAX_CHANNELS
    witness [NO_SAMPLE, NO_SAMPLE, NO_SAMPLE, NO_SAMPLE]
  const NO_SAMPLES: Samples := [NO_SAMPLE, NO_SAMPLE, NO_SAMPLE, NO_SAMPLE]

  datatype SampleBatch = SampleBatch(
    selectedChannels: ChannelMask, validChannels: ChannelMask, freshChannels: ChannelMask,
    errorChannels: ChannelMask, overrunChannels: ChannelMask,
    statusBefore: DeviceStatus, statusAfter: DeviceStatus, channel: Samples,
    completedUptimeMs: uint64, configRevision: uint32)

  datatype JobProgress = JobProgress(
    active: bool, operationId: uint64, kind: JobKind, phase: JobPhase, register: int,
    channel: Channel, deadlineMs: uint64, completedTransfers: nat, maximumTransfers: nat,
    requestedChannels: ChannelMask, completedChannels: ChannelMask, effects: Effects,
    configRevision: uint32)
  const NO_PROGRESS := JobProgress(
    false, 0, NO_JOB, NO_PHASE, INVALID_REGISTER, NO_CHANNEL, 0, 0, 0, 0, 0, NO_EFFECTS, 0)

  datatype OperationResult = OperationResult(
    operationId: uint64, kind: JobKind, outcome: Outcome, status: Err, effects: Effects,
    configFault: ConfigFault, configRevision: uint32, completedUptimeMs: uint64,
    finalProgress: JobProgress, sampleBatch: Option<SampleBatch>)
  const NO_RESULT := OperationResult(
    0, NO_JOB, NO_OUTCOME, OK, NO_EFFECTS, NO_FAULT, 0, 0, NO_PROGRESS, None)

  const RESULT_CAPACITY := 2
}
