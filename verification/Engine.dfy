/** The driver's operations on the abstract machine, the events of a run, and
    runs. Every operation returns the new system and its status. */
module Engine {
  import opened CommandTable
  import opened Profile
  import opened DriverTypes
  import opened Registers
  import opened Validation
  import opened Decoding
  import opened Chip
  import opened Machine

  // ----- binding ------------------------------------------------------------

  ghost function Bind(s: System, config: Config): (System, Err) {
    if s.driver.bound then (s, BUSY)
    else if !Accepted(config) then (s, INVALID_CONFIG)
    else (System(Driver(true, config, UNKNOWN, 1, NO_FAULT, None, []), s.device,
                 Voided(s.seen).(admitted := [], delivered := [])), OK)
  }

  ghost function End(s: System): System {
    System(UNBOUND, s.device, Voided(s.seen).(admitted := [], delivered := []))
  }

  predicate SameBinding(a: Config, b: Config) {
    a.hasI2cWrite == b.hasI2cWrite && a.hasI2cWriteRead == b.hasI2cWriteRead && a.transport == b.transport &&
    a.i2cAddress == b.i2cAddress && a.variant == b.variant
  }

  ghost function UpdateDesiredConfig(s: System, config: Config): (System, Err) {
    var d := s.driver;
    if !d.bound then (s, NOT_BOUND)
    else if d.job.Some? then (s, BUSY)
    else if d.applied == APPLIED_ACTIVE then (s, BUSY)
    else if !Accepted(config) then (s, INVALID_CONFIG)
    else if !SameBinding(config, d.config) then (s, INVALID_CONFIG)
    else if d.revision == UINT32_MAX then (s, INVALID_CONFIG)
    else (s.(driver := d.(config := config, revision := d.revision + 1,
                          applied := if d.applied == UNKNOWN then UNKNOWN else DIRTY)), OK)
  }

  // ----- admission ----------------------------------------------------------

  predicate IdInUse(d: Driver, id: uint64) {
    (d.job.Some? && d.job.value.id == id) || exists i :: 0 <= i < |d.queue| && d.queue[i].operationId == id
  }

  /** What a start answers, in the order the driver checks. */
  function StartStatus(d: Driver, kind: JobKind, mask: ChannelMask, id: uint64): Err {
    if kind == ACQUIRE && !d.bound then NOT_BOUND
    else if kind == ACQUIRE && d.applied != APPLIED_ACTIVE then CONFIG_DIRTY
    else if kind == ACQUIRE && (mask == 0 || mask & !d.config.channels != 0) then INVALID_PARAM
    else if kind == APPLY_CONFIG && d.bound && d.applied == UNKNOWN then CONFIG_DIRTY
    else if !d.bound then NOT_BOUND
    else if id == 0 then INVALID_PARAM
    else if IdInUse(d, id) then DUPLICATE_OPERATION_ID
    else if d.job.Some? then BUSY
    else if |d.queue| >= RESULT_CAPACITY then RESULT_QUEUE_FULL
    else IN_PROGRESS
  }

  function NewJob(d: Driver, kind: JobKind, mask: ChannelMask, id: uint64, deadlineMs: uint64): Job {
    Job(id, kind, deadlineMs, if kind == ACQUIRE then mask else 0, d.revision, 0, 0, NO_EFFECTS, NO_PLACE, 0,
        NO_STATUS, NO_SAMPLES)
  }

  function Start(s: System, kind: JobKind, mask: ChannelMask, id: uint64, deadlineMs: uint64): (System, Err)
    requires kind != NO_JOB
  {
    var d := s.driver;
    var status := StartStatus(d, kind, mask, id);
    if status != IN_PROGRESS then (s, status)
    else
      var job := NewJob(d, kind, mask, id, deadlineMs);
      (s.(driver := d.(job := Some(job)),
          seen := s.seen.(admitted := s.seen.admitted
            + [Admission(id, kind, d.config, job.mask, deadlineMs, d.revision, s.device.regs, d.applied, [])])), status)
  }

  // ----- progress -----------------------------------------------------------

  function Poll(script: Script, s: System, now: uint64, maxTransfers: uint8): System
    requires JobInProgram(s.driver)
  {
    if s.driver.job.None? then s
    else if DueOrPast(now, s.driver.job.value.deadlineMs) then
      s.(driver := Abandon(s.driver, TIMED_OUT, TIMEOUT, now))
    else if PollBudget(s.driver, now, maxTransfers) == 0 then s
    else Transfers(script, s, now, PollTimeout(s.driver, now, maxTransfers), PollBudget(s.driver, now, maxTransfers))
  }

  /** The status a poll from `before` to `after` returns. */
  function PollStatus(before: Driver, after: Driver): Err {
    if before.job.None? then OK
    else if after.job.Some? then IN_PROGRESS
    else if after.queue == [] then OK
    else
      var result := after.queue[|after.queue| - 1];
      if result.outcome == SUCCESS || result.status == IN_PROGRESS then OK else result.status
  }

  function Cancel(s: System): System
    requires JobInProgram(s.driver)
  {
    if s.driver.job.None? then s else s.(driver := Abandon(s.driver, CANCELLED, CANCELLED_BY_OWNER, 0))
  }

  function TakeResult(s: System): (System, Option<OperationResult>) {
    if s.driver.queue == [] then (s, None)
    else (s.(driver := s.driver.(queue := s.driver.queue[1..]),
             seen := s.seen.(delivered := s.seen.delivered + [s.driver.queue[0]])), Some(s.driver.queue[0]))
  }

  function Invalidate(s: System, reason: Err): System
    requires JobInProgram(s.driver)
  {
    var idle := Cancel(s);
    var fault := NO_FAULT.(valid := true, cause := if reason == OK then CONFIG_DIRTY else reason);
    idle.(driver := idle.driver.(applied := UNKNOWN, fault := fault), seen := Voided(idle.seen))
  }

  // ----- direct transfers ---------------------------------------------------

  function DirectWrite(script: Script, s: System, register: int, value: bv16): (System, Err) {
    var choice := script(|s.seen.log|);
    (s.(device := Written(s.device, choice, register, value),
        seen := ObserveTransfer(s.seen, s.device, false, true, register, value, choice.status,
                                s.driver.config.i2cTimeoutMs)),
     choice.status)
  }

  function DirectRead(script: Script, s: System, register: int): (System, Err, bv16) {
    var choice := script(|s.seen.log|);
    var value := ReadValue(s.device, register);
    (s.(device := AfterRead(s.device, choice, register),
        seen := ObserveTransfer(s.seen, s.device, false, false, register, value, choice.status,
                                s.driver.config.i2cTimeoutMs)),
     choice.status, if choice.status == OK then value else 0)
  }

  /** `sleep` (to == true) and `wake`. */
  function SleepOrWake(script: Script, s: System, to: bool): (System, Err) {
    var d := s.driver;
    var target := if to then APPLIED_SLEEPING else APPLIED_ACTIVE;
    var source := if to then APPLIED_ACTIVE else APPLIED_SLEEPING;
    if !d.bound then (s, NOT_BOUND)
    else if d.job.Some? then (s, BUSY)
    else if d.applied == target then (s, OK)
    else if d.applied != source then (s, CONFIG_DIRTY)
    else
      var (wrote, status) := DirectWrite(script, s, REG_CONFIG, BuildConfigRegister(d.config, to));
      var driver :=
        if status == OK then d.(applied := target)
        else if FailureMayHaveReachedDevice(status) then
          d.(applied := DIRTY, fault := RecordFault(status, NO_JOB, Place(WRITE_FINAL_CONFIG, REG_CONFIG, NO_CHANNEL),
                                                    NO_EFFECTS.(indeterminate := true)))
        else d;
      (wrote.(driver := driver), status)
  }

  predicate IsValidRegister(register: int) {
    0 <= register <= REG_RESET_DEV || 0x1E <= register <= 0x21
    || register == REG_MANUFACTURER_ID || register == REG_DEVICE_ID
  }

  predicate IsConfigurationRegister(register: int) {
    0x08 <= register <= 0x17 || register == REG_ERROR_CONFIG || register == REG_CONFIG
    || register == REG_MUX_CONFIG || register == REG_RESET_DEV || 0x1E <= register <= 0x21
  }

  predicate IsLdc1614OnlyRegister(register: int) {
    0x04 <= register <= 0x07 || 0x0A <= register <= 0x0B || 0x0E <= register <= 0x0F
    || 0x12 <= register <= 0x13 || 0x16 <= register <= 0x17 || 0x20 <= register <= 0x21
  }

  function PhaseForRegister(register: int): JobPhase {
    if 0x08 <= register <= 0x0B then WRITE_RCOUNT
    else if 0x10 <= register <= 0x13 then WRITE_SETTLECOUNT
    else if 0x14 <= register <= 0x17 then WRITE_CLOCK_DIVIDERS
    else if 0x0C <= register <= 0x0F then WRITE_OFFSET
    else if 0x1E <= register <= 0x21 then WRITE_DRIVE_CURRENT
    else if register == REG_ERROR_CONFIG then WRITE_ERROR_CONFIG
    else if register == REG_MUX_CONFIG then WRITE_MUX_CONFIG
    else if register == REG_CONFIG then WRITE_FINAL_CONFIG
    else if register == REG_RESET_DEV then SOFTWARE_RESET
    else NO_PHASE
  }

  function ChannelForRegister(register: int): Channel {
    if 0x08 <= register <= 0x0B then register - 0x08
    else if 0x10 <= register <= 0x13 then register - 0x10
    else if 0x14 <= register <= 0x17 then register - 0x14
    else if 0x0C <= register <= 0x0F then register - 0x0C
    else if 0x1E <= register <= 0x21 then register - 0x1E
    else NO_CHANNEL
  }

  /** Trust and fault after a raw write that answered `status`. */
  function RawWritten(d: Driver, register: uint8, status: Err): Driver {
    if status == OK || FailureMayHaveReachedDevice(status) then
      d.(applied := if register == REG_RESET_DEV || d.applied == UNKNOWN then UNKNOWN else DIRTY,
         fault := RecordFault(if status == OK then CONFIG_DIRTY else status, NO_JOB,
                              Place(PhaseForRegister(register), register, ChannelForRegister(register)),
                              if status == OK then NO_EFFECTS.(partial := true)
                              else NO_EFFECTS.(indeterminate := true)))
    else d
  }

  function WriteRegister16(script: Script, s: System, register: uint8, value: bv16): (System, Err) {
    var d := s.driver;
    if !d.bound then (s, NOT_BOUND)
    else if d.job.Some? then (s, BUSY)
    else if !IsConfigurationRegister(register) then (s, INVALID_PARAM)
    else if d.config.variant == LDC1612 && IsLdc1614OnlyRegister(register) then (s, INVALID_PARAM)
    else
      var (wrote, status) := DirectWrite(script, s, register, value);
      (wrote.(driver := RawWritten(d, register, status)), status)
  }

  function ReadRegister16(script: Script, s: System, register: uint8): (System, Err, bv16) {
    var d := s.driver;
    if !d.bound then (s, NOT_BOUND, 0)
    else if d.job.Some? then (s, BUSY, 0)
    else if !IsValidRegister(register) then (s, INVALID_PARAM, 0)
    else if d.config.variant == LDC1612 && IsLdc1614OnlyRegister(register) then (s, INVALID_PARAM, 0)
    else DirectRead(script, s, register)
  }

  // ----- events and runs ----------------------------------------------------

  /** Anything that can happen to the system: the owner's calls, a conversion,
      and a device change outside the driver (removal, brownout, power cycle),
      which the owner reports by invalidation before the next call. */
  datatype Event =
    | BindEvent(config: Config)
    | EndEvent
    | UpdateEvent(config: Config)
    | StartEvent(kind: JobKind, mask: ChannelMask, id: uint64, deadlineMs: uint64)
    | PollEvent(now: uint64, maxTransfers: uint8)
    | CancelEvent
    | TakeEvent
    | InvalidateEvent(reason: Err)
    | SleepEvent
    | WakeEvent
    | WriteEvent(register: uint8, value: bv16)
    | ReadEvent(register: uint8)
    | ConversionEvent(conversion: Conversion)
    | PowerCycleEvent(regs: RegisterFile, cause: Err)

  /** Calls that touch neither the wire nor the device. */
  predicate OwnerBookkeeping(e: Event) {
    e.BindEvent? || e.EndEvent? || e.UpdateEvent? || e.StartEvent? || e.TakeEvent?
  }

  /** Direct transfers, allowed only while no job is active. */
  predicate DirectTransferEvent(e: Event) {
    e.SleepEvent? || e.WakeEvent? || e.WriteEvent? || e.ReadEvent?
  }

  ghost function Apply(script: Script, s: System, e: Event): System
    requires JobInProgram(s.driver)
  {
    match e
    case BindEvent(config) => Bind(s, config).0
    case EndEvent => End(s)
    case UpdateEvent(config) => UpdateDesiredConfig(s, config).0
    case StartEvent(kind, mask, id, deadlineMs) => if kind == NO_JOB then s else Start(s, kind, mask, id, deadlineMs).0
    case PollEvent(now, maxTransfers) => Poll(script, s, now, maxTransfers)
    case CancelEvent => Cancel(s)
    case TakeEvent => TakeResult(s).0
    case InvalidateEvent(reason) => Invalidate(s, reason)
    case SleepEvent => SleepOrWake(script, s, true).0
    case WakeEvent => SleepOrWake(script, s, false).0
    case WriteEvent(register, value) => WriteRegister16(script, s, register, value).0
    case ReadEvent(register) => ReadRegister16(script, s, register).0
    case ConversionEvent(conversion) => s.(device := Inject(s.device, conversion))
    case PowerCycleEvent(regs, cause) =>
      Invalidate(s.(device := ClearConversionEvidence(s.device.(regs := regs))), cause)
  }

  /** Before anything happened: an unbound driver and some device. */
  ghost predicate Initial(s: System) {
    s.driver == UNBOUND && s.seen == NO_OBSERVATIONS && s.device.stickyStatusErrors & !STATUS_ERROR_MASK == 0 &&
    forall c :: 0 <= c < MAX_CHANNELS ==> s.device.ch[c] == ClearLatch(s.device.ch[c]) && s.device.ch[c].history == []
  }
}
