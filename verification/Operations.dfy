/** What each call of the owner does, in the terms of the caller: its arguments,
    the driver before and after, and the device. No statement here names the
    step of the abstract machine that does it. */
module Operations {
  import opened CommandTable
  import opened Profile
  import opened DriverTypes
  import opened Registers
  import opened Validation
  import opened Decoding
  import opened Chip
  import opened Machine
  import opened Engine
  import opened Trust
  import Outcomes

  /** No callback was made, the device is as it was, nothing was published. */
  predicate BusSilent(s: System, after: System) {
    && after.seen.log == s.seen.log && after.seen.timeouts == s.seen.timeouts
    && after.seen.published == s.seen.published && after.device == s.device
  }

  // ----- binding ------------------------------------------------------------

  lemma BindAnswers(s: System, config: Config)
    ensures var (after, status) := Bind(s, config);
      && BusSilent(s, after)
      && status == (if s.driver.bound then BUSY else if !Accepted(config) then INVALID_CONFIG else OK)
      && (status != OK ==> after == s)
      && (status == OK ==>
           && after.driver.bound && after.driver.config == config && after.driver.applied == UNKNOWN
           && after.driver.revision == 1 && after.driver.fault == NO_FAULT
           && after.driver.job.None? && after.driver.queue == [])
  {
    hide Accepted;
  }

  lemma EndAnswers(s: System)
    ensures var after := End(s);
      && BusSilent(s, after)
      && !after.driver.bound && after.driver.config == UNSPECIFIED_CONFIG && after.driver.applied == UNKNOWN
      && after.driver.revision == 0 && after.driver.fault == NO_FAULT
      && after.driver.job.None? && after.driver.queue == []
  {
  }

  lemma UpdateAnswers(s: System, config: Config)
    ensures var (after, status) := UpdateDesiredConfig(s, config);
      var d := s.driver;
      && BusSilent(s, after)
      && (status == OK <==>
           && d.bound && d.job.None? && d.applied != APPLIED_ACTIVE && Accepted(config)
           && config.hasI2cWrite == d.config.hasI2cWrite && config.hasI2cWriteRead == d.config.hasI2cWriteRead
           && config.transport == d.config.transport && config.i2cAddress == d.config.i2cAddress
           && config.variant == d.config.variant && d.revision < UINT32_MAX)
      && (status == NOT_BOUND <==> !d.bound)
      && (status == BUSY <==> d.bound && (d.job.Some? || d.applied == APPLIED_ACTIVE))
      && (status != OK ==> after == s)
      && (status == OK ==>
           && after.driver.bound && after.driver.config == config && after.driver.revision == d.revision + 1
           && after.driver.applied == (if d.applied == UNKNOWN then UNKNOWN else DIRTY)
           && after.driver.fault == d.fault && after.driver.job.None? && after.driver.queue == d.queue)
  {
    hide Accepted;
  }

  // ----- admission ----------------------------------------------------------

  predicate IdFree(d: Driver, id: uint64) {
    && (d.job.Some? ==> d.job.value.id != id)
    && (forall i :: 0 <= i < |d.queue| ==> d.queue[i].operationId != id)
  }

  /** What a start needs beyond a bound driver. */
  predicate Startable(d: Driver, kind: JobKind, mask: ChannelMask) {
    && (kind == ACQUIRE ==> d.applied == APPLIED_ACTIVE)
    && (kind == APPLY_CONFIG ==> d.applied != UNKNOWN)
  }

  predicate LegalArguments(d: Driver, kind: JobKind, mask: ChannelMask, id: uint64) {
    id != 0 && (kind == ACQUIRE ==> mask != 0 && mask & !d.config.channels == 0)
  }

  /** A start is refused for the first reason that applies and then changes
      nothing; an admitted job carries exactly the call's arguments. */
  lemma StartAnswers(s: System, kind: JobKind, mask: ChannelMask, id: uint64, deadlineMs: uint64)
    requires kind != NO_JOB
    ensures var (after, status) := Start(s, kind, mask, id, deadlineMs);
      var d := s.driver;
      && BusSilent(s, after)
      && (status == NOT_BOUND <==> !d.bound)
      && (status == CONFIG_DIRTY <==> d.bound && !Startable(d, kind, mask))
      && (status == INVALID_PARAM <==> d.bound && Startable(d, kind, mask) && !LegalArguments(d, kind, mask, id))
      && (d.bound && Startable(d, kind, mask) && LegalArguments(d, kind, mask, id) ==>
           status == (if !IdFree(d, id) then DUPLICATE_OPERATION_ID
                      else if d.job.Some? then BUSY
                      else if |d.queue| >= 2 then RESULT_QUEUE_FULL
                      else IN_PROGRESS))
      && (status != IN_PROGRESS ==> after == s)
  {
  }

  lemma StartAdmits(s: System, kind: JobKind, mask: ChannelMask, id: uint64, deadlineMs: uint64)
    requires kind != NO_JOB && Start(s, kind, mask, id, deadlineMs).1 == IN_PROGRESS
    ensures var after := Start(s, kind, mask, id, deadlineMs).0;
      && after.driver == s.driver.(job := after.driver.job) && after.driver.job.Some?
      && var job := after.driver.job.value;
      && job.id == id && job.kind == kind && job.deadlineMs == deadlineMs && job.revision == s.driver.revision
      && job.mask == (if kind == ACQUIRE then mask else 0)
      && job.done == 0 && job.completed == 0 && job.effects == Effects(false, false, false)
    ensures var after := Start(s, kind, mask, id, deadlineMs).0;
      && |after.seen.admitted| == |s.seen.admitted| + 1 && after.seen.admitted[..|s.seen.admitted|] == s.seen.admitted
      && var a := after.seen.admitted[|s.seen.admitted|];
      && a.id == id && a.kind == kind && a.deadlineMs == deadlineMs && a.revision == s.driver.revision
      && a.mask == (if kind == ACQUIRE then mask else 0) && a.config == s.driver.config
      && a.regs == s.device.regs && a.applied == s.driver.applied && a.wire == []
  {
    hide StartStatus;
  }

  // ----- polls --------------------------------------------------------------

  /** A poll at or past the deadline ends the job TIMED_OUT without touching
      the bus; an earlier one never does. */
  lemma PollExpires(script: Script, s: System, now: uint64, maxTransfers: uint8)
    requires Trusted(s) && s.driver.job.Some?
    ensures JobInProgram(s.driver)
    ensures var after := Poll(script, s, now, maxTransfers);
      && (DueOrPast(now, s.driver.job.value.deadlineMs) ==>
           && BusSilent(s, after) && after.driver.job.None? && |after.driver.queue| == |s.driver.queue| + 1
           && var r := after.driver.queue[|s.driver.queue|];
           && r.operationId == s.driver.job.value.id && r.outcome == TIMED_OUT && r.status == TIMEOUT
           && r.completedUptimeMs == now)
  {
    hide Trusted, Transfers, Abandon, PollBudget, PollTimeout, DueOrPast;
    TrustedParts(s);
    Outcomes.AbandonFields(s.driver, TIMED_OUT, TIMEOUT, now);
  }

  /** The answer of a poll, by the result it left. */
  lemma PollAnswers(before: Driver, after: Driver)
    requires before.job.Some?
    ensures after.job.Some? ==> PollStatus(before, after) == IN_PROGRESS
    ensures after.job.None? && after.queue != [] ==>
      var r := after.queue[|after.queue| - 1];
      && (r.outcome == SUCCESS ==> PollStatus(before, after) == OK)
      && (r.outcome != SUCCESS && r.status != IN_PROGRESS ==> PollStatus(before, after) == r.status)
  {
  }

  // ----- the programs -------------------------------------------------------

  /** Transfers before the replay. */
  function Prefix(kind: JobKind): nat { if kind == RESET_AND_REAPPLY then 3 else if kind == INITIALIZE then 2 else 0 }

  /** The replay by address: CONFIG, five words a channel, then the two global
      registers. */
  function ReplayAddress(n: nat, step: nat): int {
    if step == 0 then 0x1A
    else if step <= 5 * n then
      (match (step - 1) % 5 case 0 => 0x08 case 1 => 0x10 case 2 => 0x14 case 3 => 0x0C case _ => 0x1E) + (step - 1) / 5
    else if step == 5 * n + 1 then 0x19
    else 0x1B
  }

  lemma ReplayAddresses(config: Config, step: nat)
    requires step < ReplayLength(config)
    ensures var n := ChannelCountFor(config.variant);
      ReplayLength(config) == 5 * n + 3 && ReplayAction(config, step).write
      && ReplayAction(config, step).register == ReplayAddress(n, step)
  {
    hide BuildConfigRegister, BuildMuxConfigRegister, EncodeErrorReporting, ClockDividers, DriveCurrent;
  }

  /** What each transfer of a configuration job is: a reset, the two identity
      reads with the words they demand, then the replay in order. */
  lemma ProgramIs(kind: JobKind, config: Config, mask: ChannelMask, k: nat)
    requires kind != ACQUIRE && k < ProgramLength(kind, config, mask)
    ensures var action, n := ProgramAction(kind, config, mask, k), ChannelCountFor(config.variant);
      && ProgramLength(kind, config, mask) == Prefix(kind) + 5 * n + 3
      && (k + 3 == Prefix(kind) ==> action.write && action.register == 0x1C && action.value == 0x8000)
      && (k + 2 == Prefix(kind) ==> !action.write && action.register == 0x7E && action.value == 0x5449)
      && (k + 1 == Prefix(kind) ==> !action.write && action.register == 0x7F && action.value == 0x3055)
      && (k >= Prefix(kind) ==> action.write && action.register == ReplayAddress(n, k - Prefix(kind)))
  {
    hide ReplayAction, ReplayAddress;
    if k >= Prefix(kind) {
      ReplayAddresses(config, k - Prefix(kind));
    } else {
      ReplayAddresses(config, 0);
    }
  }

  // ----- failed transfers of a job ------------------------------------------

  /** The one new result of a job that has just failed with `status`. */
  predicate FailedWith(d: Driver, after: Driver, status: Err)
    requires d.job.Some?
  {
    && after.job.None? && |after.queue| == |d.queue| + 1 && after.queue[..|d.queue|] == d.queue
    && var r := after.queue[|d.queue|];
    && r.operationId == d.job.value.id && r.kind == d.job.value.kind && r.outcome == FAILED && r.status == status
    && r.sampleBatch.None? && r.finalProgress.completedTransfers == d.job.value.done + 1
  }

  predicate FaultAt(f: ConfigFault, cause: Err, kind: JobKind, action: Action, effects: Effects) {
    && f.valid && f.cause == cause && f.job == kind && f.phase == action.phase && f.register == action.register
    && f.channel == action.channel && f.effects == effects
  }

  /** A failed write of a job: only an address NACK before any confirmed write
      leaves trust and fault alone. */
  lemma WriteFails(d: Driver, status: Err, value: bv16, now: uint64)
    requires d.job.Some? && JobInProgram(d) && status != OK && CurrentAction(d).write
    ensures var action, before := CurrentAction(d), d.job.value.effects;
      var after := Complete(d, action, status, value, now);
      && FailedWith(d, after, status)
      && var effects := after.queue[|d.queue|].effects;
      && effects == Effects(before.read, before.partial, before.indeterminate || status != I2C_NACK_ADDR)
      && (if status == I2C_NACK_ADDR && !before.partial then after.applied == d.applied && after.fault == d.fault
          else
            && after.applied == (if action.register == 0x1C then UNKNOWN else DIRTY)
            && FaultAt(after.fault, status, d.job.value.kind, action, effects))
  {
    hide CurrentAction, ProgressAt, MaxTransfers;
  }

  /** A failed or wrong identity read ends the job with nothing known. */
  lemma IdentityFails(d: Driver, status: Err, value: bv16, now: uint64)
    requires d.job.Some? && JobInProgram(d) && d.job.value.kind != ACQUIRE && !CurrentAction(d).write
    requires status != OK || value != (if CurrentAction(d).register == 0x7E then 0x5449 else 0x3055)
    ensures var action := CurrentAction(d);
      var after := Complete(d, action, status, value, now);
      var cause := if status != OK then status else DEVICE_NOT_FOUND;
      && (action.register == 0x7E || action.register == 0x7F)
      && FailedWith(d, after, cause) && after.queue[|d.queue|].effects == d.job.value.effects
      && after.applied == UNKNOWN && FaultAt(after.fault, cause, d.job.value.kind, action, d.job.value.effects)
  {
    hide ProgressAt, ReplayAction, ReplayLength;
    if d.job.value.done >= ApplyOffset(d.job.value.kind) {
      ReplayActionShape(d.config, d.job.value.done - ApplyOffset(d.job.value.kind));
    }
  }

  /** A failed acquisition read says nothing about the profile. */
  lemma ReadFails(d: Driver, status: Err, value: bv16, now: uint64)
    requires d.job.Some? && JobInProgram(d) && d.job.value.kind == ACQUIRE && status != OK
    ensures var after := Complete(d, CurrentAction(d), status, value, now);
      FailedWith(d, after, status) && after.applied == d.applied && after.fault == d.fault
  {
    hide ProgressAt, AcquireAction, Selected;
    AcquireActionShape(d.job.value.mask, d.job.value.done);
  }

  // ----- cancellation and invalidation --------------------------------------

  lemma CancelAnswers(s: System)
    requires Trusted(s)
    ensures JobInProgram(s.driver)
    ensures var after := Cancel(s);
      && BusSilent(s, after) && after.driver.job.None?
      && (s.driver.job.None? ==> after == s)
      && (s.driver.job.Some? ==>
           && |after.driver.queue| == |s.driver.queue| + 1 && after.driver.queue[..|s.driver.queue|] == s.driver.queue
           && var r := after.driver.queue[|s.driver.queue|];
           && r.operationId == s.driver.job.value.id && r.outcome == CANCELLED && r.status == CANCELLED_BY_OWNER)
  {
    hide Trusted, Abandon;
    TrustedParts(s);
    if s.driver.job.Some? {
      Outcomes.AbandonFields(s.driver, CANCELLED, CANCELLED_BY_OWNER, 0);
    }
  }

  lemma InvalidateAnswers(s: System, reason: Err)
    requires Trusted(s)
    ensures JobInProgram(s.driver)
    ensures var after := Invalidate(s, reason);
      && BusSilent(s, after) && after.driver.job.None? && after.driver.applied == UNKNOWN
      && after.driver.queue == Cancel(s).driver.queue
      && after.driver.fault.valid && after.driver.fault.cause == (if reason == OK then CONFIG_DIRTY else reason)
      && after.driver.fault.job == NO_JOB && after.driver.fault.effects == Effects(false, false, false)
      && after.driver.bound == s.driver.bound && after.driver.config == s.driver.config
      && after.driver.revision == s.driver.revision
  {
    hide Trusted, Abandon, CurrentAction, MaxTransfers, ProgressAt;
    TrustedParts(s);
    CancelAnswers(s);
    CancelKeepsBinding(s);
  }

  lemma CancelKeepsBinding(s: System)
    requires JobInProgram(s.driver)
    ensures var after := Cancel(s).driver;
      after.bound == s.driver.bound && after.config == s.driver.config && after.revision == s.driver.revision
  {
    hide CurrentAction, MaxTransfers, ProgressAt;
  }

  /** The owner gets the oldest queued result, and it leaves the queue. */
  lemma TakeAnswers(s: System)
    ensures var (after, taken) := TakeResult(s);
      && BusSilent(s, after)
      && (taken.None? <==> s.driver.queue == []) && (taken.None? ==> after == s)
      && (taken.Some? ==>
           && s.driver.queue == [taken.value] + after.driver.queue
           && after.driver == s.driver.(queue := after.driver.queue)
           && after.seen.delivered == s.seen.delivered + [taken.value])
  {
  }

  // ----- sleep and wake -----------------------------------------------------

  /** The status of the next callback. */
  function NextStatus(script: Script, s: System): Err { script(|s.seen.log|).status }

  /** Exactly one callback, with the configured timeout. */
  predicate OneCallback(s: System, after: System) {
    && |after.seen.log| == |s.seen.log| + 1
    && after.seen.timeouts == s.seen.timeouts + [s.driver.config.i2cTimeoutMs]
  }

  lemma ConfigWritten(d: Device, choice: Choice, value: bv16)
    requires choice.status == OK
    ensures Written(d, choice, REG_CONFIG, value).regs == d.regs[REG_CONFIG := value]
  {
    var done := ApplyWrite(d, REG_CONFIG, value);
    InjectKeepsRegisters(done, choice.after);
  }

  /** Sleep (`to`) and wake. From the opposite trusted state an acknowledged
      CONFIG write moves the device and the trust state there; an address NACK
      moves neither; any other failure leaves the profile dirty. From the
      target state there is nothing to do, from any other nothing is allowed. */
  lemma SwitchAnswers(script: Script, s: System, to: bool)
    requires s.driver.bound && s.driver.job.None?
    ensures var (after, status) := SleepOrWake(script, s, to);
      var d := s.driver;
      var from := if to then APPLIED_ACTIVE else APPLIED_SLEEPING;
      var target := if to then APPLIED_SLEEPING else APPLIED_ACTIVE;
      && (d.applied == target ==> status == OK && after == s)
      && (d.applied != target && d.applied != from ==> status == CONFIG_DIRTY && after == s)
      && (d.applied == from ==>
           && status == NextStatus(script, s) && OneCallback(s, after)
           && (status == OK ==>
                && after.driver == d.(applied := target)
                && (after.device.regs[0x1A] & 0x2000 != 0 <==> to)
                && after.device.regs == s.device.regs[0x1A := after.device.regs[0x1A]])
           && (status == I2C_NACK_ADDR ==> after.driver == d && after.device.regs == s.device.regs)
           && (status != OK && status != I2C_NACK_ADDR ==>
                && after.driver == d.(applied := DIRTY, fault := after.driver.fault)
                && after.driver.fault.valid && after.driver.fault.cause == status && after.driver.fault.register == 0x1A
                && after.driver.fault.effects == Effects(false, false, true)))
  {
    hide Written, BuildConfigRegister, LatchedAfter, ConvertedAfter, CountsOf, ObserveIdentity;
    var value := BuildConfigRegister(s.driver.config, to);
    SleepBit(s.driver.config);
    CallbackSeen(s, true, REG_CONFIG, value, NextStatus(script, s));
    if NextStatus(script, s) == OK {
      ConfigWritten(s.device, script(|s.seen.log|), value);
    } else if NextStatus(script, s) == I2C_NACK_ADDR {
      MissedWriteKeepsRegisters(s.device, script(|s.seen.log|), REG_CONFIG, value);
    }
  }

  lemma CallbackSeen(s: System, write: bool, register: int, value: bv16, status: Err)
    ensures var seen := ObserveTransfer(s.seen, s.device, false, write, register, value, status,
                                        s.driver.config.i2cTimeoutMs);
      |seen.log| == |s.seen.log| + 1 && seen.timeouts == s.seen.timeouts + [s.driver.config.i2cTimeoutMs]
  {
    hide LatchedAfter, ConvertedAfter, CountsOf;
  }

  lemma SwitchRefusals(script: Script, s: System, to: bool)
    requires !s.driver.bound || s.driver.job.Some?
    ensures SleepOrWake(script, s, to) == (s, if !s.driver.bound then NOT_BOUND else BUSY)
  {
    hide Written, BuildConfigRegister, ObserveTransfer;
  }

  // ----- raw transfers ------------------------------------------------------

  predicate Writable(register: int) {
    0x08 <= register <= 0x17 || 0x19 <= register <= 0x1C || 0x1E <= register <= 0x21
  }

  predicate Readable(register: int) {
    0 <= register <= 0x1C || 0x1E <= register <= 0x21 || register == 0x7E || register == 0x7F
  }

  /** Registers of channels 2 and 3. */
  predicate OfUpperChannels(register: int) {
    || 0x04 <= register <= 0x07 || 0x0A <= register <= 0x0B || 0x0E <= register <= 0x0F
    || 0x12 <= register <= 0x13 || 0x16 <= register <= 0x17 || 0x20 <= register <= 0x21
  }

  predicate RawAllowed(d: Driver, register: int, write: bool) {
    && d.bound && d.job.None? && (if write then Writable(register) else Readable(register))
    && !(d.config.variant == LDC1612 && OfUpperChannels(register))
  }

  function RawRefusal(d: Driver): Err {
    if !d.bound then NOT_BOUND else if d.job.Some? then BUSY else INVALID_PARAM
  }

  lemma PlainWritten(d: Device, choice: Choice, register: int, value: bv16)
    requires choice.status == OK && 0 <= register < REGISTER_COUNT
    requires !(register == REG_RESET_DEV && value & MASK_RESET_DEV != 0)
    ensures Written(d, choice, register, value).regs == d.regs[register := value]
  {
    var done := ApplyWrite(d, register, value);
    InjectKeepsRegisters(done, choice.after);
  }

  /** A raw write that may have reached the device withdraws trust and records
      where; a reset leaves nothing known; an address NACK changes nothing. */
  lemma RawWriteAnswers(script: Script, s: System, register: uint8, value: bv16)
    ensures var (after, status) := WriteRegister16(script, s, register, value);
      var d := s.driver;
      && (!RawAllowed(d, register, true) ==> after == s && status == RawRefusal(d))
      && (RawAllowed(d, register, true) ==>
           && status == NextStatus(script, s) && OneCallback(s, after)
           && (status == OK && !(register == 0x1C && value & 0x8000 != 0) ==>
                after.device.regs == s.device.regs[register := value])
           && (status == I2C_NACK_ADDR ==> after.driver == d && after.device.regs == s.device.regs)
           && (status != I2C_NACK_ADDR ==>
                && after.driver == d.(applied := after.driver.applied, fault := after.driver.fault)
                && after.driver.applied == (if register == 0x1C || d.applied == UNKNOWN then UNKNOWN else DIRTY)
                && after.driver.fault.valid && after.driver.fault.register == register
                && after.driver.fault.cause == (if status == OK then CONFIG_DIRTY else status)
                && after.driver.fault.effects == Effects(false, status == OK, status != OK)))
  {
    hide Written, LatchedAfter, ConvertedAfter, CountsOf, ObserveIdentity, PhaseForRegister, ChannelForRegister,
      ObserveTransfer;
    CallbackSeen(s, true, register, value, NextStatus(script, s));
    if RawAllowed(s.driver, register, true) {
      if NextStatus(script, s) == I2C_NACK_ADDR {
        MissedWriteKeepsRegisters(s.device, script(|s.seen.log|), register, value);
      } else if NextStatus(script, s) == OK && !(register == 0x1C && value & 0x8000 != 0) {
        PlainWritten(s.device, script(|s.seen.log|), register, value);
      }
    }
  }

  /** A raw read delivers the register's word and never touches the driver. */
  lemma RawReadAnswers(script: Script, s: System, register: uint8)
    ensures var (after, status, value) := ReadRegister16(script, s, register);
      && after.driver == s.driver
      && (!RawAllowed(s.driver, register, false) ==> after == s && status == RawRefusal(s.driver) && value == 0)
      && (RawAllowed(s.driver, register, false) ==>
           && status == NextStatus(script, s) && OneCallback(s, after) && after.device.regs == s.device.regs
           && (status != OK ==> value == 0)
           && (status == OK && register >= 0x08 && register != 0x18 ==> value == s.device.regs[register])
           && (status == OK && register < 0x08 && register % 2 == 0 ==> value == s.device.ch[register / 2].liveMsb))
  {
    hide AfterRead, LatchedAfter, ConvertedAfter, CountsOf, ObserveIdentity, StatusValue, ObserveTransfer;
    CallbackSeen(s, false, register, ReadValue(s.device, register), NextStatus(script, s));
    ReadKeepsRegisters(s.device, script(|s.seen.log|), register);
  }
}
