/** The driver's structural invariant and the soundness of its trust state:
    what APPLIED_SLEEPING and APPLIED_ACTIVE say about registers the driver
    never reads back. */
module Trust {
  import opened CommandTable
  import opened Profile
  import opened DriverTypes
  import opened Registers
  import opened Validation
  import opened Decoding
  import opened Chip
  import opened Machine
  import opened Engine

  // ----- structural invariant -----------------------------------------------

  predicate IsConfigKind(kind: JobKind) {
    kind == INITIALIZE || kind == APPLY_CONFIG || kind == RESET_AND_REAPPLY
  }

  /** Replay steps of an active configuration job that are confirmed. */
  function Confirmed(job: Job): nat {
    if IsConfigKind(job.kind) && job.done > ApplyOffset(job.kind) then job.done - ApplyOffset(job.kind) else 0
  }

  predicate QueueInv(d: Driver) {
    && |d.queue| + (if d.job.Some? then 1 else 0) <= RESULT_CAPACITY
    && (forall i :: 0 <= i < |d.queue| ==> d.queue[i].operationId != 0)
    && (forall i, j :: 0 <= i < j < |d.queue| ==> d.queue[i].operationId != d.queue[j].operationId)
    && (d.job.Some? ==> d.job.value.id != 0)
    && (d.job.Some? ==> forall i :: 0 <= i < |d.queue| ==> d.queue[i].operationId != d.job.value.id)
  }

  ghost predicate BindingInv(d: Driver) {
    && (d.bound ==> Accepted(d.config))
    && (!d.bound ==> d.job.None? && d.queue == [] && d.applied == UNKNOWN)
    && JobInProgram(d)
  }

  /** What the active job implies for the trust state. */
  predicate JobInv(d: Driver) {
    if d.job.None? then d.applied != APPLYING
    else
      var job := d.job.value;
      if job.kind == ACQUIRE then
        && d.applied == APPLIED_ACTIVE
        && job.mask != 0 && Within(job.mask, d.config.channels)
      else
        && IsConfigKind(job.kind)
        && (d.applied == APPLYING <==> Confirmed(job) > 0)
        && (job.effects.partial <==> Confirmed(job) > 0 || (job.kind == RESET_AND_REAPPLY && job.done > 0))
        && !job.effects.indeterminate
        && (job.kind == RESET_AND_REAPPLY && 0 < job.done < 3 ==> d.applied == UNKNOWN)
        && (job.kind == RESET_AND_REAPPLY && job.done == 3 ==> d.applied == DIRTY)
        && (job.kind == INITIALIZE && job.done == 2 ==> d.applied != UNKNOWN)
        && (job.kind == APPLY_CONFIG ==> d.applied != UNKNOWN)
        && (job.effects.partial ==> job.lastWrite == LastWritePlace(d, job))
  }

  /** The last confirmed write of a configuration job, read off its program. */
  function LastWritePlace(d: Driver, job: Job): Place {
    if 0 < Confirmed(job) <= ReplayLength(d.config) then PlaceOf(ReplayAction(d.config, Confirmed(job) - 1))
    else PlaceOf(RESET_ACTION)
  }

  // ----- trust --------------------------------------------------------------

  /** The word replay step `step` leaves, with CONFIG's sleep bit as given. */
  function Image(config: Config, sleeping: bool, step: nat): bv16
    requires step < ReplayLength(config)
  {
    if step == 0 then BuildConfigRegister(config, sleeping) else ReplayAction(config, step).value
  }

  /** The device holds the first `count` replay words. */
  ghost predicate Holds(regs: RegisterFile, config: Config, sleeping: bool, count: nat)
    requires count <= ReplayLength(config)
  {
    forall step :: 0 <= step < count ==>
      0 <= ReplayAction(config, step).register < REGISTER_COUNT
      && regs[ReplayAction(config, step).register] == Image(config, sleeping, step)
  }

  ghost predicate TrustInv(d: Driver, regs: RegisterFile) {
    && (d.applied == APPLIED_SLEEPING ==> Holds(regs, d.config, true, ReplayLength(d.config)) && !d.fault.valid)
    && (d.applied == APPLIED_ACTIVE ==> Holds(regs, d.config, false, ReplayLength(d.config)) && !d.fault.valid)
    && (d.job.Some? && Confirmed(d.job.value) <= ReplayLength(d.config) ==>
         Holds(regs, d.config, true, Confirmed(d.job.value)))
  }

  // ----- device facts -------------------------------------------------------

  lemma InjectKeepsRegisters(d: Device, cs: seq<Conversion>)
    ensures InjectAll(d, cs).regs == d.regs
    decreases |cs|
  {
    if cs != [] {
      InjectKeepsRegisters(Inject(d, cs[0]), cs[1..]);
    }
  }

  lemma EffectsKeepRegisters(d: Device, register: int)
    ensures LatchShadow(d, register).regs == d.regs && ReadSideEffects(d, register).regs == d.regs
  {
    hide Consume, ClearUnread;
  }

  lemma ReadKeepsRegisters(d: Device, choice: Choice, register: int)
    ensures AfterRead(d, choice, register).regs == d.regs
  {
    hide LatchShadow, ReadSideEffects;
    EffectsKeepRegisters(d, register);
    EffectsKeepRegisters(LatchShadow(d, register), register);
    var latched := LatchShadow(d, register);
    InjectKeepsRegisters(d, choice.after);
    InjectKeepsRegisters(latched, choice.after);
    InjectKeepsRegisters(ReadSideEffects(latched, register), choice.after);
  }

  /** A profile write changes its own register, and only if it completed. */
  lemma WriteChangesOneRegister(d: Device, choice: Choice, register: int, value: bv16)
    requires 0 <= register < REGISTER_COUNT && register != REG_RESET_DEV
    ensures Written(d, choice, register, value).regs
      == if EffectiveReach(choice) == COMPLETE then d.regs[register := value] else d.regs
  {
    InjectKeepsRegisters(d, choice.after);
    InjectKeepsRegisters(ApplyWrite(d, register, value), choice.after);
  }

  lemma MissedWriteKeepsRegisters(d: Device, choice: Choice, register: int, value: bv16)
    requires choice.status == I2C_NACK_ADDR
    ensures Written(d, choice, register, value).regs == d.regs
  {
    InjectKeepsRegisters(d, choice.after);
  }

  // ----- replay facts -------------------------------------------------------

  lemma ReplayDistinct(config: Config, i: nat, j: nat)
    requires i < ReplayLength(config) && j < ReplayLength(config) && i != j
    ensures ReplayAction(config, i).register != ReplayAction(config, j).register
  {
    hide ConfigWriteAt, StepOf;
    ReplayRegistersDistinct(config, ChannelCountFor(config.variant), i);
    ReplayRegistersDistinct(config, ChannelCountFor(config.variant), j);
  }

  lemma ReplayFirst(config: Config)
    ensures ReplayLength(config) >= 3
    ensures ReplayAction(config, 0)
      == Action(true, REG_CONFIG, BuildConfigRegister(config, true), FORCE_SLEEP, NO_CHANNEL)
  {
    hide BuildConfigRegister;
  }

  /** Writing the next replay word extends the confirmed prefix. */
  lemma HoldsExtends(regs: RegisterFile, config: Config, count: nat)
    requires count < ReplayLength(config) && Holds(regs, config, true, count)
    ensures 0 <= ReplayAction(config, count).register < REGISTER_COUNT
    ensures Holds(regs[ReplayAction(config, count).register := ReplayAction(config, count).value], config, true,
                  count + 1)
  {
    hide ReplayAction;
    ReplayActionShape(config, count);
    ReplayFirst(config);
    forall step | 0 <= step < count
      ensures ReplayAction(config, step).register != ReplayAction(config, count).register
    {
      ReplayDistinct(config, step, count);
    }
  }

  /** Rewriting CONFIG switches a held image between sleep and active. */
  lemma HoldsSwitches(regs: RegisterFile, config: Config, sleeping: bool)
    requires Holds(regs, config, !sleeping, ReplayLength(config))
    ensures Holds(regs[REG_CONFIG := BuildConfigRegister(config, sleeping)], config, sleeping, ReplayLength(config))
  {
    hide ReplayAction;
    ReplayFirst(config);
    forall step | 0 < step < ReplayLength(config)
      ensures ReplayAction(config, step).register != REG_CONFIG
    {
      ReplayDistinct(config, 0, step);
    }
  }

  // ----- one transfer -------------------------------------------------------

  ghost predicate DriverInv(d: Driver) {
    QueueInv(d) && BindingInv(d) && JobInv(d)
  }

  lemma EndedKeepsQueue(d: Driver, after: Driver)
    requires QueueInv(d) && d.job.Some? && Ended(d, after)
    ensures QueueInv(after)
  {
    forall i | 0 <= i < |d.queue|
      ensures after.queue[i] == d.queue[i]
    {
      assert after.queue[..|d.queue|][i] == d.queue[i];
    }
  }

  lemma CompleteKeepsQueue(d: Driver, action: Action, status: Err, value: bv16, now: uint64)
    requires QueueInv(d) && d.job.Some?
    ensures QueueInv(Complete(d, action, status, value, now))
  {
    hide Complete;
    CompleteAdvances(d, action, status, value, now);
    var counted := WithJob(d, d.job.value.(done := d.job.value.done + 1));
    if Ended(counted, Complete(d, action, status, value, now)) {
      EndedKeepsQueue(counted, Complete(d, action, status, value, now));
    }
  }

  /** The trust state after one attempt, by what the attempt was. */
  lemma ReplayFailure(d: Driver, action: Action, status: Err, now: uint64)
    requires d.job.Some? && JobInv(d) && IsConfigKind(d.job.value.kind)
    requires status != OK && action.write && action.register != REG_RESET_DEV
    ensures var after := Complete(d, action, status, action.value, now);
      && JobInv(after) && after.job.None?
      && (after.applied == DIRTY || (status == I2C_NACK_ADDR && after.applied == d.applied && after.fault == d.fault))
  {
    hide SucceedWrite, SucceedIdentity, SucceedAcquire, FailIdentity, FailAcquire, ProgressAt, MaxTransfers;
  }

  lemma ReplaySuccess(d: Driver, action: Action, now: uint64)
    requires d.job.Some? && JobInProgram(d) && JobInv(d)
    requires IsConfigKind(d.job.value.kind) && d.job.value.done >= ApplyOffset(d.job.value.kind)
    requires action == CurrentAction(d) && action.write && action.register != REG_RESET_DEV
    ensures var after := Complete(d, action, OK, action.value, now);
      && JobInv(after)
      && (after.job.Some? ==> after.applied == APPLYING && Confirmed(after.job.value) == Confirmed(d.job.value) + 1)
      && (after.job.None? ==>
           && after.applied == APPLIED_SLEEPING && !after.fault.valid
           && Confirmed(d.job.value) + 1 == ReplayLength(d.config))
  {
    hide ReplayAction, AcquireAction, ReplayLength, Fail, FailWrite, SucceedIdentity, SucceedAcquire, FailIdentity,
      FailAcquire, ProgressAt;
  }

  lemma ReplayOutcome(d: Driver, status: Err, now: uint64)
    requires d.job.Some? && JobInProgram(d) && JobInv(d)
    requires IsConfigKind(d.job.value.kind) && d.job.value.done >= ApplyOffset(d.job.value.kind)
    ensures var after := Complete(d, CurrentAction(d), status, CurrentAction(d).value, now);
      && JobInv(after)
      && (status == OK && after.job.Some? ==>
           after.applied == APPLYING && Confirmed(after.job.value) == Confirmed(d.job.value) + 1)
      && (status == OK && after.job.None? ==>
           && after.applied == APPLIED_SLEEPING && !after.fault.valid
           && Confirmed(d.job.value) + 1 == ReplayLength(d.config))
      && (status != OK ==> after.job.None?)
      && (status != OK ==>
           after.applied == DIRTY
           || (status == I2C_NACK_ADDR && after.applied == d.applied && after.fault == d.fault))
  {
    hide ReplayAction, AcquireAction, ReplayLength, Complete, JobInv;
    var job := d.job.value;
    ReplayActionShape(d.config, job.done - ApplyOffset(job.kind));
    if status == OK {
      ReplaySuccess(d, CurrentAction(d), now);
    } else {
      ReplayFailure(d, CurrentAction(d), status, now);
    }
  }

  lemma IdentityOutcome(d: Driver, status: Err, value: bv16, now: uint64)
    requires d.job.Some? && JobInProgram(d) && JobInv(d)
    requires IsConfigKind(d.job.value.kind) && d.job.value.done < ApplyOffset(d.job.value.kind)
    requires !CurrentAction(d).write
    ensures var after := Complete(d, CurrentAction(d), status, value, now);
      && JobInv(after)
      && (after.job.Some? ==>
           && status == OK && value == CurrentAction(d).value && Confirmed(after.job.value) == 0
           && after.fault == d.fault
           && after.applied == (if d.applied == UNKNOWN && CurrentAction(d) == DEVICE_ACTION then DIRTY else d.applied))
      && (after.job.None? ==> after.applied == UNKNOWN)
  {
    hide ReplayAction, AcquireAction, ReplayLength, SucceedWrite, SucceedAcquire, FailWrite, FailAcquire, ProgressAt;
  }

  lemma ResetOutcome(d: Driver, status: Err, now: uint64)
    requires d.job.Some? && JobInProgram(d) && JobInv(d)
    requires d.job.value.kind == RESET_AND_REAPPLY && d.job.value.done == 0
    ensures CurrentAction(d) == RESET_ACTION
    ensures var after := Complete(d, CurrentAction(d), status, CurrentAction(d).value, now);
      && JobInv(after)
      && (after.job.Some? <==> status == OK)
      && (status == I2C_NACK_ADDR ==> after.applied == d.applied && after.fault == d.fault)
      && (status != I2C_NACK_ADDR ==> after.applied == UNKNOWN)
      && (after.job.Some? ==> Confirmed(after.job.value) == 0)
  {
    hide ReplayAction, AcquireAction, ReplayLength, SucceedIdentity, SucceedAcquire, FailIdentity, FailAcquire,
      ProgressAt;
  }

  lemma FailAcquireKeeps(d: Driver, action: Action, status: Err, now: uint64)
    requires d.job.Some?
    ensures var after := FailAcquire(d, action, status, now);
      after.job.None? && after.applied == d.applied && after.fault == d.fault
  {
    hide ProgressAt;
  }

  lemma SucceedAcquireKeeps(d: Driver, action: Action, value: bv16, now: uint64)
    requires d.job.Some?
    ensures var after := SucceedAcquire(d, action, value, now);
      && after.applied == d.applied && after.fault == d.fault
      && (after.job.Some? ==>
           && after.config == d.config
           && after.job.value.kind == d.job.value.kind && after.job.value.mask == d.job.value.mask)
  {
    hide ProgressAt, BuildBatch, DecodeDeviceStatus, DecodeChannelSample, WithBit;
  }

  lemma AcquireOutcome(d: Driver, status: Err, value: bv16, now: uint64)
    requires d.job.Some? && JobInProgram(d) && JobInv(d) && d.job.value.kind == ACQUIRE
    ensures var after := Complete(d, CurrentAction(d), status, value, now);
      && !CurrentAction(d).write && JobInv(after)
      && after.applied == d.applied && after.fault == d.fault
      && (after.job.Some? ==> Confirmed(after.job.value) == 0)
  {
    hide ReplayAction, AcquireAction, BuildBatch, DecodeDeviceStatus, DecodeChannelSample, ProgressAt, Within, WithBit,
      ReplayLength, Selected, SucceedAcquire, FailAcquire;
    var counted := WithJob(d, d.job.value.(done := d.job.value.done + 1));
    FailAcquireKeeps(counted, CurrentAction(d), status, now);
    SucceedAcquireKeeps(counted, CurrentAction(d), value, now);
    AcquireActionShape(d.job.value.mask, d.job.value.done);
  }

  ghost predicate Trusted(s: System) {
    DriverInv(s.driver) && TrustInv(s.driver, s.device.regs)
  }

  lemma TrustedParts(s: System)
    requires Trusted(s)
    ensures DriverInv(s.driver) && TrustInv(s.driver, s.device.regs) && JobInProgram(s.driver)
  {
  }

  lemma StepDriver(script: Script, s: System, now: uint64, timeout: nat)
    requires s.driver.job.Some? && JobInProgram(s.driver)
    ensures var action := CurrentAction(s.driver);
      var choice := script(|s.seen.log|);
      var value := if action.write then action.value else ReadValue(s.device, action.register);
      var after := TransferStep(script, s, now, timeout);
      && after.driver == Complete(s.driver, action, choice.status, value, now)
      && after.device == (if action.write then Written(s.device, choice, action.register, action.value)
                          else AfterRead(s.device, choice, action.register))
  {
    hide Complete, Written, AfterRead, ReadValue, ObserveTransfer, ObserveResult, ReplayAction, AcquireAction,
      ReplayLength, Selected;
  }

  lemma BindingStep(script: Script, s: System, now: uint64, timeout: nat)
    requires s.driver.job.Some? && BindingInv(s.driver)
    ensures BindingInv(TransferStep(script, s, now, timeout).driver)
  {
    hide Complete, Accepted, TransferStep, ReplayAction, AcquireAction, ReplayLength, ReadValue, Written, AfterRead,
      Selected;
    StepKeepsProgram(script, s, now, timeout);
    StepDriver(script, s, now, timeout);
    var action := CurrentAction(s.driver);
    CompleteAdvances(s.driver, action, script(|s.seen.log|).status,
                     if action.write then action.value else ReadValue(s.device, action.register), now);
  }

  lemma ReplayStepKeepsTrust(script: Script, s: System, now: uint64, timeout: nat)
    requires s.driver.job.Some? && Trusted(s)
    requires IsConfigKind(s.driver.job.value.kind) && s.driver.job.value.done >= ApplyOffset(s.driver.job.value.kind)
    ensures var after := TransferStep(script, s, now, timeout);
      JobInv(after.driver) && TrustInv(after.driver, after.device.regs) && after.driver.config == s.driver.config
  {
    hide Complete, Accepted, TransferStep, ReplayAction, AcquireAction, ReplayLength, ReadValue, Written, AfterRead,
      Selected, QueueInv, Holds;
    StepDriver(script, s, now, timeout);
    var d, job := s.driver, s.driver.job.value;
    var step := job.done - ApplyOffset(job.kind);
    var action := CurrentAction(d);
    var choice := script(|s.seen.log|);
    ReplayActionShape(d.config, step);
    ReplayOutcome(d, choice.status, now);
    CompleteAdvances(d, action, choice.status, action.value, now);
    WriteChangesOneRegister(s.device, choice, action.register, action.value);
    HoldsNothing(s.device.regs, d.config);
    if choice.status == OK {
      HoldsExtends(s.device.regs, d.config, step);
    }
  }

  lemma HoldsNothing(regs: RegisterFile, config: Config)
    ensures Holds(regs, config, true, 0)
  {
  }

  lemma PrefixStepKeepsTrust(script: Script, s: System, now: uint64, timeout: nat)
    requires s.driver.job.Some? && Trusted(s)
    requires s.driver.job.value.kind == ACQUIRE || s.driver.job.value.done < ApplyOffset(s.driver.job.value.kind)
    ensures var after := TransferStep(script, s, now, timeout);
      JobInv(after.driver) && TrustInv(after.driver, after.device.regs) && after.driver.config == s.driver.config
  {
    hide Complete, Accepted, TransferStep, ReplayAction, AcquireAction, ReplayLength, ReadValue, Written, AfterRead,
      Selected, QueueInv, Holds, Within;
    StepDriver(script, s, now, timeout);
    var d, job := s.driver, s.driver.job.value;
    var action := CurrentAction(d);
    var choice := script(|s.seen.log|);
    var value := if action.write then action.value else ReadValue(s.device, action.register);
    CompleteAdvances(d, action, choice.status, value, now);
    HoldsNothing(TransferStep(script, s, now, timeout).device.regs, d.config);
    if job.kind == ACQUIRE {
      AcquireOutcome(d, choice.status, value, now);
      ReadKeepsRegisters(s.device, choice, action.register);
    } else if job.kind == RESET_AND_REAPPLY && job.done == 0 {
      ResetOutcome(d, choice.status, now);
      if choice.status == I2C_NACK_ADDR {
        MissedWriteKeepsRegisters(s.device, choice, action.register, action.value);
      }
    } else {
      IdentityOutcome(d, choice.status, value, now);
      ReadKeepsRegisters(s.device, choice, action.register);
    }
  }

  lemma StepKeepsTrust(script: Script, s: System, now: uint64, timeout: nat)
    requires s.driver.job.Some? && Trusted(s)
    ensures Trusted(TransferStep(script, s, now, timeout))
  {
    hide Complete, Accepted, TransferStep, ReplayAction, AcquireAction, ReplayLength, ReadValue, Written, AfterRead,
      Selected, QueueInv, Holds, Within, TrustInv;
    StepDriver(script, s, now, timeout);
    BindingStep(script, s, now, timeout);
    var action := CurrentAction(s.driver);
    var value := if action.write then action.value else ReadValue(s.device, action.register);
    CompleteKeepsQueue(s.driver, action, script(|s.seen.log|).status, value, now);
    var job := s.driver.job.value;
    if job.kind == ACQUIRE || job.done < ApplyOffset(job.kind) {
      PrefixStepKeepsTrust(script, s, now, timeout);
    } else {
      ReplayStepKeepsTrust(script, s, now, timeout);
    }
  }

  lemma {:induction false} TransfersKeepTrust(script: Script, s: System, now: uint64, timeout: nat, remaining: nat)
    requires Trusted(s)
    ensures Trusted(Transfers(script, s, now, timeout, remaining))
    decreases remaining
  {
    hide TransferStep, Trusted;
    TrustedParts(s);
    if remaining > 0 && s.driver.job.Some? {
      StepKeepsTrust(script, s, now, timeout);
      TransfersKeepTrust(script, TransferStep(script, s, now, timeout), now, timeout, remaining - 1);
    }
  }

  // ----- the owner's operations ---------------------------------------------

  /** Cancellation and expiry keep trust: registers already rewritten are
      declared dirty, untouched ones keep their state. */
  lemma AbandonKeepsTrust(d: Driver, regs: RegisterFile, outcome: Outcome, status: Err, now: uint64)
    requires d.job.Some? && DriverInv(d) && TrustInv(d, regs)
    ensures var after := Abandon(d, outcome, status, now);
      && DriverInv(after) && TrustInv(after, regs) && after.job.None? && Ended(d, after)
      && (after.applied == d.applied || (d.job.value.effects.partial && after.applied == DIRTY && d.applied != UNKNOWN))
      && (d.job.value.kind != ACQUIRE && d.job.value.effects.partial ==>
           after.fault == RecordFault(status, d.job.value.kind, LastWritePlace(d, d.job.value), d.job.value.effects))
      && (!d.job.value.effects.partial ==> after.fault == d.fault)
  {
    hide Accepted, ReplayAction, AcquireAction, ReplayLength, ProgressAt, Within, Holds, QueueInv;
    EndedKeepsQueue(d, Abandon(d, outcome, status, now));
  }

  lemma CancelKeepsTrust(s: System)
    requires Trusted(s)
    ensures Trusted(Cancel(s)) && Cancel(s).driver.job.None? && Cancel(s).device == s.device
  {
    hide Abandon, QueueInv, Holds, Accepted;
    if s.driver.job.Some? {
      AbandonKeepsTrust(s.driver, s.device.regs, CANCELLED, CANCELLED_BY_OWNER, 0);
    }
  }

  /** Whatever happened to the registers, invalidation restores soundness. */
  lemma InvalidateKeepsTrust(s: System, regs: RegisterFile, reason: Err)
    requires DriverInv(s.driver) && TrustInv(s.driver, regs)
    ensures Trusted(Invalidate(s, reason)) && Invalidate(s, reason).device == s.device
  {
    hide Abandon, Accepted, Holds;
    if s.driver.job.Some? {
      AbandonKeepsTrust(s.driver, regs, CANCELLED, CANCELLED_BY_OWNER, 0);
    }
  }

  lemma PollKeepsTrust(script: Script, s: System, now: uint64, maxTransfers: uint8)
    requires Trusted(s)
    ensures Trusted(Poll(script, s, now, maxTransfers))
  {
    hide Abandon, Transfers, PollBudget, PollTimeout, Accepted, QueueInv, Holds;
    if s.driver.job.Some? {
      AbandonKeepsTrust(s.driver, s.device.regs, TIMED_OUT, TIMEOUT, now);
      if PollBudget(s.driver, now, maxTransfers) > 0 {
        TransfersKeepTrust(script, s, now, PollTimeout(s.driver, now, maxTransfers),
                           PollBudget(s.driver, now, maxTransfers));
      }
    }
  }

  lemma StartKeepsTrust(s: System, kind: JobKind, mask: ChannelMask, id: uint64, deadlineMs: uint64)
    requires Trusted(s) && kind != NO_JOB
    ensures Trusted(Start(s, kind, mask, id, deadlineMs).0)
  {
    hide Accepted, Holds, ReplayAction;
    var after := Start(s, kind, mask, id, deadlineMs).0;
    if StartStatus(s.driver, kind, mask, id) == IN_PROGRESS {
      StartBudget(s.driver.config, kind, mask);
      HoldsNothing(s.device.regs, s.driver.config);
      forall i | 0 <= i < |s.driver.queue|
        ensures s.driver.queue[i].operationId != id
      {
      }
    }
  }

  lemma StartBudget(config: Config, kind: JobKind, mask: ChannelMask)
    requires kind != NO_JOB
    ensures ProgramLength(kind, config, mask) > 0
  {
    hide Selected;
  }

  lemma BindingKeepsTrust(s: System, config: Config)
    requires Trusted(s)
    ensures Trusted(Bind(s, config).0) && Trusted(End(s)) && Trusted(UpdateDesiredConfig(s, config).0)
  {
    hide Accepted, Holds, ReplayAction, ReplayLength;
  }

  lemma TakeKeepsTrust(s: System)
    requires Trusted(s)
    ensures Trusted(TakeResult(s).0)
  {
    hide Accepted, Holds, ReplayAction, ReplayLength;
  }

  lemma SleepOrWakeKeepsTrust(script: Script, s: System, to: bool)
    requires Trusted(s)
    ensures Trusted(SleepOrWake(script, s, to).0)
  {
    hide Accepted, Holds, ReplayAction, ReplayLength, Written, ObserveTransfer, BuildConfigRegister;
    var choice := script(|s.seen.log|);
    var value := BuildConfigRegister(s.driver.config, to);
    WriteChangesOneRegister(s.device, choice, REG_CONFIG, value);
    if Holds(s.device.regs, s.driver.config, !to, ReplayLength(s.driver.config)) {
      HoldsSwitches(s.device.regs, s.driver.config, to);
    }
  }

  lemma DirectAccessKeepsTrust(script: Script, s: System, register: uint8, value: bv16)
    requires Trusted(s)
    ensures Trusted(WriteRegister16(script, s, register, value).0)
    ensures Trusted(ReadRegister16(script, s, register).0)
  {
    hide Accepted, Holds, ReplayAction, ReplayLength, Written, AfterRead, ObserveTransfer, ReadValue;
    var choice := script(|s.seen.log|);
    ReadKeepsRegisters(s.device, choice, register);
    if choice.status == I2C_NACK_ADDR {
      MissedWriteKeepsRegisters(s.device, choice, register, value);
    }
  }

  /** The trust state is sound after every event. */
  lemma ApplyKeepsTrust(script: Script, s: System, e: Event)
    requires Trusted(s)
    ensures Trusted(Apply(script, s, e))
  {
    hide Trusted, Bind, End, UpdateDesiredConfig, Start, Poll, Cancel, TakeResult, Invalidate, SleepOrWake,
      WriteRegister16, ReadRegister16, ClearConversionEvidence, Inject;
    match e
    case BindEvent(config) => BindingKeepsTrust(s, config);
    case EndEvent => BindingKeepsTrust(s, s.driver.config);
    case UpdateEvent(config) => BindingKeepsTrust(s, config);
    case StartEvent(kind, mask, id, deadlineMs) =>
      if kind != NO_JOB { StartKeepsTrust(s, kind, mask, id, deadlineMs); }
    case PollEvent(now, maxTransfers) => PollKeepsTrust(script, s, now, maxTransfers);
    case CancelEvent => CancelKeepsTrust(s);
    case TakeEvent => TakeKeepsTrust(s);
    case InvalidateEvent(reason) => TrustedParts(s); InvalidateKeepsTrust(s, s.device.regs, reason);
    case SleepEvent => SleepOrWakeKeepsTrust(script, s, true);
    case WakeEvent => SleepOrWakeKeepsTrust(script, s, false);
    case WriteEvent(register, value) => DirectAccessKeepsTrust(script, s, register, value);
    case ReadEvent(register) => DirectAccessKeepsTrust(script, s, register, 0);
    case ConversionEvent(conversion) => ConversionKeepsTrust(s, conversion);
    case PowerCycleEvent(regs, cause) =>
      TrustedParts(s);
      InvalidateKeepsTrust(s.(device := ClearConversionEvidence(s.device.(regs := regs))), s.device.regs, cause);
  }

  lemma ConversionKeepsTrust(s: System, conversion: Conversion)
    requires Trusted(s)
    ensures Trusted(s.(device := Inject(s.device, conversion)))
  {
    hide Accepted, Holds;
  }
}
