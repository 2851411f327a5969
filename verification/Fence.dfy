/** The identity fence: trust is never above UNKNOWN, and no job writes a
    profile register, unless both identity registers were read and matched by
    a job after the last event that voided trust. The evidence is kept by the
    observer from the wire alone. */
module Fence {
  import opened CommandTable
  import opened Profile
  import opened DriverTypes
  import opened Registers
  import opened Validation
  import opened Decoding
  import opened Chip
  import opened Machine
  import opened Engine
  import opened Trust

  predicate Identified(o: Observer) { o.manufacturerSeen && o.deviceSeen }

  /** A profile write made for a job. */
  predicate IsProfileWrite(t: Transfer) {
    t.byJob && t.write && t.register != REG_RESET_DEV
  }

  predicate EvidenceInv(d: Driver, o: Observer) {
    && (d.applied != UNKNOWN ==> Identified(o))
    && (d.job.Some? && d.job.value.kind == INITIALIZE ==>
         (d.job.value.done >= 1 ==> o.manufacturerSeen) && (d.job.value.done >= 2 ==> Identified(o)))
    && (d.job.Some? && d.job.value.kind == RESET_AND_REAPPLY ==>
         (d.job.value.done >= 2 ==> o.manufacturerSeen) && (d.job.value.done >= 3 ==> Identified(o)))
  }

  predicate LogFenced(log: seq<Transfer>) {
    forall i :: 0 <= i < |log| && IsProfileWrite(log[i]) ==> log[i].fenced
  }

  predicate FenceInv(s: System) {
    EvidenceInv(s.driver, s.seen) && LogFenced(s.seen.log)
  }

  lemma ObserveFacts(o: Observer, device: Device, byJob: bool, write: bool, register: int, value: bv16, status: Err,
                     timeout: nat)
    ensures var after := ObserveTransfer(o, device, byJob, write, register, value, status, timeout);
      && |after.log| == |o.log| + 1 && after.log[..|o.log|] == o.log
      && after.log[|o.log|] == Transfer(write, register, value, status, byJob, Identified(o))
      && (var seen := ObserveIdentity(o, byJob, write, register, status, value);
          after.manufacturerSeen == seen.manufacturerSeen && after.deviceSeen == seen.deviceSeen)
  {
  }

  lemma LogExtends(o: Observer, after: Observer)
    requires LogFenced(o.log) && |after.log| == |o.log| + 1 && after.log[..|o.log|] == o.log
    requires IsProfileWrite(after.log[|o.log|]) ==> after.log[|o.log|].fenced
    ensures LogFenced(after.log)
  {
    forall i | 0 <= i < |after.log| && IsProfileWrite(after.log[i])
      ensures after.log[i].fenced
    {
      if i < |o.log| {
        assert after.log[..|o.log|][i] == o.log[i];
      }
    }
  }

  lemma StepObserves(script: Script, s: System, now: uint64, timeout: nat)
    requires s.driver.job.Some? && JobInProgram(s.driver)
    ensures var action := CurrentAction(s.driver);
      var choice := script(|s.seen.log|);
      var value := if action.write then action.value else ReadValue(s.device, action.register);
      var after := TransferStep(script, s, now, timeout).seen;
      && |after.log| == |s.seen.log| + 1 && after.log[..|s.seen.log|] == s.seen.log
      && after.log[|s.seen.log|] == Transfer(action.write, action.register, value, choice.status, true,
                                             Identified(s.seen))
      && (var seen := ObserveIdentity(s.seen, true, action.write, action.register, choice.status, value);
          after.manufacturerSeen == seen.manufacturerSeen && after.deviceSeen == seen.deviceSeen)
  {
    hide Complete, Written, AfterRead, ReadValue, ReplayAction, AcquireAction, ReplayLength, Selected, ObserveTransfer,
      ObserveIdentity, PublishSelected;
    var action := CurrentAction(s.driver);
    var value := if action.write then action.value else ReadValue(s.device, action.register);
    ObserveFacts(s.seen, s.device, true, action.write, action.register, value, script(|s.seen.log|).status, timeout);
  }

  /** Observer flags after the current transfer of `d`. */
  function SeenAfter(d: Driver, o: Observer, status: Err, value: bv16): Observer
    requires d.job.Some? && JobInProgram(d)
  {
    ObserveIdentity(o, true, CurrentAction(d).write, CurrentAction(d).register, status, value)
  }

  lemma ReplayEvidence(d: Driver, o: Observer, status: Err, now: uint64)
    requires d.job.Some? && JobInProgram(d) && JobInv(d) && EvidenceInv(d, o)
    requires IsConfigKind(d.job.value.kind) && d.job.value.done >= ApplyOffset(d.job.value.kind)
    ensures EvidenceInv(Complete(d, CurrentAction(d), status, CurrentAction(d).value, now),
                        SeenAfter(d, o, status, CurrentAction(d).value))
    ensures Identified(o)
  {
    hide Complete, ReplayAction, AcquireAction, ReplayLength, Selected;
    ReplayActionShape(d.config, d.job.value.done - ApplyOffset(d.job.value.kind));
    ReplayOutcome(d, status, now);
    CompleteAdvances(d, CurrentAction(d), status, CurrentAction(d).value, now);
  }

  lemma ResetEvidence(d: Driver, o: Observer, status: Err, now: uint64)
    requires d.job.Some? && JobInProgram(d) && JobInv(d) && EvidenceInv(d, o)
    requires d.job.value.kind == RESET_AND_REAPPLY && d.job.value.done == 0
    ensures EvidenceInv(Complete(d, CurrentAction(d), status, CurrentAction(d).value, now),
                        SeenAfter(d, o, status, CurrentAction(d).value))
  {
    hide Complete, ReplayAction, AcquireAction, ReplayLength, Selected;
    ResetOutcome(d, status, now);
    CompleteAdvances(d, CurrentAction(d), status, CurrentAction(d).value, now);
  }

  lemma IdentityEvidence(d: Driver, o: Observer, status: Err, value: bv16, now: uint64)
    requires d.job.Some? && JobInProgram(d) && JobInv(d) && EvidenceInv(d, o)
    requires IsConfigKind(d.job.value.kind) && d.job.value.done < ApplyOffset(d.job.value.kind)
    requires !CurrentAction(d).write
    ensures EvidenceInv(Complete(d, CurrentAction(d), status, value, now), SeenAfter(d, o, status, value))
  {
    hide Complete, ReplayAction, AcquireAction, ReplayLength, Selected;
    IdentityOutcome(d, status, value, now);
    CompleteAdvances(d, CurrentAction(d), status, value, now);
  }

  lemma AcquireEvidence(d: Driver, o: Observer, status: Err, value: bv16, now: uint64)
    requires d.job.Some? && JobInProgram(d) && JobInv(d) && EvidenceInv(d, o) && d.job.value.kind == ACQUIRE
    ensures EvidenceInv(Complete(d, CurrentAction(d), status, value, now), SeenAfter(d, o, status, value))
    ensures !CurrentAction(d).write
  {
    hide Complete, ReplayAction, AcquireAction, ReplayLength, Selected, Within;
    AcquireActionShape(d.job.value.mask, d.job.value.done);
    AcquireOutcome(d, status, value, now);
    CompleteAdvances(d, CurrentAction(d), status, value, now);
  }

  lemma StepKeepsFence(script: Script, s: System, now: uint64, timeout: nat)
    requires s.driver.job.Some? && Trusted(s) && FenceInv(s)
    ensures FenceInv(TransferStep(script, s, now, timeout))
  {
    hide Complete, Written, AfterRead, ReadValue, ReplayAction, AcquireAction, ReplayLength, Selected, ObserveTransfer,
      TransferStep, LogFenced, Accepted, Holds, QueueInv, ObserveIdentity;
    TrustedParts(s);
    StepObserves(script, s, now, timeout);
    StepDriver(script, s, now, timeout);
    var d, job := s.driver, s.driver.job.value;
    var action := CurrentAction(d);
    var status := script(|s.seen.log|).status;
    var value := if action.write then action.value else ReadValue(s.device, action.register);
    if job.kind == ACQUIRE {
      AcquireEvidence(d, s.seen, status, value, now);
    } else if job.done >= ApplyOffset(job.kind) {
      ReplayActionShape(d.config, job.done - ApplyOffset(job.kind));
      ReplayEvidence(d, s.seen, status, now);
    } else if job.kind == RESET_AND_REAPPLY && job.done == 0 {
      ResetEvidence(d, s.seen, status, now);
    } else {
      IdentityEvidence(d, s.seen, status, value, now);
    }
    LogExtends(s.seen, TransferStep(script, s, now, timeout).seen);
  }

  lemma {:induction false} TransfersKeepFence(script: Script, s: System, now: uint64, timeout: nat, remaining: nat)
    requires Trusted(s) && FenceInv(s)
    ensures FenceInv(Transfers(script, s, now, timeout, remaining))
    decreases remaining
  {
    hide TransferStep, Trusted, FenceInv;
    TrustedParts(s);
    if remaining > 0 && s.driver.job.Some? {
      StepKeepsTrust(script, s, now, timeout);
      StepKeepsFence(script, s, now, timeout);
      TransfersKeepFence(script, TransferStep(script, s, now, timeout), now, timeout, remaining - 1);
    }
  }

  lemma AbandonKeepsFence(s: System, outcome: Outcome, status: Err, now: uint64)
    requires s.driver.job.Some? && Trusted(s) && FenceInv(s)
    ensures FenceInv(s.(driver := Abandon(s.driver, outcome, status, now)))
  {
    hide Abandon, LogFenced, Accepted, Holds;
    AbandonKeepsTrust(s.driver, s.device.regs, outcome, status, now);
  }

  lemma CancelKeepsFence(s: System)
    requires Trusted(s) && FenceInv(s)
    ensures FenceInv(Cancel(s)) && LogFenced(s.seen.log)
    ensures Cancel(s).driver.job.None? && Cancel(s).seen == s.seen
  {
    hide Abandon, LogFenced, Accepted, Holds;
    CancelKeepsTrust(s);
    if s.driver.job.Some? {
      AbandonKeepsFence(s, CANCELLED, CANCELLED_BY_OWNER, 0);
    }
  }

  lemma DirectKeepsFence(s: System, after: System, register: int, write: bool, value: bv16, status: Err)
    requires FenceInv(s) && s.driver.job.None? && after.driver.job.None?
    requires after.seen
      == ObserveTransfer(s.seen, s.device, false, write, register, value, status, s.driver.config.i2cTimeoutMs)
    requires after.driver.applied != UNKNOWN ==> s.driver.applied != UNKNOWN
    requires write && register == REG_RESET_DEV && status != I2C_NACK_ADDR ==> after.driver.applied == UNKNOWN
    ensures FenceInv(after)
  {
    hide ObserveTransfer, LogFenced;
    ObserveFacts(s.seen, s.device, false, write, register, value, status, s.driver.config.i2cTimeoutMs);
    LogExtends(s.seen, after.seen);
  }

  lemma PollFence(script: Script, s: System, now: uint64, maxTransfers: uint8)
    requires Trusted(s) && FenceInv(s)
    ensures JobInProgram(s.driver) && FenceInv(Poll(script, s, now, maxTransfers))
  {
    hide Trusted, FenceInv, Transfers, Abandon, PollBudget, PollTimeout;
    TrustedParts(s);
    if s.driver.job.Some? {
      AbandonKeepsFence(s, TIMED_OUT, TIMEOUT, now);
      if PollBudget(s.driver, now, maxTransfers) > 0 {
        TransfersKeepFence(script, s, now, PollTimeout(s.driver, now, maxTransfers),
                           PollBudget(s.driver, now, maxTransfers));
      }
    }
  }

  lemma DirectFence(script: Script, s: System, register: uint8, value: bv16)
    requires FenceInv(s)
    ensures FenceInv(WriteRegister16(script, s, register, value).0)
    ensures FenceInv(ReadRegister16(script, s, register).0)
  {
    hide FenceInv, Written, AfterRead, ReadValue, ObserveTransfer, IsConfigurationRegister, IsLdc1614OnlyRegister,
      IsValidRegister, PhaseForRegister, ChannelForRegister;
    if WriteRegister16(script, s, register, value).0 != s {
      DirectKeepsFence(s, WriteRegister16(script, s, register, value).0, register, true, value,
                       script(|s.seen.log|).status);
    }
    if ReadRegister16(script, s, register).0 != s {
      DirectKeepsFence(s, ReadRegister16(script, s, register).0, register, false, ReadValue(s.device, register),
                       script(|s.seen.log|).status);
    }
  }

  lemma BookkeepingFence(script: Script, s: System, e: Event)
    requires Trusted(s) && FenceInv(s) && OwnerBookkeeping(e)
    ensures JobInProgram(s.driver) && FenceInv(Apply(script, s, e))
  {
    hide Trusted, LogFenced, Accepted, SameBinding;
    TrustedParts(s);
  }

  lemma ApplyKeepsFence(script: Script, s: System, e: Event)
    requires Trusted(s) && FenceInv(s)
    ensures FenceInv(Apply(script, s, e))
  {
    hide Trusted, LogFenced, Poll, SleepOrWake, WriteRegister16, ReadRegister16, Cancel, ClearConversionEvidence,
      Inject, Bind, UpdateDesiredConfig, Start, TakeResult;
    TrustedParts(s);
    CancelKeepsFence(s);
    match e
    case PollEvent(now, maxTransfers) => PollFence(script, s, now, maxTransfers);
    case SleepEvent => SleepFence(script, s, true);
    case WakeEvent => SleepFence(script, s, false);
    case WriteEvent(register, value) => DirectFence(script, s, register, value);
    case ReadEvent(register) => DirectFence(script, s, register, 0);
    case CancelEvent =>
    case ConversionEvent(conversion) =>
    case InvalidateEvent(reason) =>
    case PowerCycleEvent(regs, cause) => PowerCycleFence(s, regs, cause);
    case _ => BookkeepingFence(script, s, e);
  }

  lemma PowerCycleFence(s: System, regs: RegisterFile, cause: Err)
    requires Trusted(s) && FenceInv(s)
    ensures JobInProgram(s.driver)
    ensures FenceInv(Invalidate(s.(device := ClearConversionEvidence(s.device.(regs := regs))), cause))
  {
    hide Abandon, LogFenced, Accepted, Holds, ClearConversionEvidence;
    TrustedParts(s);
    if s.driver.job.Some? {
      AbandonKeepsTrust(s.driver, s.device.regs, CANCELLED, CANCELLED_BY_OWNER, 0);
    }
  }

  lemma SleepFence(script: Script, s: System, to: bool)
    requires FenceInv(s)
    ensures FenceInv(SleepOrWake(script, s, to).0)
  {
    hide LogFenced, Written, ObserveTransfer, BuildConfigRegister;
    var after := SleepOrWake(script, s, to).0;
    if after != s {
      DirectKeepsFence(s, after, REG_CONFIG, true, BuildConfigRegister(s.driver.config, to),
                       script(|s.seen.log|).status);
    }
  }
}
