/** What the diagnostic CLI relies on when it is the only user of the driver:
    facts about single driver calls made with at most one live operation. */
module CliDevice {
  import opened CommandTable
  import opened Profile
  import opened DriverTypes
  import opened Registers
  import opened Validation
  import opened Decoding
  import opened Chip
  import opened Machine
  import opened Engine
  import opened Trust
  import Deadlines
  import WriteEffects

  /** No active job and no queued result. */
  predicate Quiet(d: Driver) { d.job.None? && d.queue == [] }

  /** The variant the driver is bound to, if it is bound. */
  function PartOf(d: Driver): Option<DeviceVariant> { if d.bound then Some(d.config.variant) else None }

  lemma BoundVariant(s: System)
    requires Trusted(s)
    ensures PartOf(s.driver).Some? ==> PartOf(s.driver).value != VARIANT_UNSPECIFIED
  {
    hide ChannelAccepted, Holds;
  }

  /** A success result that is still undrained tells the truth: a
      configuration job left the profile applied, an acquisition has its batch. */
  predicate HonestSuccess(d: Driver, r: OperationResult) {
    r.outcome == SUCCESS ==>
      && r.status == OK
      && (if r.kind == ACQUIRE then r.sampleBatch.Some? else d.applied == APPLIED_SLEEPING)
  }

  /** The one live operation is `id` of `kind`: active, or ended and queued. */
  predicate Live(d: Driver, id: uint64, kind: JobKind) {
    if d.job.Some? then d.job.value.id == id && d.job.value.kind == kind && d.queue == []
    else |d.queue| == 1 && d.queue[0].operationId == id && d.queue[0].kind == kind && HonestSuccess(d, d.queue[0])
  }

  lemma StepSettles(script: Script, s: System, now: uint64, timeout: nat)
    requires Trusted(s) && s.driver.job.Some? && s.driver.queue == []
    ensures JobInProgram(s.driver)
    ensures Live(TransferStep(script, s, now, timeout).driver, s.driver.job.value.id, s.driver.job.value.kind)
    ensures PartOf(TransferStep(script, s, now, timeout).driver) == PartOf(s.driver)
  {
    hide TransferStep, Complete, CurrentAction, MaxTransfers, ReadValue, Written, AfterRead, ReplayAction,
      AcquireAction, Accepted, Holds, QueueInv, FinalBatch, Within;
    TrustedParts(s);
    StepDriver(script, s, now, timeout);
    var d, job := s.driver, s.driver.job.value;
    var action := CurrentAction(d);
    var status := script(|s.seen.log|).status;
    var value := if action.write then action.value else ReadValue(s.device, action.register);
    CompleteAdvances(d, action, status, value, now);
    if job.kind == ACQUIRE {
      AcquireOutcome(d, status, value, now);
    } else if action.write && status == OK {
      SuccessApplies(d, status, now);
    }
  }

  /** The last good write of a configuration job leaves the profile applied. */
  lemma SuccessApplies(d: Driver, status: Err, now: uint64)
    requires d.job.Some? && JobInProgram(d) && JobInv(d) && d.job.value.kind != ACQUIRE
    requires CurrentAction(d).write && status == OK
    ensures var after := Complete(d, CurrentAction(d), status, CurrentAction(d).value, now);
      after.job.None? ==> after.applied == APPLIED_SLEEPING
  {
    hide ReplayAction, AcquireAction, ReplayLength, Selected, Complete;
    if d.job.value.done >= ApplyOffset(d.job.value.kind) {
      ReplayOutcome(d, status, now);
    } else {
      ResetOutcome(d, status, now);
    }
  }

  lemma OneTransfer(script: Script, s: System, now: uint64, timeout: nat)
    requires JobInProgram(s.driver) && s.driver.job.Some?
    ensures Transfers(script, s, now, timeout, 1) == TransferStep(script, s, now, timeout)
  {
    hide TransferStep, MaxTransfers;
    StepKeepsProgram(script, s, now, timeout);
    Deadlines.NoTransfers(script, TransferStep(script, s, now, timeout), now, timeout);
  }

  /** A poll of one transfer keeps the operation live and makes at most one
      callback. */
  lemma PollOne(script: Script, s: System, now: uint64)
    requires Trusted(s) && s.driver.job.Some? && s.driver.queue == []
    ensures JobInProgram(s.driver)
    ensures var after := Poll(script, s, now, 1);
      && Trusted(after) && Live(after.driver, s.driver.job.value.id, s.driver.job.value.kind)
      && |s.seen.log| <= |after.seen.log| <= |s.seen.log| + 1 && PartOf(after.driver) == PartOf(s.driver)
  {
    hide Trusted, Transfers, TransferStep, Abandon, MaxTransfers, PollTimeout;
    TrustedParts(s);
    PollKeepsTrust(script, s, now, 1);
    if DueOrPast(now, s.driver.job.value.deadlineMs) {
      AbandonLive(s, TIMED_OUT, TIMEOUT, now);
    } else if PollBudget(s.driver, now, 1) > 0 {
      var timeout := PollTimeout(s.driver, now, 1);
      OneTransfer(script, s, now, timeout);
      StepSettles(script, s, now, timeout);
      Deadlines.StepAdvances(script, s, now, timeout);
    }
  }

  lemma AbandonLive(s: System, outcome: Outcome, status: Err, now: uint64)
    requires Trusted(s) && s.driver.job.Some? && s.driver.queue == [] && outcome != SUCCESS
    ensures JobInProgram(s.driver)
    ensures var after := Abandon(s.driver, outcome, status, now);
      && Live(after, s.driver.job.value.id, s.driver.job.value.kind) && after.job.None?
      && after.queue[0].outcome == outcome
      && PartOf(after) == PartOf(s.driver)
  {
    hide CurrentAction, MaxTransfers, Accepted, Holds, QueueInv, JobInv;
    TrustedParts(s);
  }

  lemma CancelLive(s: System)
    requires Trusted(s) && s.driver.job.Some? && s.driver.queue == []
    ensures JobInProgram(s.driver)
    ensures var after := Cancel(s);
      && Trusted(after) && Live(after.driver, s.driver.job.value.id, s.driver.job.value.kind)
      && after.driver.job.None? && after.driver.queue[0].outcome == CANCELLED
      && after.seen.log == s.seen.log && PartOf(after.driver) == PartOf(s.driver)
  {
    hide Trusted, Abandon;
    TrustedParts(s);
    CancelKeepsTrust(s);
    AbandonLive(s, CANCELLED, CANCELLED_BY_OWNER, 0);
  }

  lemma StartLive(s: System, kind: JobKind, mask: ChannelMask, id: uint64, deadlineMs: uint64)
    requires Trusted(s) && Quiet(s.driver) && kind != NO_JOB
    ensures var (after, status) := Start(s, kind, mask, id, deadlineMs);
      && Trusted(after) && after.seen.log == s.seen.log && PartOf(after.driver) == PartOf(s.driver)
      && after.driver.applied == s.driver.applied
      && (status == IN_PROGRESS ==> after.driver.job.Some? && Live(after.driver, id, kind))
      && (status != IN_PROGRESS ==> after == s)
  {
    hide Trusted, StartStatus;
    StartKeepsTrust(s, kind, mask, id, deadlineMs);
  }

  lemma InvalidateQuiet(s: System, reason: Err)
    requires Trusted(s) && Quiet(s.driver)
    ensures JobInProgram(s.driver)
    ensures var after := Invalidate(s, reason);
      && Trusted(after) && Quiet(after.driver) && after.driver.applied == UNKNOWN
      && after.seen.log == s.seen.log && PartOf(after.driver) == PartOf(s.driver)
  {
    hide Trusted;
    TrustedParts(s);
    InvalidateKeepsTrust(s, s.device.regs, reason);
  }

  lemma ReadQuiet(script: Script, s: System, register: uint8)
    requires Trusted(s) && Quiet(s.driver)
    ensures var (after, status, value) := ReadRegister16(script, s, register);
      && Trusted(after) && Quiet(after.driver) && after.driver == s.driver
      && |s.seen.log| <= |after.seen.log| <= |s.seen.log| + 1
  {
    hide Trusted, AfterRead, ReadValue, LatchedAfter, ConvertedAfter, ObserveIdentity, IsValidRegister,
      IsLdc1614OnlyRegister;
    DirectAccessKeepsTrust(script, s, register, 0);
    DirectLog(s.seen, s.device, false, register, ReadValue(s.device, register), script(|s.seen.log|).status,
              s.driver.config.i2cTimeoutMs);
  }

  lemma DirectLog(o: Observer, device: Device, write: bool, register: int, value: bv16, status: Err, timeout: nat)
    ensures |ObserveTransfer(o, device, false, write, register, value, status, timeout).log| == |o.log| + 1
  {
  }

  lemma WriteQuiet(script: Script, s: System, register: uint8, value: bv16)
    requires Trusted(s) && Quiet(s.driver)
    ensures var (after, status) := WriteRegister16(script, s, register, value);
      && Trusted(after) && Quiet(after.driver) && PartOf(after.driver) == PartOf(s.driver)
      && |s.seen.log| <= |after.seen.log| <= |s.seen.log| + 1
  {
    hide Trusted, Written, ReadValue, ObserveTransfer, IsConfigurationRegister, IsLdc1614OnlyRegister, PhaseForRegister,
      ChannelForRegister;
    DirectAccessKeepsTrust(script, s, register, value);
    DirectLog(s.seen, s.device, true, register, value, script(|s.seen.log|).status, s.driver.config.i2cTimeoutMs);
  }

  lemma SwitchQuiet(script: Script, s: System, to: bool)
    requires Trusted(s) && Quiet(s.driver)
    ensures var (after, status) := SleepOrWake(script, s, to);
      && Trusted(after) && Quiet(after.driver) && PartOf(after.driver) == PartOf(s.driver)
      && |s.seen.log| <= |after.seen.log| <= |s.seen.log| + 1
  {
    hide Trusted, Written, ReadValue, ObserveTransfer, BuildConfigRegister;
    SleepOrWakeKeepsTrust(script, s, to);
    DirectLog(s.seen, s.device, true, REG_CONFIG, BuildConfigRegister(s.driver.config, to), script(|s.seen.log|).status,
              s.driver.config.i2cTimeoutMs);
  }

  /** Taking the only result leaves the driver quiet. */
  lemma TakeOnly(s: System)
    requires Trusted(s) && s.driver.job.None? && |s.driver.queue| == 1
    ensures var (after, result) := TakeResult(s);
      && Trusted(after) && Quiet(after.driver) && result == Some(s.driver.queue[0])
      && after.driver.applied == s.driver.applied && PartOf(after.driver) == PartOf(s.driver)
      && after.seen.log == s.seen.log
  {
    hide Trusted;
    TakeKeepsTrust(s);
  }
}
