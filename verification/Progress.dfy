/** Nothing above is vacuous: on a healthy bus with the right part behind it,
    in-time polls carry every admitted job to success. */
module Progress {
  import opened CommandTable
  import opened Profile
  import opened DriverTypes
  import opened Registers
  import opened Validation
  import opened Decoding
  import opened Chip
  import opened Machine
  import opened Engine
  import opened Trust
  import opened Ledger
  import opened Deadlines
  import WriteEffects

  /** The part answers with its own identity. */
  predicate RightPart(regs: RegisterFile) {
    regs[REG_MANUFACTURER_ID] == MANUFACTURER_ID_VALUE && regs[REG_DEVICE_ID] == DEVICE_ID_VALUE
  }

  /** Every transfer is acknowledged. */
  ghost predicate Healthy(script: Script) {
    forall i: nat :: script(i).status == OK
  }

  lemma ReadsItself(d: Device, register: int)
    requires register == REG_MANUFACTURER_ID || register == REG_DEVICE_ID
    ensures ReadValue(d, register) == d.regs[register]
  {
    hide StatusValue;
  }

  lemma ResetKeepsPart(d: Device, choice: Choice)
    requires choice.status == OK
    ensures RightPart(Written(d, choice, REG_RESET_DEV, MASK_RESET_DEV).regs)
  {
    InjectKeepsRegisters(ApplyWrite(d, REG_RESET_DEV, MASK_RESET_DEV), choice.after);
  }

  /** What an identity step expects is what the right part answers. */
  lemma IdentityShape(d: Driver)
    requires d.job.Some? && JobInProgram(d) && IsConfigKind(d.job.value.kind) && !CurrentAction(d).write
    ensures CurrentAction(d) == MANUFACTURER_ACTION || CurrentAction(d) == DEVICE_ACTION
  {
    hide ReplayAction, AcquireAction, ReplayLength, Selected;
    if d.job.value.done >= ApplyOffset(d.job.value.kind) {
      ReplayActionShape(d.config, d.job.value.done - ApplyOffset(d.job.value.kind));
    }
  }

  lemma WriteShape(d: Driver)
    requires d.job.Some? && JobInProgram(d) && IsConfigKind(d.job.value.kind) && CurrentAction(d).write
    ensures CurrentAction(d) == RESET_ACTION
      || (0x08 <= CurrentAction(d).register <= 0x21 && CurrentAction(d).register != REG_RESET_DEV)
  {
    hide ReplayAction, AcquireAction, ReplayLength, Selected;
    if d.job.value.done >= ApplyOffset(d.job.value.kind) {
      ReplayActionShape(d.config, d.job.value.done - ApplyOffset(d.job.value.kind));
    }
  }

  lemma StepKeepsPart(script: Script, s: System, now: uint64, timeout: nat)
    requires s.driver.job.Some? && Trusted(s) && Healthy(script) && RightPart(s.device.regs)
    ensures JobInProgram(s.driver)
    ensures RightPart(TransferStep(script, s, now, timeout).device.regs)
  {
    hide TransferStep, Complete, CurrentAction, MaxTransfers, ReadValue, Written, AfterRead, Accepted, Holds, QueueInv;
    TrustedParts(s);
    StepDriver(script, s, now, timeout);
    var action := CurrentAction(s.driver);
    var choice := script(|s.seen.log|);
    if !action.write {
      ReadKeepsRegisters(s.device, choice, action.register);
    } else {
      WriteEffects.KindCases(s);
      AcquireReads(s.driver);
      WriteShape(s.driver);
      if action == RESET_ACTION {
        ResetKeepsPart(s.device, choice);
      } else {
        WriteChangesOneRegister(s.device, choice, action.register, action.value);
      }
    }
  }

  lemma AcquireReads(d: Driver)
    requires d.job.Some? && JobInProgram(d)
    ensures d.job.value.kind == ACQUIRE ==> !CurrentAction(d).write
  {
    hide ReplayAction, AcquireAction, ReplayLength, Selected;
    if d.job.value.kind == ACQUIRE {
      AcquireActionShape(d.job.value.mask, d.job.value.done);
    }
  }

  /** A step that ends a job on a healthy bus ends it in success. */
  predicate EndsWell(d: Driver, after: Driver)
    requires d.job.Some?
  {
    after.job.None? ==>
      && |after.queue| == |d.queue| + 1 && after.queue[|d.queue|].outcome == SUCCESS
      && after.queue[|d.queue|].operationId == d.job.value.id
  }

  lemma HealthyStep(script: Script, s: System, now: uint64, timeout: nat)
    requires s.driver.job.Some? && Trusted(s) && Healthy(script) && RightPart(s.device.regs)
    ensures JobInProgram(s.driver)
    ensures EndsWell(s.driver, TransferStep(script, s, now, timeout).driver)
  {
    hide TransferStep, Complete, CurrentAction, MaxTransfers, ReadValue, Written, AfterRead, Accepted, Holds, QueueInv,
      FinalBatch;
    TrustedParts(s);
    StepDriver(script, s, now, timeout);
    var action := CurrentAction(s.driver);
    var value := if action.write then action.value else ReadValue(s.device, action.register);
    WriteEffects.KindCases(s);
    CompleteAdvances(s.driver, action, OK, value, now);
    if IsConfigKind(s.driver.job.value.kind) && !action.write {
      IdentityShape(s.driver);
      ReadsItself(s.device, action.register);
    }
  }

  lemma {:induction false} HealthyTransfers(script: Script, s: System, now: uint64, timeout: nat, remaining: nat)
    requires s.driver.job.Some? && Trusted(s) && Healthy(script) && RightPart(s.device.regs)
    ensures JobInProgram(s.driver)
    ensures var after := Transfers(script, s, now, timeout, remaining);
      && RightPart(after.device.regs) && EndsWell(s.driver, after.driver)
      && (after.driver.job.Some? ==>
           after.driver.queue == s.driver.queue && after.driver.job.value.id == s.driver.job.value.id)
    decreases remaining
  {
    hide TransferStep, Trusted, Healthy, RightPart, MaxTransfers;
    TrustedParts(s);
    if remaining > 0 {
      var next := TransferStep(script, s, now, timeout);
      StepKeepsTrust(script, s, now, timeout);
      StepKeepsPart(script, s, now, timeout);
      HealthyStep(script, s, now, timeout);
      SameJob(script, s, now, timeout);
      StepKeepsProgram(script, s, now, timeout);
      if next.driver.job.Some? {
        HealthyTransfers(script, next, now, timeout, remaining - 1);
      } else {
        NoTransfers(script, next, now, timeout);
      }
    }
  }

  lemma SameJob(script: Script, s: System, now: uint64, timeout: nat)
    requires s.driver.job.Some? && JobInProgram(s.driver)
    ensures var after := TransferStep(script, s, now, timeout).driver;
      after.job.Some? ==>
        && after.queue == s.driver.queue && after.job.value.id == s.driver.job.value.id
        && after.job.value.deadlineMs == s.driver.job.value.deadlineMs
  {
    hide TransferStep, Complete, CurrentAction, MaxTransfers, ReadValue, Written, AfterRead;
    StepDriver(script, s, now, timeout);
    var action := CurrentAction(s.driver);
    CompleteAdvances(s.driver, action, script(|s.seen.log|).status,
                     if action.write then action.value else ReadValue(s.device, action.register), now);
  }

  /** On a healthy bus every admitted job that gets its polls before the
      deadline ends in SUCCESS with its own id. */
  lemma HealthyJobSucceeds(script: Script, s: System, calls: seq<PollCall>)
    requires s.driver.job.Some? && Trusted(s) && Healthy(script) && RightPart(s.device.regs)
    requires JobInProgram(s.driver) && |calls| >= MaxTransfers(s.driver, s.driver.job.value) - s.driver.job.value.done
    requires forall i :: 0 <= i < |calls| ==>
      calls[i].maxTransfers > 0 && !DueOrPast(calls[i].now, s.driver.job.value.deadlineMs)
    ensures Polls(script, s, calls).driver.job.None? && EndsWell(s.driver, Polls(script, s, calls).driver)
  {
    hide Trusted, Healthy, RightPart, MaxTransfers, Transfers, PollTimeout, Poll, Polls;
    PollsEndAnyJob(script, s, calls);
    HealthyPolls(script, s, calls);
  }

  lemma {:induction false} HealthyPolls(script: Script, s: System, calls: seq<PollCall>)
    requires s.driver.job.Some? && Trusted(s) && Healthy(script) && RightPart(s.device.regs)
    requires forall i :: 0 <= i < |calls| ==>
      calls[i].maxTransfers > 0 && !DueOrPast(calls[i].now, s.driver.job.value.deadlineMs)
    ensures EndsWell(s.driver, Polls(script, s, calls).driver)
    decreases |calls|
  {
    hide Trusted, Healthy, RightPart, MaxTransfers, Transfers, Poll, DueOrPast;
    TrustedParts(s);
    if calls != [] {
      var next := Poll(script, s, calls[0].now, calls[0].maxTransfers);
      PollKeepsTrust(script, s, calls[0].now, calls[0].maxTransfers);
      HealthyPoll(script, s, calls[0].now, calls[0].maxTransfers);
      if next.driver.job.Some? {
        HealthyPolls(script, next, calls[1..]);
      } else {
        IdlePolls(script, next, calls[1..]);
      }
    }
  }

  lemma HealthyPoll(script: Script, s: System, now: uint64, maxTransfers: uint8)
    requires s.driver.job.Some? && Trusted(s) && Healthy(script) && RightPart(s.device.regs)
    requires maxTransfers > 0 && !DueOrPast(now, s.driver.job.value.deadlineMs)
    ensures JobInProgram(s.driver)
    ensures var after := Poll(script, s, now, maxTransfers);
      && RightPart(after.device.regs) && EndsWell(s.driver, after.driver)
      && (after.driver.job.Some? ==>
           && after.driver.queue == s.driver.queue && after.driver.job.value.id == s.driver.job.value.id
           && after.driver.job.value.deadlineMs == s.driver.job.value.deadlineMs)
  {
    hide Trusted, Healthy, RightPart, MaxTransfers, Transfers, PollTimeout, EndsWell;
    TrustedParts(s);
    InTimeBudget(s.driver, now, maxTransfers);
    var timeout, budget := PollTimeout(s.driver, now, maxTransfers), PollBudget(s.driver, now, maxTransfers);
    HealthyTransfers(script, s, now, timeout, budget);
    var made := TransfersAdvance(script, s, now, timeout, budget);
  }

  lemma {:induction false} IdlePolls(script: Script, s: System, calls: seq<PollCall>)
    requires Trusted(s) && s.driver.job.None?
    ensures Polls(script, s, calls) == s
    decreases |calls|
  {
    hide Trusted, Poll, MaxTransfers;
    if calls != [] {
      IdlePoll(script, s, calls[0].now, calls[0].maxTransfers);
      IdlePolls(script, s, calls[1..]);
    }
  }

  // ----- splitting a poll, exactly ------------------------------------------

  const ACKNOWLEDGING: Script := n => Choice(OK, COMPLETE, [])

  /** A poll of `a + b` transfers does what a poll of `a` then one of `b` do. */
  predicate SplitsAlike(script: Script, s: System, now: uint64, a: uint8, b: uint8)
    requires a + b <= 0xFF && JobInProgram(s.driver)
  {
    && JobInProgram(Poll(script, s, now, a).driver)
    && SameButTimeouts(Poll(script, s, now, a + b), Poll(script, Poll(script, s, now, a), now, b))
  }

  /** On a healthy bus a job with a further transfer left goes on. */
  lemma HealthyGoesOn(script: Script, s: System, now: uint64, timeout: nat)
    requires s.driver.job.Some? && Trusted(s) && Healthy(script) && RightPart(s.device.regs)
    requires JobInProgram(s.driver) && s.driver.job.value.done + 1 < MaxTransfers(s.driver, s.driver.job.value)
    ensures var after := TransferStep(script, s, now, timeout).driver;
      && after.job.Some? && after.job.value.done == s.driver.job.value.done + 1
      && MaxTransfers(after, after.job.value) == MaxTransfers(s.driver, s.driver.job.value)
  {
    hide TransferStep, Complete, CurrentAction, ReadValue, Written, AfterRead, Accepted, Holds, QueueInv, ProgramLength,
      JobInv;
    TrustedParts(s);
    StepDriver(script, s, now, timeout);
    HealthyStep(script, s, now, timeout);
    var action := CurrentAction(s.driver);
    AttemptRecord(s.driver, OK, if action.write then action.value else ReadValue(s.device, action.register), now);
  }

  lemma {:induction false} HealthyStaysActive(script: Script, s: System, now: uint64, timeout: nat, n: nat)
    requires s.driver.job.Some? && Trusted(s) && Healthy(script) && RightPart(s.device.regs)
    requires JobInProgram(s.driver) && s.driver.job.value.done + n < MaxTransfers(s.driver, s.driver.job.value)
    ensures Transfers(script, s, now, timeout, n).driver.job.Some?
    decreases n
  {
    hide TransferStep, Trusted, Healthy, RightPart, MaxTransfers;
    if n > 0 {
      StepKeepsTrust(script, s, now, timeout);
      StepKeepsPart(script, s, now, timeout);
      HealthyGoesOn(script, s, now, timeout);
      StepKeepsProgram(script, s, now, timeout);
      HealthyStaysActive(script, TransferStep(script, s, now, timeout), now, timeout, n - 1);
    }
  }

  /** Where the deadline clips the joint budget, the split tells the polls
      apart: an acknowledging bus is the input. */
  lemma ClippedSplitDiffers(s: System, now: uint64, a: uint8, b: uint8)
    requires s.driver.job.Some? && Trusted(s) && RightPart(s.device.regs) && a > 0 && b > 0 && a + b <= 0xFF
    requires !DueOrPast(now, s.driver.job.value.deadlineMs) && JobInProgram(s.driver)
    requires !NotClipped(s.driver, now, a + b)
    ensures !SplitsAlike(ACKNOWLEDGING, s, now, a, b)
  {
    hide Trusted, RightPart, MaxTransfers, Transfers, Poll, WrappedDifference, SameButTimeouts;
    PollsAddExactly(ACKNOWLEDGING, s, now, a, b);
    HealthyStaysActive(ACKNOWLEDGING, s, now, 0, WrappedDifference(s.driver.job.value.deadlineMs, now));
  }

  lemma SplitUnclipped(script: Script, s: System, now: uint64, a: uint8, b: uint8)
    requires s.driver.job.Some? && JobInProgram(s.driver) && a + b <= 0xFF && NotClipped(s.driver, now, a + b)
    ensures SplitsAlike(script, s, now, a, b)
  {
    hide MaxTransfers, Transfers, Poll, NotClipped, SameButTimeouts;
    PollsAdd(script, s, now, a, b);
  }

  /** An empty poll before or after another changes nothing. */
  lemma EmptySplit(script: Script, s: System, now: uint64, a: uint8, b: uint8)
    requires s.driver.job.Some? && JobInProgram(s.driver) && (a == 0 || b == 0) && a + b <= 0xFF
    requires !DueOrPast(now, s.driver.job.value.deadlineMs)
    ensures SplitsAlike(script, s, now, a, b)
  {
    hide MaxTransfers, Transfers, Poll, WrappedDifference;
    SplitIsTransfers(script, s, now, a, b);
    PollIsBudget(script, s, now, a + b);
    assert SplitBudget(s.driver, now, a, b) == PollBudget(s.driver, now, a + b);
  }

  /** With the right part on the bus, splitting a poll changes nothing but
      timeouts whatever the bus does if and only if one half is empty or the
      deadline does not clip the joint budget: the owner can tell beforehand
      from the progress snapshot. */
  lemma PollsAddOnEveryBus(s: System, now: uint64, a: uint8, b: uint8)
    requires s.driver.job.Some? && Trusted(s) && RightPart(s.device.regs) && a + b <= 0xFF
    requires !DueOrPast(now, s.driver.job.value.deadlineMs)
    ensures JobInProgram(s.driver)
    ensures (forall script: Script :: SplitsAlike(script, s, now, a, b))
      <==> NotClipped(s.driver, now, a + b) || a == 0 || b == 0
  {
    hide Trusted, RightPart, MaxTransfers, Transfers, Poll, SameButTimeouts, NotClipped, SplitsAlike;
    TrustedParts(s);
    if a == 0 || b == 0 {
      forall script: Script
        ensures SplitsAlike(script, s, now, a, b)
      {
        EmptySplit(script, s, now, a, b);
      }
    } else if NotClipped(s.driver, now, a + b) {
      forall script: Script
        ensures SplitsAlike(script, s, now, a, b)
      {
        SplitUnclipped(script, s, now, a, b);
      }
    } else {
      ClippedSplitDiffers(s, now, a, b);
    }
  }
}
