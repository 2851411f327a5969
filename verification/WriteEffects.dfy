/** What a configuration job's effect flags say about the device: a job that
    reports neither a partial nor an indeterminate write changed nothing. */
module WriteEffects {
  import opened CommandTable
  import opened Profile
  import opened DriverTypes
  import opened Registers
  import opened Validation
  import opened Decoding
  import opened Chip
  import opened Machine
  import opened Engine
  import opened Trust
  import opened Ledger

  predicate IsIdentityPhase(phase: JobPhase) { phase == VERIFY_MANUFACTURER || phase == VERIFY_DEVICE }

  predicate NoWriteEffect(e: Effects) { !e.partial && !e.indeterminate }

  /** Trust as at admission, or raised from UNKNOWN by both identity reads. */
  predicate TrustKept(atAdmission: AppliedState, now: AppliedState) {
    now == atAdmission || (atAdmission == UNKNOWN && now == DIRTY)
  }

  /** While no write of the active job is confirmed the device and the trust
      state are as they were at admission. */
  predicate UntouchedInv(s: System) {
    s.driver.job.Some? && IsConfigKind(s.driver.job.value.kind)
    && s.seen.admitted != [] && !s.driver.job.value.effects.partial ==>
      && s.device.regs == s.seen.admitted[|s.seen.admitted| - 1].regs
      && TrustKept(s.seen.admitted[|s.seen.admitted| - 1].applied, s.driver.applied)
  }

  /** The result `r` of a configuration job admitted as `a`, at its end. */
  predicate EffectsHonest(a: Admission, r: OperationResult, applied: AppliedState, regs: RegisterFile) {
    NoWriteEffect(r.effects) ==>
      && regs == a.regs
      && (TrustKept(a.applied, applied)
          || (applied == UNKNOWN && r.outcome == FAILED && IsIdentityPhase(r.finalProgress.phase)))
  }

  /** Effect flags and trust after one attempt of a configuration job. */
  predicate AttemptEffects(d: Driver, after: Driver, action: Action, status: Err)
    requires d.job.Some?
  {
    && (after.job.Some? ==>
         && (after.job.value.effects.partial <==> d.job.value.effects.partial || action.write)
         && (!action.write ==> after.applied == d.applied || (d.applied == UNKNOWN && after.applied == DIRTY)))
    && (after.job.None? && |after.queue| == |d.queue| + 1 ==>
         var r := after.queue[|d.queue|];
         && (NoWriteEffect(r.effects) ==> !d.job.value.effects.partial)
         && (NoWriteEffect(r.effects) && action.write ==> status == I2C_NACK_ADDR && after.applied == d.applied)
         && (!action.write ==>
              after.applied == UNKNOWN && r.outcome == FAILED && r.finalProgress.phase == action.phase))
  }

  lemma WriteAttempt(d: Driver, action: Action, status: Err, value: bv16, now: uint64)
    requires d.job.Some? && action.write
    ensures AttemptEffects(d, Complete(d, action, status, value, now), action, status)
  {
    hide MaxTransfers, ProgressAt, SucceedIdentity, SucceedAcquire, FailIdentity, FailAcquire, CurrentAction;
  }

  lemma IdentityAttempt(d: Driver, action: Action, status: Err, value: bv16, now: uint64)
    requires d.job.Some? && !action.write && d.job.value.kind != ACQUIRE
    ensures AttemptEffects(d, Complete(d, action, status, value, now), action, status)
  {
    hide MaxTransfers;
  }

  lemma ConfigReads(d: Driver)
    requires d.job.Some? && JobInProgram(d) && IsConfigKind(d.job.value.kind) && !CurrentAction(d).write
    ensures IsIdentityPhase(CurrentAction(d).phase)
  {
    hide ReplayAction, AcquireAction, ReplayLength, Selected;
    if d.job.value.done >= ApplyOffset(d.job.value.kind) {
      ReplayActionShape(d.config, d.job.value.done - ApplyOffset(d.job.value.kind));
    }
  }

  lemma AttemptAtDevice(s: System, script: Script, now: uint64, timeout: nat)
    requires s.driver.job.Some? && JobInProgram(s.driver)
    ensures !CurrentAction(s.driver).write ==> TransferStep(script, s, now, timeout).device.regs == s.device.regs
    ensures script(|s.seen.log|).status == I2C_NACK_ADDR ==>
      TransferStep(script, s, now, timeout).device.regs == s.device.regs
  {
    hide TransferStep, Written, AfterRead, ReadValue, CurrentAction, MaxTransfers, Complete;
    StepDriver(script, s, now, timeout);
    var action := CurrentAction(s.driver);
    ReadKeepsRegisters(s.device, script(|s.seen.log|), action.register);
    if script(|s.seen.log|).status == I2C_NACK_ADDR {
      MissedWriteKeepsRegisters(s.device, script(|s.seen.log|), action.register, action.value);
    }
  }

  /** The last admission of a system with an active job. */
  function Latest(s: System): Admission
    requires s.seen.admitted != []
  {
    s.seen.admitted[|s.seen.admitted| - 1]
  }

  lemma AdmissionKept(script: Script, s: System, now: uint64, timeout: nat)
    requires s.driver.job.Some? && JobInProgram(s.driver) && s.seen.admitted != []
    ensures var after := TransferStep(script, s, now, timeout);
      after.seen.admitted != [] && Latest(after).regs == Latest(s).regs && Latest(after).applied == Latest(s).applied
  {
    hide TransferStep, ReadValue, CurrentAction, MaxTransfers;
    StepAdmission(script, s, now, timeout);
  }

  /** One attempt of a configuration job. */
  lemma StepEffects(script: Script, s: System, now: uint64, timeout: nat)
    requires s.driver.job.Some? && JobInProgram(s.driver) && IsConfigKind(s.driver.job.value.kind)
    requires s.seen.admitted != [] && UntouchedInv(s)
    ensures var after := TransferStep(script, s, now, timeout);
      && UntouchedInv(after) && after.seen.admitted != []
      && (after.driver.job.None? ==> |after.driver.queue| == |s.driver.queue| + 1)
      && (after.driver.job.None? ==>
           EffectsHonest(Latest(s), after.driver.queue[|s.driver.queue|], after.driver.applied, after.device.regs))
  {
    hide TransferStep, ReadValue, CurrentAction, MaxTransfers, Complete, Written, AfterRead;
    StepDriver(script, s, now, timeout);
    AttemptAtDevice(s, script, now, timeout);
    AdmissionKept(script, s, now, timeout);
    var action := CurrentAction(s.driver);
    var status := script(|s.seen.log|).status;
    var value := if action.write then action.value else ReadValue(s.device, action.register);
    CompleteAdvances(s.driver, action, status, value, now);
    if action.write {
      WriteAttempt(s.driver, action, status, value, now);
    } else {
      ConfigReads(s.driver);
      IdentityAttempt(s.driver, action, status, value, now);
    }
  }

  lemma {:induction false} TransfersEffects(script: Script, s: System, now: uint64, timeout: nat, remaining: nat)
    requires Trusted(s) && UntouchedInv(s)
    requires s.driver.job.Some? && IsConfigKind(s.driver.job.value.kind) && s.seen.admitted != []
    ensures JobInProgram(s.driver)
    ensures var after := Transfers(script, s, now, timeout, remaining);
      && UntouchedInv(after)
      && (after.driver.job.None? ==> |after.driver.queue| == |s.driver.queue| + 1)
      && (after.driver.job.None? ==>
           EffectsHonest(Latest(s), after.driver.queue[|s.driver.queue|], after.driver.applied, after.device.regs))
    decreases remaining
  {
    hide TransferStep, Trusted, UntouchedInv, EffectsHonest;
    TrustedParts(s);
    if remaining > 0 {
      var next := TransferStep(script, s, now, timeout);
      StepKeepsTrust(script, s, now, timeout);
      StepEffects(script, s, now, timeout);
      AdmissionKept(script, s, now, timeout);
      JobGoesOn(script, s, now, timeout);
      if next.driver.job.Some? {
        TransfersEffects(script, next, now, timeout, remaining - 1);
        HonestForSameAdmission(Latest(s), Latest(next));
      } else {
        IdleTransfers(script, next, now, timeout, remaining - 1);
      }
    }
  }

  lemma IdleTransfers(script: Script, s: System, now: uint64, timeout: nat, remaining: nat)
    requires s.driver.job.None?
    ensures JobInProgram(s.driver) && Transfers(script, s, now, timeout, remaining) == s
  {
    hide TransferStep;
  }

  lemma HonestForSameAdmission(a: Admission, b: Admission)
    requires a.regs == b.regs && a.applied == b.applied
    ensures forall r: OperationResult, applied: AppliedState, regs: RegisterFile ::
      EffectsHonest(a, r, applied, regs) == EffectsHonest(b, r, applied, regs)
  {
  }

  lemma JobGoesOn(script: Script, s: System, now: uint64, timeout: nat)
    requires s.driver.job.Some? && JobInProgram(s.driver)
    ensures var after := TransferStep(script, s, now, timeout).driver;
      after.job.Some? ==> after.queue == s.driver.queue && after.job.value.kind == s.driver.job.value.kind
  {
    hide TransferStep, Complete, CurrentAction, MaxTransfers, ReadValue, Written, AfterRead;
    StepDriver(script, s, now, timeout);
    var action := CurrentAction(s.driver);
    CompleteAdvances(s.driver, action, script(|s.seen.log|).status,
                     if action.write then action.value else ReadValue(s.device, action.register), now);
  }

  /** Cancellation and expiry are honest about effects too. */
  lemma AbandonEffects(s: System, outcome: Outcome, status: Err, now: uint64)
    requires s.driver.job.Some? && JobInProgram(s.driver) && IsConfigKind(s.driver.job.value.kind)
    requires s.seen.admitted != [] && UntouchedInv(s)
    ensures var after := Abandon(s.driver, outcome, status, now);
      && |after.queue| == |s.driver.queue| + 1
      && EffectsHonest(Latest(s), after.queue[|s.driver.queue|], after.applied, s.device.regs)
  {
    hide MaxTransfers, CurrentAction;
  }

  // ----- the last confirmed write -------------------------------------------

  /** `k` is the last write of a transcript. */
  predicate IsLastWrite(wire: seq<Transfer>, k: int) {
    0 <= k < |wire| && wire[k].write && forall j :: k < j < |wire| ==> !wire[j].write
  }

  /** Index of the last write an active configuration job has confirmed. */
  function LastWriteIndex(job: Job): nat {
    if Confirmed(job) > 0 then job.done - 1 else 0
  }

  lemma ProgramShape(d: Driver, k: nat)
    requires d.job.Some? && IsConfigKind(d.job.value.kind) && k < MaxTransfers(d, d.job.value)
    ensures var job := d.job.value;
      ProgramAction(job.kind, d.config, job.mask, k).write <==>
        k >= ApplyOffset(job.kind) || (job.kind == RESET_AND_REAPPLY && k == 0)
  {
    hide ReplayAction, AcquireAction, ReplayLength, Selected;
    if k >= ApplyOffset(d.job.value.kind) {
      ReplayActionShape(d.config, k - ApplyOffset(d.job.value.kind));
    }
  }

  /** PARTIAL_WRITE is set exactly when the transcript holds a confirmed write,
      and the place the driver remembers is that of the last one. */
  lemma PartialIsConfirmedWrite(d: Driver, a: Admission)
    requires d.job.Some? && JobInProgram(d) && JobInv(d) && IsConfigKind(d.job.value.kind) && Opens(a, d)
    ensures d.job.value.effects.partial <==> exists k :: IsLastWrite(a.wire, k)
    ensures d.job.value.effects.partial ==>
      && IsLastWrite(a.wire, LastWriteIndex(d.job.value))
      && LastWriteIndex(d.job.value) < MaxTransfers(d, d.job.value)
      && a.wire[LastWriteIndex(d.job.value)].status == OK
      && d.job.value.lastWrite == PlaceOf(ProgramAction(d.job.value.kind, d.config, d.job.value.mask,
                                                        LastWriteIndex(d.job.value)))
  {
    hide ProgramAction, MaxTransfers, ProgramLength, LastWritePlace;
    var job := d.job.value;
    forall k | 0 <= k < |a.wire|
      ensures a.wire[k].write <==> k >= ApplyOffset(job.kind) || (job.kind == RESET_AND_REAPPLY && k == 0)
    {
      OpensAt(a, d, k);
      ProgramShape(d, k);
    }
    if job.effects.partial {
      LastPlace(d);
      assert IsLastWrite(a.wire, LastWriteIndex(job));
    }
  }

  lemma OpensAt(a: Admission, d: Driver, k: int)
    requires d.job.Some? && JobInProgram(d) && Opens(a, d) && 0 <= k < |a.wire|
    ensures k < MaxTransfers(d, d.job.value)
    ensures Performs(a.wire[k], ProgramAction(d.job.value.kind, d.config, d.job.value.mask, k))
  {
    hide ProgramAction, ProgramLength, Performs;
  }

  lemma LastPlace(d: Driver)
    requires d.job.Some? && JobInProgram(d) && JobInv(d) && IsConfigKind(d.job.value.kind)
    requires d.job.value.effects.partial
    ensures LastWriteIndex(d.job.value) < MaxTransfers(d, d.job.value)
    ensures d.job.value.lastWrite
      == PlaceOf(ProgramAction(d.job.value.kind, d.config, d.job.value.mask, LastWriteIndex(d.job.value)))
  {
    hide ReplayAction, AcquireAction, ReplayLength, Selected;
  }

  /** Cancellation or expiry after a confirmed write: the fault names the last
      confirmed write of the transcript, with the cause. */
  lemma AbandonNamesLastWrite(s: System, outcome: Outcome, status: Err, now: uint64)
    requires Trusted(s) && LedgerInv(s) && s.driver.job.Some? && s.driver.job.value.kind != ACQUIRE
    requires s.driver.job.value.effects.partial
    ensures s.seen.admitted != [] && JobInProgram(s.driver)
    ensures var a := Latest(s);
      var k := LastWriteIndex(s.driver.job.value);
      && IsLastWrite(a.wire, k) && a.wire[k].status == OK && k < ProgramLength(a.kind, a.config, a.mask)
      && Abandon(s.driver, outcome, status, now).fault
           == RecordFault(status, a.kind, PlaceOf(ProgramAction(a.kind, a.config, a.mask, k)),
                          s.driver.job.value.effects)
      && Abandon(s.driver, outcome, status, now).fault.register == a.wire[k].register
  {
    hide ProgramAction, ProgramLength, LastWritePlace, Accepted, Holds, QueueInv, Settles, FollowsProgram,
      AllAcknowledged, IsLastWrite, CurrentAction;
    LedgerOpens(s);
    AbandonKeepsTrust(s.driver, s.device.regs, outcome, status, now);
    PartialIsConfirmedWrite(s.driver, Latest(s));
    LastIsPerformed(s.driver, Latest(s), LastWriteIndex(s.driver.job.value));
  }

  lemma LastIsPerformed(d: Driver, a: Admission, k: int)
    requires d.job.Some? && JobInProgram(d) && Opens(a, d) && IsLastWrite(a.wire, k)
    ensures k < ProgramLength(a.kind, a.config, a.mask)
    ensures a.wire[k].register == ProgramAction(a.kind, a.config, a.mask, k).register
  {
    hide ProgramAction, ProgramLength;
    OpensAt(a, d, k);
  }

  // ----- every event --------------------------------------------------------

  lemma PollKeepsUntouched(script: Script, s: System, now: uint64, maxTransfers: uint8)
    requires Trusted(s) && LedgerInv(s) && UntouchedInv(s)
    ensures UntouchedInv(Poll(script, s, now, maxTransfers))
  {
    hide Trusted, LedgerInv, UntouchedInv, Transfers, Abandon, PollBudget, PollTimeout;
    TrustedParts(s);
    if s.driver.job.Some? {
      LedgerOpens(s);
      AbandonKeepsTrust(s.driver, s.device.regs, TIMED_OUT, TIMEOUT, now);
      IdleUntouched(s.(driver := Abandon(s.driver, TIMED_OUT, TIMEOUT, now)));
      if !DueOrPast(now, s.driver.job.value.deadlineMs) && PollBudget(s.driver, now, maxTransfers) > 0 {
        var timeout, budget := PollTimeout(s.driver, now, maxTransfers), PollBudget(s.driver, now, maxTransfers);
        KindCases(s);
        if IsConfigKind(s.driver.job.value.kind) {
          TransfersEffects(script, s, now, timeout, budget);
        } else {
          TransfersUntouched(script, s, now, timeout, budget);
        }
      }
    }
  }

  lemma KindCases(s: System)
    requires Trusted(s) && s.driver.job.Some?
    ensures s.driver.job.value.kind == ACQUIRE || IsConfigKind(s.driver.job.value.kind)
  {
    hide Accepted, Holds, QueueInv;
  }

  lemma IdleUntouched(s: System)
    requires s.driver.job.None? || !IsConfigKind(s.driver.job.value.kind)
    ensures UntouchedInv(s)
  {
  }

  lemma {:induction false} TransfersUntouched(script: Script, s: System, now: uint64, timeout: nat, remaining: nat)
    requires JobInProgram(s.driver)
    requires s.driver.job.None? || !IsConfigKind(s.driver.job.value.kind)
    ensures UntouchedInv(Transfers(script, s, now, timeout, remaining))
    decreases remaining
  {
    hide TransferStep, UntouchedInv;
    IdleUntouched(s);
    if remaining > 0 && s.driver.job.Some? {
      StepKeepsProgram(script, s, now, timeout);
      JobGoesOn(script, s, now, timeout);
      TransfersUntouched(script, TransferStep(script, s, now, timeout), now, timeout, remaining - 1);
    }
  }

  /** Events other than polls: either no configuration job is active
      afterwards, or nothing it was admitted with has changed. */
  lemma StartUntouched(s: System, kind: JobKind, mask: ChannelMask, id: uint64, deadlineMs: uint64)
    requires UntouchedInv(s) && kind != NO_JOB
    ensures UntouchedInv(Start(s, kind, mask, id, deadlineMs).0)
  {
    hide StartStatus;
  }

  lemma IdleEvents(script: Script, s: System, e: Event)
    requires Trusted(s) && UntouchedInv(s) && (DirectTransferEvent(e) || (OwnerBookkeeping(e) && !e.StartEvent?))
    ensures JobInProgram(s.driver) && UntouchedInv(Apply(script, s, e))
  {
    hide Trusted, Written, AfterRead, ObserveTransfer, Accepted, SameBinding, IsConfigurationRegister, IsValidRegister,
      IsLdc1614OnlyRegister, BuildConfigRegister, PhaseForRegister, ChannelForRegister;
    TrustedParts(s);
  }

  lemma CancelledUntouched(s: System, device: Device, cause: Err)
    requires Trusted(s)
    ensures JobInProgram(s.driver) && UntouchedInv(Cancel(s)) && UntouchedInv(Invalidate(s.(device := device), cause))
  {
    hide Abandon, Accepted, Holds;
    TrustedParts(s);
    if s.driver.job.Some? {
      AbandonKeepsTrust(s.driver, s.device.regs, CANCELLED, CANCELLED_BY_OWNER, 0);
    }
  }

  lemma ConversionUntouched(s: System, conversion: Conversion)
    requires UntouchedInv(s)
    ensures UntouchedInv(s.(device := Inject(s.device, conversion)))
  {
    hide Inject;
    InjectKeepsRegisters(s.device, [conversion]);
    assert [conversion][1..] == [];
    assert InjectAll(s.device, [conversion]) == Inject(s.device, conversion);
  }

  lemma ApplyKeepsUntouched(script: Script, s: System, e: Event)
    requires Trusted(s) && LedgerInv(s) && UntouchedInv(s)
    ensures UntouchedInv(Apply(script, s, e))
  {
    hide Trusted, LedgerInv, UntouchedInv, Poll, Cancel, Invalidate, SleepOrWake, WriteRegister16, ReadRegister16, Bind,
      End, UpdateDesiredConfig, Start, TakeResult, ClearConversionEvidence, Inject;
    TrustedParts(s);
    match e
    case StartEvent(kind, mask, id, deadlineMs) =>
      if kind != NO_JOB { StartUntouched(s, kind, mask, id, deadlineMs); }
    case PollEvent(now, maxTransfers) => PollKeepsUntouched(script, s, now, maxTransfers);
    case CancelEvent => CancelledUntouched(s, s.device, OK);
    case InvalidateEvent(reason) => CancelledUntouched(s, s.device, reason);
    case PowerCycleEvent(regs, cause) => CancelledUntouched(s, ClearConversionEvidence(s.device.(regs := regs)), cause);
    case ConversionEvent(conversion) => ConversionUntouched(s, conversion);
    case _ => IdleEvents(script, s, e);
  }

  /** A poll or a cancel that ends a configuration job reports its effects
      honestly: with neither write flag, every register and the trust state are
      as at admission, but for an identity failure (UNKNOWN) and for UNKNOWN
      raised to DIRTY by both identity reads. */
  lemma EndedJobEffects(script: Script, s: System, now: uint64, maxTransfers: uint8)
    requires Trusted(s) && LedgerInv(s) && UntouchedInv(s)
    requires s.driver.job.Some? && s.driver.job.value.kind != ACQUIRE
    ensures s.seen.admitted != [] && JobInProgram(s.driver)
    ensures var after := Poll(script, s, now, maxTransfers);
      after.driver.job.None? ==>
        && |after.driver.queue| == |s.driver.queue| + 1
        && EffectsHonest(Latest(s), after.driver.queue[|s.driver.queue|], after.driver.applied, after.device.regs)
    ensures var after := Cancel(s);
      && after.driver.job.None? && |after.driver.queue| == |s.driver.queue| + 1
      && EffectsHonest(Latest(s), after.driver.queue[|s.driver.queue|], after.driver.applied, after.device.regs)
  {
    hide Trusted, LedgerInv, UntouchedInv, Transfers, Abandon, PollBudget, PollTimeout, EffectsHonest;
    TrustedParts(s);
    LedgerOpens(s);
    KindCases(s);
    CancelKeepsTrust(s);
    AbandonEffects(s, CANCELLED, CANCELLED_BY_OWNER, 0);
    AbandonEffects(s, TIMED_OUT, TIMEOUT, now);
    if PollBudget(s.driver, now, maxTransfers) > 0 {
      TransfersEffects(script, s, now, PollTimeout(s.driver, now, maxTransfers),
                       PollBudget(s.driver, now, maxTransfers));
    }
  }
}
