/** Exactly-once accounting: between a bind and the next end every admission
    has one terminal result, in order, and its wire transcript is a prefix of
    the pure program of the job. */
module Ledger {
  import opened CommandTable
  import opened Profile
  import opened DriverTypes
  import opened Registers
  import opened Validation
  import opened Decoding
  import opened Chip
  import opened Machine
  import opened Engine
  import opened Trust

  /** A wire entry performs a program action. */
  predicate Performs(t: Transfer, action: Action) {
    t.byJob && t.write == action.write && t.register == action.register && (action.write ==> t.value == action.value)
  }

  /** The transcript follows the job's program; only its last entry may have
      failed. */
  predicate FollowsProgram(a: Admission) {
    && |a.wire| <= ProgramLength(a.kind, a.config, a.mask)
    && (forall k :: 0 <= k < |a.wire| ==> Performs(a.wire[k], ProgramAction(a.kind, a.config, a.mask, k)))
    && (forall k :: 0 <= k < |a.wire| - 1 ==> a.wire[k].status == OK)
  }

  predicate AllAcknowledged(wire: seq<Transfer>) {
    forall k :: 0 <= k < |wire| ==> wire[k].status == OK
  }

  /** A terminal result settles its admission. */
  predicate Settles(a: Admission, r: OperationResult) {
    && a.id == r.operationId && a.kind == r.kind && FollowsProgram(a)
    && r.finalProgress.completedTransfers == |a.wire|
    && r.finalProgress.maximumTransfers == ProgramLength(a.kind, a.config, a.mask)
    && (r.outcome == SUCCESS <==> |a.wire| == ProgramLength(a.kind, a.config, a.mask) && AllAcknowledged(a.wire))
    && (|a.wire| > 0 && a.wire[|a.wire| - 1].status != OK ==>
         r.outcome == FAILED && r.status == a.wire[|a.wire| - 1].status)
  }

  /** The active job is the last admission. */
  predicate Opens(a: Admission, d: Driver)
    requires d.job.Some?
  {
    var job := d.job.value;
    && a.id == job.id && a.kind == job.kind && a.mask == job.mask && a.config == d.config
    && FollowsProgram(a) && AllAcknowledged(a.wire) && |a.wire| == job.done
  }

  predicate LedgerInv(s: System) {
    var settled := s.seen.delivered + s.driver.queue;
    var admitted := s.seen.admitted;
    && |admitted| == |settled| + (if s.driver.job.Some? then 1 else 0)
    && (forall n :: 0 <= n < |settled| ==> Settles(admitted[n], settled[n]))
    && (s.driver.job.Some? ==> Opens(admitted[|settled|], s.driver))
  }

  // ----- one transfer -------------------------------------------------------

  lemma StepAdmission(script: Script, s: System, now: uint64, timeout: nat)
    requires s.driver.job.Some? && JobInProgram(s.driver) && s.seen.admitted != []
    ensures var action := CurrentAction(s.driver);
      var choice := script(|s.seen.log|);
      var value := if action.write then action.value else ReadValue(s.device, action.register);
      var last := |s.seen.admitted| - 1;
      var after := TransferStep(script, s, now, timeout).seen;
      && after.delivered == s.seen.delivered
      && after.admitted == s.seen.admitted[last := s.seen.admitted[last].(wire := s.seen.admitted[last].wire +
           [Transfer(action.write, action.register, value, choice.status, true,
                     s.seen.manufacturerSeen && s.seen.deviceSeen)])]
  {
    hide Complete, Written, AfterRead, ReadValue, ReplayAction, AcquireAction, ReplayLength, Selected, PublishSelected,
      IsDataMsb;
  }

  lemma ExtendTranscript(a: Admission, action: Action, t: Transfer)
    requires FollowsProgram(a) && AllAcknowledged(a.wire) && |a.wire| < ProgramLength(a.kind, a.config, a.mask)
    requires action == ProgramAction(a.kind, a.config, a.mask, |a.wire|) && Performs(t, action)
    ensures FollowsProgram(a.(wire := a.wire + [t]))
    ensures AllAcknowledged(a.wire + [t]) <==> t.status == OK
  {
    hide ProgramAction, ProgramLength, Performs;
  }

  /** The attempt ended the job with one more queued result `r`. */
  predicate RecordsEnd(d: Driver, after: Driver, status: Err)
    requires d.job.Some?
  {
    && after.job.None? && |after.queue| == |d.queue| + 1 && after.queue[..|d.queue|] == d.queue
    && var r := after.queue[|d.queue|];
    && r.operationId == d.job.value.id && r.kind == d.job.value.kind
    && r.finalProgress.completedTransfers == d.job.value.done + 1
    && r.finalProgress.maximumTransfers == MaxTransfers(d, d.job.value)
    && (r.outcome == SUCCESS <==> status == OK && d.job.value.done + 1 == MaxTransfers(d, d.job.value))
    && (status != OK ==> r.outcome == FAILED && r.status == status)
  }

  predicate GoesOn(d: Driver, after: Driver, status: Err)
    requires d.job.Some?
  {
    && after.job.Some? && status == OK && after.queue == d.queue && after.config == d.config
    && after.job.value.id == d.job.value.id && after.job.value.kind == d.job.value.kind
    && after.job.value.mask == d.job.value.mask && after.job.value.done == d.job.value.done + 1
  }

  /** Success comes exactly with the last transfer of the program. */
  lemma AttemptRecord(d: Driver, status: Err, value: bv16, now: uint64)
    requires d.job.Some? && JobInProgram(d) && JobInv(d)
    ensures var after := Complete(d, CurrentAction(d), status, value, now);
      RecordsEnd(d, after, status) || GoesOn(d, after, status)
  {
    hide Complete, ReplayAction, AcquireAction, ReplayLength, Selected, Within;
    var job := d.job.value;
    CompleteAdvances(d, CurrentAction(d), status, value, now);
    if job.kind == ACQUIRE {
      AcquireActionShape(job.mask, job.done);
    } else if job.done >= ApplyOffset(job.kind) {
      ReplayActionShape(d.config, job.done - ApplyOffset(job.kind));
    } else {
      ReplayFirst(d.config);
    }
  }

  /** Ledger effect of one attempt, for any successor driver. */
  lemma LedgerAttempt(s: System, after: System, t: Transfer)
    requires s.driver.job.Some? && JobInProgram(s.driver) && LedgerInv(s)
    requires Performs(t, CurrentAction(s.driver))
    requires RecordsEnd(s.driver, after.driver, t.status) || GoesOn(s.driver, after.driver, t.status)
    requires after.seen.delivered == s.seen.delivered && s.seen.admitted != []
    requires var last := |s.seen.admitted| - 1;
      after.seen.admitted == s.seen.admitted[last := s.seen.admitted[last].(wire := s.seen.admitted[last].wire + [t])]
    ensures LedgerInv(after)
  {
    hide FollowsProgram, AllAcknowledged, ProgramAction, ProgramLength, Performs, CurrentAction, Settles;
    var last := |s.seen.admitted| - 1;
    var entry := s.seen.admitted[last];
    OpenedAction(entry, s.driver);
    ExtendTranscript(entry, CurrentAction(s.driver), t);
    if RecordsEnd(s.driver, after.driver, t.status) {
      SettleLast(entry, t, s.driver, after.driver);
      EndedSettlement(s.driver, after.driver, s.seen.delivered);
    }
  }

  lemma StepKeepsLedger(script: Script, s: System, now: uint64, timeout: nat)
    requires s.driver.job.Some? && Trusted(s) && LedgerInv(s)
    ensures LedgerInv(TransferStep(script, s, now, timeout))
  {
    hide Complete, TransferStep, ProgramAction, MaxTransfers, ReadValue, LedgerInv, RecordsEnd, GoesOn, Trusted;
    TrustedParts(s);
    LedgerOpens(s);
    var action := CurrentAction(s.driver);
    var status := script(|s.seen.log|).status;
    var value := if action.write then action.value else ReadValue(s.device, action.register);
    StepAdmission(script, s, now, timeout);
    StepDriver(script, s, now, timeout);
    AttemptRecord(s.driver, status, value, now);
    LedgerAttempt(s, TransferStep(script, s, now, timeout),
                  Transfer(action.write, action.register, value, status, true,
                           s.seen.manufacturerSeen && s.seen.deviceSeen));
  }

  lemma LedgerOpens(s: System)
    requires s.driver.job.Some? && LedgerInv(s)
    ensures s.seen.admitted != []
  {
    hide Settles, Opens;
  }

  lemma OpenedAction(a: Admission, d: Driver)
    requires d.job.Some? && JobInProgram(d) && Opens(a, d)
    ensures |a.wire| < ProgramLength(a.kind, a.config, a.mask) == MaxTransfers(d, d.job.value)
    ensures CurrentAction(d) == ProgramAction(a.kind, a.config, a.mask, |a.wire|)
  {
    hide ProgramLength, ProgramAction, FollowsProgram, AllAcknowledged;
  }

  lemma SettleLast(a: Admission, t: Transfer, d: Driver, after: Driver)
    requires d.job.Some? && Opens(a, d) && FollowsProgram(a.(wire := a.wire + [t]))
    requires AllAcknowledged(a.wire + [t]) <==> t.status == OK
    requires RecordsEnd(d, after, t.status)
    ensures Settles(a.(wire := a.wire + [t]), after.queue[|d.queue|])
  {
    hide FollowsProgram, AllAcknowledged, ProgramLength;
  }

  lemma EndedSettlement(d: Driver, after: Driver, delivered: seq<OperationResult>)
    requires |after.queue| == |d.queue| + 1 && after.queue[..|d.queue|] == d.queue
    ensures |delivered + after.queue| == |delivered + d.queue| + 1
    ensures (delivered + after.queue)[..|delivered + d.queue|] == delivered + d.queue
    ensures (delivered + after.queue)[|delivered + d.queue|] == after.queue[|d.queue|]
    ensures forall n :: 0 <= n < |delivered + d.queue| ==> (delivered + after.queue)[n] == (delivered + d.queue)[n]
  {
    forall n | 0 <= n < |d.queue|
      ensures after.queue[n] == d.queue[n]
    {
      assert after.queue[..|d.queue|][n] == d.queue[n];
    }
  }

  lemma {:induction false} TransfersKeepLedger(script: Script, s: System, now: uint64, timeout: nat, remaining: nat)
    requires Trusted(s) && LedgerInv(s)
    ensures LedgerInv(Transfers(script, s, now, timeout, remaining))
    decreases remaining
  {
    hide TransferStep, Trusted, LedgerInv;
    TrustedParts(s);
    if remaining > 0 && s.driver.job.Some? {
      StepKeepsTrust(script, s, now, timeout);
      StepKeepsLedger(script, s, now, timeout);
      TransfersKeepLedger(script, TransferStep(script, s, now, timeout), now, timeout, remaining - 1);
    }
  }

  // ----- the owner's operations ---------------------------------------------

  lemma AbandonKeepsLedger(s: System, outcome: Outcome, status: Err, now: uint64)
    requires s.driver.job.Some? && Trusted(s) && LedgerInv(s) && outcome != SUCCESS
    ensures LedgerInv(s.(driver := Abandon(s.driver, outcome, status, now)))
  {
    hide FollowsProgram, AllAcknowledged, ProgramLength, CurrentAction, Accepted, Holds, QueueInv, JobInv;
    TrustedParts(s);
    var after := Abandon(s.driver, outcome, status, now);
    EndedSettlement(s.driver, after, s.seen.delivered);
    AcknowledgedSettles(s.seen.admitted[|s.seen.delivered + s.driver.queue|]);
  }

  lemma AcknowledgedSettles(a: Admission)
    requires AllAcknowledged(a.wire)
    ensures |a.wire| > 0 ==> a.wire[|a.wire| - 1].status == OK
  {
  }

  lemma TakeKeepsLedger(s: System)
    requires LedgerInv(s)
    ensures LedgerInv(TakeResult(s).0)
  {
    hide Settles, FollowsProgram, AllAcknowledged, ProgramLength;
    if s.driver.queue != [] {
      assert s.seen.delivered + [s.driver.queue[0]] + s.driver.queue[1..] == s.seen.delivered + s.driver.queue;
    }
  }

  lemma StartKeepsLedger(s: System, kind: JobKind, mask: ChannelMask, id: uint64, deadlineMs: uint64)
    requires LedgerInv(s) && kind != NO_JOB
    ensures LedgerInv(Start(s, kind, mask, id, deadlineMs).0)
  {
    hide Settles, ProgramLength, ProgramAction;
    if StartStatus(s.driver, kind, mask, id) == IN_PROGRESS {
      var d := s.driver;
      var job := NewJob(d, kind, mask, id, deadlineMs);
      EmptyFollows(Admission(id, kind, d.config, job.mask, deadlineMs, d.revision, s.device.regs, d.applied, []));
    }
  }

  lemma EmptyFollows(a: Admission)
    requires a.wire == []
    ensures FollowsProgram(a) && AllAcknowledged(a.wire)
  {
    hide ProgramLength, ProgramAction;
  }

  lemma PollLedger(script: Script, s: System, now: uint64, maxTransfers: uint8)
    requires Trusted(s) && LedgerInv(s)
    ensures JobInProgram(s.driver) && LedgerInv(Poll(script, s, now, maxTransfers))
  {
    hide Trusted, LedgerInv, Transfers, Abandon, PollBudget, PollTimeout;
    TrustedParts(s);
    if s.driver.job.Some? {
      AbandonKeepsLedger(s, TIMED_OUT, TIMEOUT, now);
      if PollBudget(s.driver, now, maxTransfers) > 0 {
        TransfersKeepLedger(script, s, now, PollTimeout(s.driver, now, maxTransfers),
                            PollBudget(s.driver, now, maxTransfers));
      }
    }
  }

  /** The accounts see nothing of a call made for no job. */
  lemma SameAccounts(s: System, after: System)
    requires LedgerInv(s) && after.driver.job == s.driver.job && after.driver.queue == s.driver.queue
    requires after.seen.admitted == s.seen.admitted && after.seen.delivered == s.seen.delivered
    requires s.driver.job.Some? ==> after.driver.config == s.driver.config
    ensures LedgerInv(after)
  {
    hide Settles, FollowsProgram, AllAcknowledged;
  }

  lemma SwitchLedger(script: Script, s: System, to: bool)
    requires LedgerInv(s)
    ensures LedgerInv(SleepOrWake(script, s, to).0)
  {
    hide LedgerInv, Written, BuildConfigRegister, LatchedAfter, ConvertedAfter;
    SameAccounts(s, SleepOrWake(script, s, to).0);
  }

  lemma DirectLedger(script: Script, s: System, register: uint8, value: bv16)
    requires LedgerInv(s)
    ensures LedgerInv(WriteRegister16(script, s, register, value).0)
    ensures LedgerInv(ReadRegister16(script, s, register).0)
  {
    hide LedgerInv, Written, AfterRead, ReadValue, IsConfigurationRegister, IsLdc1614OnlyRegister, IsValidRegister,
      PhaseForRegister, ChannelForRegister, LatchedAfter, ConvertedAfter;
    SameAccounts(s, WriteRegister16(script, s, register, value).0);
    SameAccounts(s, ReadRegister16(script, s, register).0);
  }

  lemma BindingLedger(s: System, config: Config)
    requires Trusted(s) && LedgerInv(s)
    ensures LedgerInv(Bind(s, config).0) && LedgerInv(End(s)) && LedgerInv(UpdateDesiredConfig(s, config).0)
  {
    hide Trusted, Settles, Opens, Accepted, SameBinding;
    SameAccounts(s, UpdateDesiredConfig(s, config).0);
  }

  lemma ApplyKeepsLedger(script: Script, s: System, e: Event)
    requires Trusted(s) && LedgerInv(s)
    ensures LedgerInv(Apply(script, s, e))
  {
    hide Trusted, LedgerInv, Poll, SleepOrWake, WriteRegister16, ReadRegister16, ClearConversionEvidence, Inject, Bind,
      End, UpdateDesiredConfig, Start, TakeResult, Cancel;
    TrustedParts(s);
    match e
    case BindEvent(config) => BindingLedger(s, config);
    case EndEvent => BindingLedger(s, s.driver.config);
    case UpdateEvent(config) => BindingLedger(s, config);
    case StartEvent(kind, mask, id, deadlineMs) =>
      if kind != NO_JOB { StartKeepsLedger(s, kind, mask, id, deadlineMs); }
    case PollEvent(now, maxTransfers) => PollLedger(script, s, now, maxTransfers);
    case TakeEvent => TakeKeepsLedger(s);
    case CancelEvent => CancelKeepsLedger(s);
    case InvalidateEvent(reason) =>
      CancelKeepsLedger(s);
      SameAccounts(Cancel(s), Apply(script, s, e));
    case PowerCycleEvent(regs, cause) =>
      CancelKeepsLedger(s);
      CancelElsewhere(s, ClearConversionEvidence(s.device.(regs := regs)));
      SameAccounts(Cancel(s), Apply(script, s, e));
    case ConversionEvent(conversion) => SameAccounts(s, Apply(script, s, e));
    case SleepEvent => SwitchLedger(script, s, true);
    case WakeEvent => SwitchLedger(script, s, false);
    case WriteEvent(register, value) => DirectLedger(script, s, register, value);
    case ReadEvent(register) => DirectLedger(script, s, register, 0);
  }

  /** Cancelling does not look at the device. */
  lemma CancelElsewhere(s: System, device: Device)
    requires JobInProgram(s.driver)
    ensures Cancel(s.(device := device)) == Cancel(s).(device := device)
  {
    hide Abandon, MaxTransfers;
  }

  lemma CancelKeepsLedger(s: System)
    requires Trusted(s) && LedgerInv(s)
    ensures JobInProgram(s.driver) && LedgerInv(Cancel(s))
  {
    hide Abandon, LedgerInv;
    TrustedParts(s);
    if s.driver.job.Some? {
      AbandonKeepsLedger(s, CANCELLED, CANCELLED_BY_OWNER, 0);
    }
  }
}
