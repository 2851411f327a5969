/** What a result says about its admission: revision, deadline and mask are
    those of the call, and expiry is decided by the admitted deadline alone. */
module Outcomes {
  import opened CommandTable
  import opened Profile
  import opened DriverTypes
  import opened Registers
  import opened Validation
  import opened Decoding
  import opened Chip
  import opened Machine
  import opened Engine
  import opened Trust
  import opened Ledger

  /** The final snapshot and stamps of a result that ended `job` at `now`. */
  predicate Stamped(job: Job, r: OperationResult, now: uint64) {
    && r.operationId == job.id && r.kind == job.kind && r.completedUptimeMs == now && r.configRevision == job.revision
    && !r.finalProgress.active && r.finalProgress.operationId == job.id && r.finalProgress.kind == job.kind
    && r.finalProgress.deadlineMs == job.deadlineMs && r.finalProgress.requestedChannels == job.mask
    && r.finalProgress.configRevision == job.revision && r.finalProgress.effects == r.effects
    && r.finalProgress.completedChannels == job.completed
  }

  /** A batch comes with every successful acquisition and with nothing else. */
  predicate BatchOfJob(job: Job, r: OperationResult, revision: uint32) {
    if r.outcome == SUCCESS && job.kind == ACQUIRE then
      && r.sampleBatch.Some? && r.sampleBatch.value.selectedChannels == job.mask
      && r.sampleBatch.value.completedUptimeMs == r.completedUptimeMs
      && r.sampleBatch.value.configRevision == revision
    else r.sampleBatch == None
  }

  /** An end of the job at `now`: one more result, stamped, with its batch. */
  predicate EndsStamped(d: Driver, after: Driver, now: uint64)
    requires d.job.Some?
  {
    after.job.None? ==>
      && |after.queue| == |d.queue| + 1
      && var r := after.queue[|d.queue|];
      && Stamped(d.job.value, r, now) && r.configFault == after.fault && BatchOfJob(d.job.value, r, d.revision)
      && (r.outcome == FAILED || (r.outcome == SUCCESS && r.status == OK))
  }

  lemma FailWriteEnds(d: Driver, action: Action, status: Err, now: uint64)
    requires d.job.Some?
    ensures EndsStamped(d, FailWrite(d, action, status, now), now)
  {
    hide ProgramLength, Ended;
  }

  lemma FailIdentityEnds(d: Driver, action: Action, status: Err, now: uint64)
    requires d.job.Some?
    ensures EndsStamped(d, FailIdentity(d, action, status, now), now)
  {
    hide ProgramLength, Ended;
  }

  lemma FailAcquireEnds(d: Driver, action: Action, status: Err, now: uint64)
    requires d.job.Some?
    ensures EndsStamped(d, FailAcquire(d, action, status, now), now)
  {
    hide ProgramLength, Ended;
  }

  lemma SucceedWriteEnds(d: Driver, action: Action, now: uint64)
    requires d.job.Some? && d.job.value.kind != ACQUIRE
    ensures EndsStamped(d, SucceedWrite(d, action, now), now)
  {
    hide ProgramLength, Ended;
  }

  lemma SucceedAcquireEnds(d: Driver, action: Action, value: bv16, now: uint64)
    requires d.job.Some? && d.job.value.kind == ACQUIRE
    ensures EndsStamped(d, SucceedAcquire(d, action, value, now), now)
  {
    hide ProgramLength, Ended, DecodeDeviceStatus, DecodeChannelSample, QualityMask, PublishedSamples, WithBit;
  }

  /** Counting the attempt leaves the stamps alone. */
  lemma EndFields(d: Driver, action: Action, status: Err, value: bv16, now: uint64)
    requires d.job.Some? && (d.job.value.kind == ACQUIRE ==> !action.write)
    ensures EndsStamped(d, Complete(d, action, status, value, now), now)
  {
    hide FailWrite, FailIdentity, FailAcquire, SucceedWrite, SucceedAcquire;
    var counted := WithJob(d, d.job.value.(done := d.job.value.done + 1));
    FailWriteEnds(counted, action, status, now);
    FailIdentityEnds(counted, action, status, now);
    FailIdentityEnds(counted, action, DEVICE_NOT_FOUND, now);
    FailAcquireEnds(counted, action, status, now);
    if d.job.value.kind == ACQUIRE {
      SucceedAcquireEnds(counted, action, value, now);
    } else {
      SucceedWriteEnds(counted, action, now);
    }
  }

  lemma AbandonFields(d: Driver, outcome: Outcome, status: Err, now: uint64)
    requires d.job.Some? && JobInProgram(d)
    ensures var after := Abandon(d, outcome, status, now);
      && after.job.None? && |after.queue| == |d.queue| + 1 && after.queue[..|d.queue|] == d.queue
      && after.revision == d.revision
      && var r := after.queue[|d.queue|];
      && Stamped(d.job.value, r, now) && r.configFault == after.fault && r.sampleBatch == None
      && r.outcome == outcome && r.status == status
  {
    hide ProgramLength, ProgramAction;
  }

  // ----- effects and channels of an acquisition -----------------------------

  predicate ReadAfter(job: Job, action: Action, status: Err) {
    || job.effects.read
    || (job.kind == ACQUIRE && (status == OK || (action.phase == READ_STATUS_BEFORE && status != I2C_NACK_ADDR)))
  }

  function CompletedAfter(job: Job, action: Action, status: Err): ChannelMask {
    if job.kind == ACQUIRE && status == OK && action.phase == READ_DATA_LSB && action.channel < MAX_CHANNELS
    then WithBit(job.completed, action.channel) else job.completed
  }

  /** Read effects and finished channels after one attempt. */
  predicate ReadsMarked(d: Driver, after: Driver, action: Action, status: Err)
    requires d.job.Some?
  {
    if after.job.Some? then
      && after.job.value.effects.read == ReadAfter(d.job.value, action, status)
      && after.job.value.completed == CompletedAfter(d.job.value, action, status)
    else |after.queue| > |d.queue| && after.queue[|d.queue|].effects.read == ReadAfter(d.job.value, action, status)
  }

  lemma WriteMarks(d: Driver, action: Action, status: Err, now: uint64)
    requires d.job.Some? && d.job.value.kind != ACQUIRE
    ensures status != OK ==> ReadsMarked(d, FailWrite(d, action, status, now), action, status)
    ensures ReadsMarked(d, SucceedWrite(d, action, now), action, OK)
    ensures ReadsMarked(d, FailIdentity(d, action, status, now), action, status)
  {
    hide ProgramLength, ProgressAt, Ended, WithBit;
  }

  lemma AcquireFailureMarks(d: Driver, action: Action, status: Err, now: uint64)
    requires d.job.Some? && d.job.value.kind == ACQUIRE && status != OK
    ensures ReadsMarked(d, FailAcquire(d, action, status, now), action, status)
  {
    hide ProgramLength, ProgressAt, Ended, CompletedAfter;
  }

  lemma AcquireSuccessMarks(d: Driver, action: Action, value: bv16, now: uint64)
    requires d.job.Some? && d.job.value.kind == ACQUIRE
    ensures ReadsMarked(d, SucceedAcquire(d, action, value, now), action, OK)
  {
    hide ProgramLength, ProgressAt, Ended, EndedWith, MaxTransfers, WithBit, FinalBatch, DecodeDeviceStatus,
      DecodeChannelSample;
    if action.phase == READ_STATUS_BEFORE {
    } else if action.phase == READ_DATA_MSB {
    } else if action.phase == READ_DATA_LSB {
    }
  }

  lemma AttemptMarks(d: Driver, action: Action, status: Err, value: bv16, now: uint64)
    requires d.job.Some? && (d.job.value.kind == ACQUIRE ==> !action.write)
    ensures ReadsMarked(d, Complete(d, action, status, value, now), action, status)
  {
    hide FailWrite, FailIdentity, FailAcquire, SucceedWrite, SucceedAcquire, WithBit, ProgramLength;
    var counted := WithJob(d, d.job.value.(done := d.job.value.done + 1));
    if d.job.value.kind == ACQUIRE {
      if status == OK {
        AcquireSuccessMarks(counted, action, value, now);
      } else {
        AcquireFailureMarks(counted, action, status, now);
      }
    } else {
      WriteMarks(counted, action, status, now);
      WriteMarks(counted, action, DEVICE_NOT_FOUND, now);
    }
  }

  // ----- results and admissions over a run ----------------------------------

  /** Acknowledged transfers of a transcript: only its last can have failed. */
  function Acked(wire: seq<Transfer>): nat {
    if wire != [] && wire[|wire| - 1].status != OK then |wire| - 1 else |wire|
  }

  /** `completed` holds exactly the selected channels whose LSB is among the
      first `acked` words. */
  predicate ChannelsDone(mask: ChannelMask, completed: ChannelMask, acked: nat) {
    SelectedAscends(mask);
    && Within(completed, mask)
    && forall i :: 0 <= i < |Selected(mask)| ==> (Has(completed, Selected(mask)[i]) <==> acked >= 3 + 2 * i)
  }

  /** Expiry is decided by the deadline and the clock of the ending poll. */
  predicate InTime(deadlineMs: uint64, r: OperationResult) {
    match r.outcome
    case SUCCESS => r.status == OK && !DueOrPast(r.completedUptimeMs, deadlineMs)
    case FAILED => !DueOrPast(r.completedUptimeMs, deadlineMs)
    case TIMED_OUT => r.status == TIMEOUT && DueOrPast(r.completedUptimeMs, deadlineMs)
    case CANCELLED => r.status == CANCELLED_BY_OWNER
    case NO_OUTCOME => false
  }

  predicate BatchReported(a: Admission, r: OperationResult) {
    if r.outcome == SUCCESS && a.kind == ACQUIRE then
      && r.sampleBatch.Some? && r.sampleBatch.value.selectedChannels == a.mask
      && r.sampleBatch.value.completedUptimeMs == r.completedUptimeMs
      && r.sampleBatch.value.configRevision == a.revision
    else r.sampleBatch == None
  }

  /** The result of an admission repeats the call's arguments. */
  predicate RepeatsCall(a: Admission, r: OperationResult) {
    && r.operationId == a.id && r.kind == a.kind && r.configRevision == a.revision
    && !r.finalProgress.active && r.finalProgress.operationId == a.id && r.finalProgress.kind == a.kind
    && r.finalProgress.deadlineMs == a.deadlineMs && r.finalProgress.requestedChannels == a.mask
    && r.finalProgress.configRevision == a.revision && r.finalProgress.effects == r.effects
  }

  predicate Reported(a: Admission, r: OperationResult) {
    && RepeatsCall(a, r) && InTime(a.deadlineMs, r) && BatchReported(a, r)
    && (r.effects.read <==> a.kind == ACQUIRE && a.wire != [] && a.wire[0].status != I2C_NACK_ADDR)
    && ChannelsDone(a.mask, r.finalProgress.completedChannels, Acked(a.wire))
  }

  predicate Underway(a: Admission, d: Driver)
    requires d.job.Some?
  {
    var job := d.job.value;
    && a.id == job.id && a.kind == job.kind && a.mask == job.mask && a.deadlineMs == job.deadlineMs
    && a.revision == job.revision == d.revision
    && (job.kind != ACQUIRE ==> job.mask == 0)
    && (job.effects.read <==> job.kind == ACQUIRE && job.done > 0)
    && ChannelsDone(job.mask, job.completed, job.done)
  }

  predicate OutcomeInv(s: System) {
    var settled := s.seen.delivered + s.driver.queue;
    && |s.seen.admitted| == |settled| + (if s.driver.job.Some? then 1 else 0)
    && (forall n :: 0 <= n < |settled| ==> Reported(s.seen.admitted[n], settled[n]))
    && (s.driver.job.Some? ==> Underway(s.seen.admitted[|settled|], s.driver))
  }

  // ----- one transfer -------------------------------------------------------

  /** A good LSB adds its channel; nothing else changes the finished ones. */
  lemma ChannelsAdvance(job: Job, action: Action)
    requires job.kind == ACQUIRE && job.done < 1 + 2 * |Selected(job.mask)|
    requires action == AcquireAction(job.mask, job.done) && ChannelsDone(job.mask, job.completed, job.done)
    ensures ChannelsDone(job.mask, CompletedAfter(job, action, OK), job.done + 1)
  {
    hide Selected, AcquireAction, WithBit, Has, Within;
    SelectedAscends(job.mask);
    AcquireActionShape(job.mask, job.done);
    if action.phase == READ_DATA_LSB {
      var own := (job.done - 1) / 2;
      assert Selected(job.mask)[own] == action.channel;
      forall i | 0 <= i < |Selected(job.mask)|
        ensures Has(WithBit(job.completed, action.channel), Selected(job.mask)[i]) <==> job.done + 1 >= 3 + 2 * i
      {
        AddBit(job.completed, job.mask, action.channel, Selected(job.mask)[i]);
      }
      AddBit(job.completed, job.mask, action.channel, action.channel);
    }
  }

  /** An attempt that goes on is still the admitted operation. */
  lemma GoesOnUnderway(a: Admission, d: Driver, after: Driver, action: Action, t: Transfer)
    requires d.job.Some? && JobInProgram(d) && Underway(a, d) && action == CurrentAction(d)
    requires GoesOn(d, after, OK) && ReadsMarked(d, after, action, OK) && after.revision == d.revision
    requires after.job.value.deadlineMs == d.job.value.deadlineMs && after.job.value.revision == d.job.value.revision
    requires d.job.value.kind == ACQUIRE ==> d.job.value.done < 1 + 2 * |Selected(d.job.value.mask)|
    ensures Underway(a.(wire := a.wire + [t]), after)
  {
    hide Selected, AcquireAction, ReplayAction, Has, Within, WithBit, ReplayLength;
    if d.job.value.kind == ACQUIRE {
      ChannelsAdvance(d.job.value, action);
    } else {
      NoneSelected();
    }
  }

  lemma NoneSelected()
    ensures Selected(0) == []
  {
  }

  /** An attempt that ends the job reports the admitted operation. */
  lemma EndReported(a: Admission, d: Driver, after: Driver, action: Action, t: Transfer, now: uint64)
    requires d.job.Some? && JobInProgram(d) && Underway(a, d) && action == CurrentAction(d)
    requires AllAcknowledged(a.wire) && |a.wire| == d.job.value.done
    requires !DueOrPast(now, d.job.value.deadlineMs)
    requires after.job.None? && EndsStamped(d, after, now) && ReadsMarked(d, after, action, t.status)
    requires d.job.value.kind == ACQUIRE && t.status == OK ==> d.job.value.done == 1 + 2 * |Selected(d.job.value.mask)|
    ensures Reported(a.(wire := a.wire + [t]), after.queue[|d.queue|])
  {
    hide Selected, AcquireAction, ReplayAction, Has, Within, WithBit, ReplayLength;
    NoneSelected();
    SelectedAscends(d.job.value.mask);
    if d.job.value.kind == ACQUIRE {
      AcquireFirst(d);
    }
  }

  /** STATUS-before is the first transfer of an acquisition and no other. */
  lemma AcquireFirst(d: Driver)
    requires d.job.Some? && JobInProgram(d) && d.job.value.kind == ACQUIRE
    ensures CurrentAction(d).phase == READ_STATUS_BEFORE <==> d.job.value.done == 0
  {
    hide Selected, AcquireAction;
    AcquireActionShape(d.job.value.mask, d.job.value.done);
  }

  /** Continuing attempts keep deadline and revisions; the last good transfer
      of an acquisition is STATUS-after. */
  lemma AttemptShape(d: Driver, status: Err, value: bv16, now: uint64)
    requires d.job.Some? && JobInProgram(d) && JobInv(d)
    ensures d.job.value.kind == ACQUIRE ==> !CurrentAction(d).write
    ensures var after := Complete(d, CurrentAction(d), status, value, now);
      && after.revision == d.revision
      && (after.job.Some? ==>
           && after.job.value.deadlineMs == d.job.value.deadlineMs
           && after.job.value.revision == d.job.value.revision
           && (d.job.value.kind == ACQUIRE ==> d.job.value.done < 1 + 2 * |Selected(d.job.value.mask)|))
      && (after.job.None? && d.job.value.kind == ACQUIRE && status == OK ==>
           d.job.value.done == 1 + 2 * |Selected(d.job.value.mask)|)
  {
    hide Complete, Selected, AcquireAction, ReplayAction, ReplayLength, Within;
    CompleteAdvances(d, CurrentAction(d), status, value, now);
    if d.job.value.kind == ACQUIRE {
      AcquireActionShape(d.job.value.mask, d.job.value.done);
    }
  }

  lemma LastAdmission(s: System)
    requires s.driver.job.Some? && LedgerInv(s) && OutcomeInv(s)
    ensures s.seen.admitted != []
    ensures var a := s.seen.admitted[|s.seen.admitted| - 1];
      Underway(a, s.driver) && AllAcknowledged(a.wire) && |a.wire| == s.driver.job.value.done
  {
    hide Settles, Reported, FollowsProgram, Underway, AllAcknowledged;
  }

  /** The settled results stay; one more, or the same job goes on. */
  lemma OutcomeAttempt(s: System, after: System, t: Transfer)
    requires s.driver.job.Some? && OutcomeInv(s) && s.seen.admitted != []
    requires after.seen.delivered == s.seen.delivered
    requires var last := |s.seen.admitted| - 1;
      after.seen.admitted == s.seen.admitted[last := s.seen.admitted[last].(wire := s.seen.admitted[last].wire + [t])]
    requires after.driver.job.Some? ==>
      after.driver.queue == s.driver.queue && Underway(after.seen.admitted[|s.seen.admitted| - 1], after.driver)
    requires after.driver.job.None? ==>
      && |after.driver.queue| == |s.driver.queue| + 1 && after.driver.queue[..|s.driver.queue|] == s.driver.queue
      && Reported(after.seen.admitted[|s.seen.admitted| - 1], after.driver.queue[|s.driver.queue|])
    ensures OutcomeInv(after)
  {
    hide Reported, Underway;
    if after.driver.job.None? {
      EndedSettlement(s.driver, after.driver, s.seen.delivered);
    }
  }

  lemma StepKeepsOutcomes(script: Script, s: System, now: uint64, timeout: nat)
    requires s.driver.job.Some? && Trusted(s) && LedgerInv(s) && OutcomeInv(s)
    requires !DueOrPast(now, s.driver.job.value.deadlineMs)
    ensures JobInProgram(s.driver) && OutcomeInv(TransferStep(script, s, now, timeout))
  {
    hide Complete, TransferStep, ProgramAction, MaxTransfers, ReadValue, LedgerInv, OutcomeInv, Trusted, DueOrPast,
      Underway, Reported, EndsStamped, ReadsMarked, AllAcknowledged, CurrentAction, Selected, JobInProgram;
    TrustedParts(s);
    LastAdmission(s);
    var d, action := s.driver, CurrentAction(s.driver);
    var status := script(|s.seen.log|).status;
    var value := if action.write then action.value else ReadValue(s.device, action.register);
    StepAdmission(script, s, now, timeout);
    StepDriver(script, s, now, timeout);
    AttemptShape(d, status, value, now);
    AttemptRecord(d, status, value, now);
    EndFields(d, action, status, value, now);
    AttemptMarks(d, action, status, value, now);
    var a := s.seen.admitted[|s.seen.admitted| - 1];
    var t := Transfer(action.write, action.register, value, status, true, s.seen.manufacturerSeen && s.seen.deviceSeen);
    var after := TransferStep(script, s, now, timeout);
    if after.driver.job.Some? {
      GoesOnUnderway(a, d, after.driver, action, t);
    } else {
      EndReported(a, d, after.driver, action, t, now);
    }
    OutcomeAttempt(s, after, t);
  }

  lemma {:induction false} TransfersKeepOutcomes(script: Script, s: System, now: uint64, timeout: nat, remaining: nat)
    requires Trusted(s) && LedgerInv(s) && OutcomeInv(s)
    requires s.driver.job.Some? ==> !DueOrPast(now, s.driver.job.value.deadlineMs)
    ensures JobInProgram(s.driver) && OutcomeInv(Transfers(script, s, now, timeout, remaining))
    decreases remaining
  {
    hide TransferStep, Trusted, LedgerInv, OutcomeInv, DueOrPast;
    TrustedParts(s);
    if remaining > 0 && s.driver.job.Some? {
      StepKeepsTrust(script, s, now, timeout);
      StepKeepsLedger(script, s, now, timeout);
      StepKeepsOutcomes(script, s, now, timeout);
      StepKeepsDeadline(script, s, now, timeout);
      TransfersKeepOutcomes(script, TransferStep(script, s, now, timeout), now, timeout, remaining - 1);
    }
  }

  lemma StepKeepsDeadline(script: Script, s: System, now: uint64, timeout: nat)
    requires s.driver.job.Some? && Trusted(s)
    ensures JobInProgram(s.driver)
    ensures var after := TransferStep(script, s, now, timeout).driver;
      after.job.Some? ==> after.job.value.deadlineMs == s.driver.job.value.deadlineMs
  {
    hide Complete, TransferStep, MaxTransfers, ReadValue, CurrentAction, Selected, Accepted, Holds, QueueInv;
    TrustedParts(s);
    StepDriver(script, s, now, timeout);
    var action := CurrentAction(s.driver);
    AttemptShape(s.driver, script(|s.seen.log|).status,
                 if action.write then action.value else ReadValue(s.device, action.register), now);
  }

  // ----- the owner's operations ---------------------------------------------

  lemma AbandonReported(a: Admission, d: Driver, outcome: Outcome, status: Err, now: uint64)
    requires d.job.Some? && JobInProgram(d) && Underway(a, d)
    requires AllAcknowledged(a.wire) && |a.wire| == d.job.value.done
    requires (outcome == TIMED_OUT && status == TIMEOUT && DueOrPast(now, d.job.value.deadlineMs))
      || (outcome == CANCELLED && status == CANCELLED_BY_OWNER)
    ensures var after := Abandon(d, outcome, status, now);
      |after.queue| == |d.queue| + 1 && Reported(a, after.queue[|d.queue|])
  {
    hide Selected, Has, Within, DueOrPast, CurrentAction, MaxTransfers, Abandon;
    AbandonFields(d, outcome, status, now);
    AbandonReads(d, outcome, status, now);
    SelectedAscends(d.job.value.mask);
  }

  lemma AbandonReads(d: Driver, outcome: Outcome, status: Err, now: uint64)
    requires d.job.Some? && JobInProgram(d)
    ensures var after := Abandon(d, outcome, status, now);
      |after.queue| == |d.queue| + 1 && after.queue[|d.queue|].effects == d.job.value.effects
  {
    hide CurrentAction, ProgramLength;
  }

  lemma AbandonKeepsOutcomes(s: System, outcome: Outcome, status: Err, now: uint64)
    requires s.driver.job.Some? && Trusted(s) && LedgerInv(s) && OutcomeInv(s)
    requires (outcome == TIMED_OUT && status == TIMEOUT && DueOrPast(now, s.driver.job.value.deadlineMs))
      || (outcome == CANCELLED && status == CANCELLED_BY_OWNER)
    ensures JobInProgram(s.driver) && OutcomeInv(s.(driver := Abandon(s.driver, outcome, status, now)))
  {
    hide Trusted, LedgerInv, Abandon, Reported, Underway, AllAcknowledged, DueOrPast, JobInProgram;
    TrustedParts(s);
    LastAdmission(s);
    var after := Abandon(s.driver, outcome, status, now);
    AbandonFields(s.driver, outcome, status, now);
    AbandonReported(s.seen.admitted[|s.seen.admitted| - 1], s.driver, outcome, status, now);
    EndedSettlement(s.driver, after, s.seen.delivered);
  }

  lemma PollOutcomes(script: Script, s: System, now: uint64, maxTransfers: uint8)
    requires Trusted(s) && LedgerInv(s) && OutcomeInv(s)
    ensures JobInProgram(s.driver) && OutcomeInv(Poll(script, s, now, maxTransfers))
  {
    hide Trusted, LedgerInv, OutcomeInv, Transfers, Abandon, PollBudget, PollTimeout, DueOrPast;
    TrustedParts(s);
    if s.driver.job.Some? {
      if DueOrPast(now, s.driver.job.value.deadlineMs) {
        AbandonKeepsOutcomes(s, TIMED_OUT, TIMEOUT, now);
      } else if PollBudget(s.driver, now, maxTransfers) > 0 {
        TransfersKeepOutcomes(script, s, now, PollTimeout(s.driver, now, maxTransfers),
                              PollBudget(s.driver, now, maxTransfers));
      }
    }
  }

  lemma CancelKeepsOutcomes(s: System)
    requires Trusted(s) && LedgerInv(s) && OutcomeInv(s)
    ensures JobInProgram(s.driver) && OutcomeInv(Cancel(s))
  {
    hide Trusted, LedgerInv, OutcomeInv, Abandon;
    TrustedParts(s);
    if s.driver.job.Some? {
      AbandonKeepsOutcomes(s, CANCELLED, CANCELLED_BY_OWNER, 0);
    }
  }

  lemma StartKeepsOutcomes(s: System, kind: JobKind, mask: ChannelMask, id: uint64, deadlineMs: uint64)
    requires OutcomeInv(s) && kind != NO_JOB
    ensures OutcomeInv(Start(s, kind, mask, id, deadlineMs).0)
  {
    hide Reported, ChannelsDone, IdInUse;
    NothingDone(mask);
    NothingDone(0);
  }

  lemma NothingDone(mask: ChannelMask)
    ensures ChannelsDone(mask, 0, 0)
  {
    hide Selected, Has, Within;
    SelectedAscends(mask);
    EmptyMask(mask, 0);
    forall i | 0 <= i < MAX_CHANNELS
      ensures !Has(0, i)
    {
      EmptyMask(mask, i);
    }
  }

  lemma TakeKeepsOutcomes(s: System)
    requires OutcomeInv(s)
    ensures OutcomeInv(TakeResult(s).0)
  {
    hide Reported, ChannelsDone;
    if s.driver.queue != [] {
      assert s.seen.delivered + [s.driver.queue[0]] + s.driver.queue[1..] == s.seen.delivered + s.driver.queue;
    }
  }

  /** Nothing a result could report has changed. */
  lemma SameOutcomes(s: System, after: System)
    requires OutcomeInv(s) && after.driver.job == s.driver.job && after.driver.queue == s.driver.queue
    requires after.seen.admitted == s.seen.admitted && after.seen.delivered == s.seen.delivered
    requires s.driver.job.Some? ==> after.driver.revision == s.driver.revision
    ensures OutcomeInv(after)
  {
    hide Reported, ChannelsDone;
  }

  lemma DirectOutcomes(script: Script, s: System, e: Event)
    requires JobInProgram(s.driver) && OutcomeInv(s) && (DirectTransferEvent(e) || e.ConversionEvent?)
    ensures OutcomeInv(Apply(script, s, e))
  {
    hide OutcomeInv, Written, AfterRead, ReadValue, IsConfigurationRegister, IsLdc1614OnlyRegister, IsValidRegister,
      PhaseForRegister, ChannelForRegister, LatchedAfter, ConvertedAfter, BuildConfigRegister, CountsOf;
    SameOutcomes(s, Apply(script, s, e));
  }

  lemma BindingOutcomes(s: System, config: Config)
    requires OutcomeInv(s)
    ensures OutcomeInv(Bind(s, config).0) && OutcomeInv(End(s)) && OutcomeInv(UpdateDesiredConfig(s, config).0)
  {
    hide Reported, Underway, Accepted, SameBinding;
    SameOutcomes(s, UpdateDesiredConfig(s, config).0);
  }

  lemma ApplyKeepsOutcomes(script: Script, s: System, e: Event)
    requires Trusted(s) && LedgerInv(s) && OutcomeInv(s)
    ensures OutcomeInv(Apply(script, s, e))
  {
    hide Trusted, LedgerInv, OutcomeInv, Poll, SleepOrWake, WriteRegister16, ReadRegister16, ClearConversionEvidence,
      Inject, Bind, End, UpdateDesiredConfig, Start, TakeResult, Cancel;
    TrustedParts(s);
    match e
    case BindEvent(config) => BindingOutcomes(s, config);
    case EndEvent => BindingOutcomes(s, s.driver.config);
    case UpdateEvent(config) => BindingOutcomes(s, config);
    case StartEvent(kind, mask, id, deadlineMs) =>
      if kind != NO_JOB { StartKeepsOutcomes(s, kind, mask, id, deadlineMs); }
    case PollEvent(now, maxTransfers) => PollOutcomes(script, s, now, maxTransfers);
    case TakeEvent => TakeKeepsOutcomes(s);
    case CancelEvent => CancelKeepsOutcomes(s);
    case InvalidateEvent(reason) =>
      CancelKeepsOutcomes(s);
      SameOutcomes(Cancel(s), Apply(script, s, e));
    case PowerCycleEvent(regs, cause) =>
      CancelKeepsOutcomes(s);
      CancelElsewhere(s, ClearConversionEvidence(s.device.(regs := regs)));
      SameOutcomes(Cancel(s), Apply(script, s, e));
    case _ => DirectOutcomes(script, s, e);
  }
}
