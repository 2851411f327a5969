/** A whole session on a healthy bus: nothing the theorems about runs say is
    said of an empty set of runs. */
module HealthyRuns {
  import opened CommandTable
  import opened Profile
  import opened DriverTypes
  import opened Registers
  import opened Validation
  import opened Decoding
  import opened Chip
  import opened Machine
  import opened Engine
  import opened Trust
  import opened Ledger
  import opened Deadlines
  import opened Conversions
  import opened Acquisition
  import opened Sampling
  import opened Progress
  import opened CliDevice
  import opened Runs
  import Operations
  import Fence
  import WriteEffects
  import Freshness
  import Outcomes

  function PollEvents(calls: seq<PollCall>): seq<Event> {
    seq(|calls|, i requires 0 <= i < |calls| => PollEvent(calls[i].now, calls[i].maxTransfers))
  }

  /** Bind, initialize, take the result and wake. */
  function Preparation(config: Config, id: uint64, deadline: uint64, polls: seq<PollCall>): seq<Event> {
    [BindEvent(config)] + ([StartEvent(INITIALIZE, 0, id, deadline)] + PollEvents(polls)) + [TakeEvent, WakeEvent]
  }

  /** Then acquire. */
  function Session(config: Config, initId: uint64, initDeadline: uint64, initPolls: seq<PollCall>,
                   mask: ChannelMask, id: uint64, deadline: uint64, polls: seq<PollCall>): seq<Event>
  {
    Preparation(config, initId, initDeadline, initPolls)
    + ([StartEvent(ACQUIRE, mask, id, deadline)] + PollEvents(polls))
  }

  // ----- runs piece by piece ------------------------------------------------

  lemma {:induction false} RunAppend(script: Script, s: System, a: seq<Event>, b: seq<Event>)
    requires Trusted(s)
    ensures Run(script, s, a + b) == Run(script, Run(script, s, a), b)
    decreases |a|
  {
    hide Trusted, Apply;
    if a == [] {
      assert a + b == b;
    } else {
      TrustedParts(s);
      ApplyKeepsTrust(script, s, a[0]);
      assert (a + b)[0] == a[0] && (a + b)[1..] == a[1..] + b;
      RunAppend(script, Apply(script, s, a[0]), a[1..], b);
    }
  }

  lemma {:induction false} RunPolls(script: Script, s: System, calls: seq<PollCall>)
    requires Trusted(s)
    ensures Run(script, s, PollEvents(calls)) == Polls(script, s, calls)
    decreases |calls|
  {
    hide Trusted, Poll;
    if calls != [] {
      TrustedParts(s);
      ApplyKeepsTrust(script, s, PollEvents(calls)[0]);
      assert PollEvents(calls)[1..] == PollEvents(calls[1..]);
      RunPolls(script, Apply(script, s, PollEvents(calls)[0]), calls[1..]);
    }
  }

  lemma RunOne(script: Script, s: System, e: Event)
    requires Trusted(s)
    ensures JobInProgram(s.driver) && Trusted(Apply(script, s, e)) && Run(script, s, [e]) == Apply(script, s, e)
  {
    hide Trusted, Apply;
    TrustedParts(s);
    ApplyKeepsTrust(script, s, e);
    assert [e][1..] == [];
  }

  // ----- one job, from its admission to its result --------------------------

  /** What becomes of the job of `start` on a healthy bus: it is still active
      with nothing published, or it has succeeded. */
  predicate OnCourse(start: System, s: System)
    requires start.driver.job.Some?
  {
    var job := start.driver.job.value;
    && s.driver.bound == start.driver.bound && s.driver.config == start.driver.config
    && if s.driver.job.Some? then
         && s.driver.job.value.id == job.id && s.driver.job.value.kind == job.kind
         && s.driver.job.value.mask == job.mask
         && s.driver.queue == [] && s.seen.published == start.seen.published
         && (job.kind == ACQUIRE ==> s.driver.applied == start.driver.applied)
       else
         && |s.driver.queue| == 1 && s.driver.queue[0].operationId == job.id && s.driver.queue[0].outcome == SUCCESS
         && (if job.kind == ACQUIRE then
               && s.driver.applied == start.driver.applied && s.driver.queue[0].sampleBatch.Some?
               && s.driver.queue[0].sampleBatch.value.selectedChannels == job.mask
               && |s.seen.published| == |start.seen.published| + |Selected(job.mask)|
             else s.driver.applied == APPLIED_SLEEPING && s.seen.published == start.seen.published)
  }

  /** A healthy device and driver with one job and no queued result. */
  ghost predicate Running(script: Script, s: System) {
    && Trusted(s) && AcquisitionInv(s) && Healthy(script) && RightPart(s.device.regs)
    && s.driver.job.Some? && s.driver.queue == []
  }

  /** The job after one healthy step. */
  lemma JobOnCourse(script: Script, s: System, now: uint64, timeout: nat)
    requires Running(script, s)
    ensures JobInProgram(s.driver)
    ensures var after := TransferStep(script, s, now, timeout).driver;
      && after.bound == s.driver.bound && after.config == s.driver.config
      && (after.job.Some? ==>
           && after.job.value.id == s.driver.job.value.id && after.job.value.kind == s.driver.job.value.kind
           && after.job.value.mask == s.driver.job.value.mask && after.queue == [])
      && (after.job.None? ==>
           && |after.queue| == 1 && after.queue[0].operationId == s.driver.job.value.id
           && after.queue[0].outcome == SUCCESS
           && (s.driver.job.value.kind != ACQUIRE ==> after.applied == APPLIED_SLEEPING))
      && (s.driver.job.value.kind == ACQUIRE ==> after.applied == s.driver.applied)
  {
    hide TransferStep, Complete, CurrentAction, MaxTransfers, ReadValue, Accepted, Holds, QueueInv, JobInv,
      AcquisitionInv, RightPart, Healthy, FinalBatch;
    TrustedParts(s);
    var action := CurrentAction(s.driver);
    StepDriver(script, s, now, timeout);
    StepSettles(script, s, now, timeout);
    HealthyStep(script, s, now, timeout);
    var value := if action.write then action.value else ReadValue(s.device, action.register);
    CompleteAdvances(s.driver, action, script(|s.seen.log|).status, value, now);
    if s.driver.job.value.kind == ACQUIRE {
      AcquireTrust(s.driver, script(|s.seen.log|).status, value, now);
    }
  }

  lemma AcquireTrust(d: Driver, status: Err, value: bv16, now: uint64)
    requires DriverInv(d) && d.job.Some? && d.job.value.kind == ACQUIRE
    ensures Complete(d, CurrentAction(d), status, value, now).applied == d.applied
  {
    hide Complete, CurrentAction, MaxTransfers, Accepted, QueueInv;
    AcquireOutcome(d, status, value, now);
  }

  /** The batch, if the step ended an acquisition. */
  lemma BatchOnCourse(script: Script, s: System, now: uint64, timeout: nat)
    requires Running(script, s)
    ensures JobInProgram(s.driver)
    ensures var after := TransferStep(script, s, now, timeout).driver;
      && after.job.None? && |after.queue| == 1 && after.queue[0].outcome == SUCCESS ==>
        Outcomes.BatchOfJob(s.driver.job.value, after.queue[0], s.driver.revision)
  {
    hide TransferStep, Complete, CurrentAction, MaxTransfers, ReadValue, Accepted, Holds, QueueInv, JobInv,
      AcquisitionInv, RightPart, Healthy, FinalBatch;
    TrustedParts(s);
    var action := CurrentAction(s.driver);
    StepDriver(script, s, now, timeout);
    AcquireReads(s.driver);
    Outcomes.EndFields(s.driver, action, script(|s.seen.log|).status,
                       if action.write then action.value else ReadValue(s.device, action.register), now);
  }

  /** What the step published. */
  lemma PublishedOnCourse(script: Script, s: System, now: uint64, timeout: nat)
    requires Running(script, s)
    ensures JobInProgram(s.driver)
    ensures var after := TransferStep(script, s, now, timeout);
      && (PublishedBatch(s.driver, after.driver).None? ==> after.seen.published == s.seen.published)
      && (PublishedBatch(s.driver, after.driver).Some? ==>
           |after.seen.published| == |s.seen.published|
             + |Selected(PublishedBatch(s.driver, after.driver).value.selectedChannels)|)
  {
    hide TransferStep, Trusted, AcquisitionInv, RightPart, Healthy, PublishSelected, DeviceAfter, Selected,
      PublishedBatch, CurrentAction, LatchedAfter, ConvertedAfter, DeviceInv, Grows, PublishedInv;
    TrustedParts(s);
    DeviceShape(s);
    EvidenceKept(s, script, now, timeout);
    var after := TransferStep(script, s, now, timeout);
    DeviceShape2(after);
    StepEvidence(script, s, now, timeout);
    assert s.seen.published + [] == s.seen.published;
    if PublishedBatch(s.driver, after.driver).Some? {
      PublishedLength(PublishedBatch(s.driver, after.driver).value, s.device, after.seen.latched, after.seen.converted,
                      after.seen.priorCounts);
    }
  }

  lemma StepOnCourse(script: Script, s: System, now: uint64, timeout: nat)
    requires Running(script, s)
    ensures JobInProgram(s.driver) && OnCourse(s, TransferStep(script, s, now, timeout))
  {
    hide TransferStep, Trusted, AcquisitionInv, RightPart, Healthy, Selected;
    TrustedParts(s);
    JobOnCourse(script, s, now, timeout);
    BatchOnCourse(script, s, now, timeout);
    PublishedOnCourse(script, s, now, timeout);
  }

  lemma PublishedLength(batch: SampleBatch, device: Device, latched: seq<nat>, converted: seq<nat>,
                        counts: StatusCounts)
    requires |latched| == MAX_CHANNELS && |converted| == MAX_CHANNELS
    ensures |PublishSelected(batch, device, latched, converted, counts)| == |Selected(batch.selectedChannels)|
  {
    hide Selected, Publish;
  }

  lemma Chained(start: System, middle: System, s: System)
    requires start.driver.job.Some? && OnCourse(start, middle) && middle.driver.job.Some? && OnCourse(middle, s)
    ensures OnCourse(start, s)
  {
    hide Selected;
  }

  lemma {:induction false} TransfersOnCourse(script: Script, s: System, now: uint64, timeout: nat, remaining: nat)
    requires Running(script, s)
    ensures JobInProgram(s.driver)
    ensures var after := Transfers(script, s, now, timeout, remaining);
      OnCourse(s, after) && (after.driver.job.Some? ==> Running(script, after))
      && Trusted(after) && AcquisitionInv(after) && RightPart(after.device.regs)
    decreases remaining
  {
    hide TransferStep, Trusted, AcquisitionInv, Healthy, RightPart, MaxTransfers, Selected;
    TrustedParts(s);
    if remaining > 0 {
      var next := TransferStep(script, s, now, timeout);
      StepKeepsTrust(script, s, now, timeout);
      StepKeepsAcquisition(script, s, now, timeout);
      StepKeepsPart(script, s, now, timeout);
      StepOnCourse(script, s, now, timeout);
      StepKeepsProgram(script, s, now, timeout);
      if next.driver.job.Some? {
        TransfersOnCourse(script, next, now, timeout, remaining - 1);
        Chained(s, next, Transfers(script, next, now, timeout, remaining - 1));
      } else {
        NoTransfers(script, next, now, timeout);
      }
    }
  }

  /** In-time polls with a transfer each for all the job needs end it well. */
  predicate InTimePolls(calls: seq<PollCall>, deadlineMs: uint64) {
    forall i :: 0 <= i < |calls| ==> calls[i].maxTransfers > 0 && !DueOrPast(calls[i].now, deadlineMs)
  }

  lemma {:induction false} PollsOnCourse(script: Script, s: System, calls: seq<PollCall>)
    requires Running(script, s) && InTimePolls(calls, s.driver.job.value.deadlineMs)
    ensures var after := Polls(script, s, calls);
      OnCourse(s, after) && RightPart(after.device.regs)
    decreases |calls|
  {
    hide Trusted, AcquisitionInv, Healthy, RightPart, MaxTransfers, Transfers, Poll, DueOrPast, Selected;
    TrustedParts(s);
    if calls != [] {
      var next := Poll(script, s, calls[0].now, calls[0].maxTransfers);
      PollKeepsTrust(script, s, calls[0].now, calls[0].maxTransfers);
      PollOnCourse(script, s, calls[0].now, calls[0].maxTransfers);
      if next.driver.job.Some? {
        PollsOnCourse(script, next, calls[1..]);
        Chained(s, next, Polls(script, next, calls[1..]));
      } else {
        IdlePolls(script, next, calls[1..]);
      }
    }
  }

  lemma PollOnCourse(script: Script, s: System, now: uint64, maxTransfers: uint8)
    requires Running(script, s) && maxTransfers > 0 && !DueOrPast(now, s.driver.job.value.deadlineMs)
    ensures JobInProgram(s.driver)
    ensures var after := Poll(script, s, now, maxTransfers);
      && OnCourse(s, after) && RightPart(after.device.regs)
      && (after.driver.job.Some? ==>
           Running(script, after) && after.driver.job.value.deadlineMs == s.driver.job.value.deadlineMs)
  {
    hide Trusted, AcquisitionInv, Healthy, RightPart, MaxTransfers, Transfers, PollTimeout, OnCourse;
    TrustedParts(s);
    InTimeBudget(s.driver, now, maxTransfers);
    var timeout, budget := PollTimeout(s.driver, now, maxTransfers), PollBudget(s.driver, now, maxTransfers);
    TransfersOnCourse(script, s, now, timeout, budget);
    var made := TransfersAdvance(script, s, now, timeout, budget);
  }

  // ----- the whole session --------------------------------------------------

  /** Bound to `config`, nothing active, nothing queued, nothing published. */
  ghost predicate Rested(s: System, config: Config) {
    && SystemInv(s) && RightPart(s.device.regs)
    && s.driver.bound && s.driver.config == config && s.driver.job.None? && s.driver.queue == []
    && s.seen.published == []
  }

  lemma SystemParts(s: System)
    requires SystemInv(s)
    ensures Trusted(s) && AcquisitionInv(s)
  {
    hide Trusted, Fence.FenceInv, LedgerInv, WriteEffects.UntouchedInv, AcquisitionInv, Freshness.FreshnessInv,
      Outcomes.OutcomeInv;
  }

  lemma EventKeeps(script: Script, s: System, e: Event)
    requires SystemInv(s)
    ensures Trusted(s) && JobInProgram(s.driver) && SystemInv(Apply(script, s, e))
    ensures Run(script, s, [e]) == Apply(script, s, e)
  {
    hide SystemInv, Trusted, Apply;
    SystemParts(s);
    ApplyKeepsInv(script, s, e);
    RunOne(script, s, e);
  }

  /** A job admitted at rest ends in SUCCESS. */
  lemma JobSucceeds(script: Script, s: System, config: Config, kind: JobKind, mask: ChannelMask, id: uint64,
                    deadline: uint64, calls: seq<PollCall>)
    requires Rested(s, config) && Healthy(script) && InTimePolls(calls, deadline)
    requires kind == INITIALIZE || kind == ACQUIRE
    requires id != 0 && Start(s, kind, mask, id, deadline).1 == IN_PROGRESS
    requires |calls| >= ProgramLength(kind, config, if kind == ACQUIRE then mask else 0)
    ensures Trusted(s)
    ensures var events := [StartEvent(kind, mask, id, deadline)] + PollEvents(calls);
      var started, after := Start(s, kind, mask, id, deadline).0, Run(script, s, events);
      && SystemInv(after) && RightPart(after.device.regs)
      && started.driver.job.Some? && after.driver.job.None? && OnCourse(started, after)
  {
    hide SystemInv, Trusted, Apply, RightPart, Healthy, AcquisitionInv, OnCourse, ProgramLength, Start, DueOrPast;
    var events := [StartEvent(kind, mask, id, deadline)] + PollEvents(calls);
    EventKeeps(script, s, StartEvent(kind, mask, id, deadline));
    var started := Start(s, kind, mask, id, deadline).0;
    StartIsApply(script, s, kind, mask, id, deadline);
    Operations.StartAnswers(s, kind, mask, id, deadline);
    Operations.StartAdmits(s, kind, mask, id, deadline);
    SystemParts(started);
    RunAppend(script, s, [StartEvent(kind, mask, id, deadline)], PollEvents(calls));
    RunPolls(script, started, calls);
    PollsOnCourse(script, started, calls);
    TrustedParts(started);
    PollsEndAnyJob(script, started, calls);
    RunKeepsInv(script, s, events);
  }

  lemma StartIsApply(script: Script, s: System, kind: JobKind, mask: ChannelMask, id: uint64, deadline: uint64)
    requires JobInProgram(s.driver) && kind != NO_JOB
    ensures Apply(script, s, StartEvent(kind, mask, id, deadline)) == Start(s, kind, mask, id, deadline).0
  {
    hide Start;
  }

  lemma BoundAtRest(script: Script, start: System, config: Config)
    requires Initial(start) && RightPart(start.device.regs) && Accepted(config)
    ensures Trusted(start) && Rested(Run(script, start, [BindEvent(config)]), config)
    ensures Run(script, start, [BindEvent(config)]).driver.applied == UNKNOWN
  {
    hide SystemInv, Trusted, RightPart, Accepted, Bind;
    InitialInv(start);
    EventKeeps(script, start, BindEvent(config));
    Operations.BindAnswers(start, config);
  }

  /** Taking the result of a finished INITIALIZE and waking the part. */
  lemma TakenAndAwake(script: Script, s: System, config: Config)
    requires SystemInv(s) && Healthy(script) && RightPart(s.device.regs)
    requires s.driver.bound && s.driver.config == config && s.driver.job.None? && |s.driver.queue| == 1
    requires s.driver.applied == APPLIED_SLEEPING && s.seen.published == []
    ensures Trusted(s)
    ensures var after := Run(script, s, [TakeEvent, WakeEvent]);
      && Rested(after, config) && after.driver.applied == APPLIED_ACTIVE
      && after.device.regs[0x1A] & 0x2000 == 0
  {
    hide SystemInv, Trusted, TakeResult, SleepOrWake;
    EventKeeps(script, s, TakeEvent);
    Operations.TakeAnswers(s);
    var taken := TakeResult(s).0;
    EventKeeps(script, taken, WakeEvent);
    Operations.SwitchAnswers(script, taken, false);
    WakePublishes(script, taken);
    RunAppend(script, s, [TakeEvent], [WakeEvent]);
    assert [TakeEvent] + [WakeEvent] == [TakeEvent, WakeEvent];
  }

  lemma WakePublishes(script: Script, s: System)
    ensures SleepOrWake(script, s, false).0.seen.published == s.seen.published
  {
    hide Written, BuildConfigRegister, LatchedAfter, ConvertedAfter, CountsOf;
  }

  /** The first half of a session: the part is bound, initialized and awake. */
  lemma HealthyStart(script: Script, start: System, config: Config, initId: uint64, initDeadline: uint64,
                     initPolls: seq<PollCall>)
    requires Initial(start) && Healthy(script) && RightPart(start.device.regs) && Accepted(config) && initId != 0
    requires InTimePolls(initPolls, initDeadline)
    requires |initPolls| >= 2 + ConfigurationTransferCount(ChannelCountFor(config.variant))
    ensures Trusted(start)
    ensures var s := Run(script, start, Preparation(config, initId, initDeadline, initPolls));
      Rested(s, config) && s.driver.applied == APPLIED_ACTIVE && s.device.regs[0x1A] & 0x2000 == 0
  {
    hide Initial, Trusted, SystemInv, RightPart, Healthy, Accepted, InTimePolls, Selected, Run, Start, PollEvents;
    BoundAtRest(script, start, config);
    var bound := Run(script, start, [BindEvent(config)]);
    Operations.StartAnswers(bound, INITIALIZE, 0, initId, initDeadline);
    Operations.StartAdmits(bound, INITIALIZE, 0, initId, initDeadline);
    JobSucceeds(script, bound, config, INITIALIZE, 0, initId, initDeadline, initPolls);
    var initialize := [StartEvent(INITIALIZE, 0, initId, initDeadline)] + PollEvents(initPolls);
    TakenAndAwake(script, Run(script, bound, initialize), config);
    RunAppend(script, start, [BindEvent(config)], initialize);
    RunAppend(script, start, [BindEvent(config)] + initialize, [TakeEvent, WakeEvent]);
  }

  /** On a healthy bus with the right part, in-time polls carry a whole session
      through: bind, initialize, wake and acquire end with the part awake and a
      batch of exactly the selected channels published. */
  lemma HealthySessionSamples(script: Script, start: System, config: Config, initId: uint64, initDeadline: uint64,
                              initPolls: seq<PollCall>, mask: ChannelMask, id: uint64, deadline: uint64,
                              polls: seq<PollCall>)
    requires Initial(start) && Healthy(script) && RightPart(start.device.regs) && Accepted(config)
    requires mask != 0 && mask & !config.channels == 0 && initId != 0 && id != 0
    requires InTimePolls(initPolls, initDeadline) && InTimePolls(polls, deadline)
    requires |initPolls| >= 2 + ConfigurationTransferCount(ChannelCountFor(config.variant))
    requires |polls| >= 2 + 2 * |Selected(mask)|
    ensures Trusted(start)
    ensures var s := Run(script, start, Session(config, initId, initDeadline, initPolls, mask, id, deadline, polls));
      && s.driver.applied == APPLIED_ACTIVE && s.driver.job.None? && |s.driver.queue| == 1
      && s.driver.queue[0].operationId == id && s.driver.queue[0].outcome == SUCCESS
      && s.driver.queue[0].sampleBatch.Some?
      && s.driver.queue[0].sampleBatch.value.selectedChannels == mask
      && |s.seen.published| == |Selected(mask)|
  {
    hide Initial, Trusted, SystemInv, RightPart, Healthy, Accepted, InTimePolls, Selected, Run, Start, PollEvents,
      Preparation;
    HealthyStart(script, start, config, initId, initDeadline, initPolls);
    var preparation := Preparation(config, initId, initDeadline, initPolls);
    var awake := Run(script, start, preparation);
    Operations.StartAnswers(awake, ACQUIRE, mask, id, deadline);
    Operations.StartAdmits(awake, ACQUIRE, mask, id, deadline);
    JobSucceeds(script, awake, config, ACQUIRE, mask, id, deadline, polls);
    RunAppend(script, start, preparation, [StartEvent(ACQUIRE, mask, id, deadline)] + PollEvents(polls));
  }
}
