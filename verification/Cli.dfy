/** The diagnostic CLI's cooperative scheduler: correlated operations, deferred
    prompts and session accounting, driving the driver it alone uses. */
module DiagnosticCli {
  import opened CommandTable
  import opened Profile
  import opened DriverTypes
  import opened Registers
  import opened Validation
  import opened Decoding
  import opened Chip
  import opened Machine
  import opened Engine
  import opened Trust
  import opened CliDevice
  import opened Readback
  import opened RegisterLists
  import opened DiagnosticSessions
  import opened SessionSteps
  import Runs
  import Timing

  /** Two thousand milliseconds from now are not over now. */
  lemma DeadlineAhead(now: uint64)
    ensures !DueOrPast(now, Plus(now, JOB_DEADLINE_MS))
  {
    var later := Plus(now, JOB_DEADLINE_MS);
    if now + JOB_DEADLINE_MS < TWO_TO_THE_64 {
      assert later == now + JOB_DEADLINE_MS;
      assert WrappedDifference(now, later) == TWO_TO_THE_64 - JOB_DEADLINE_MS;
    } else {
      assert later == now + JOB_DEADLINE_MS - TWO_TO_THE_64;
      assert WrappedDifference(now, later) == TWO_TO_THE_64 - JOB_DEADLINE_MS;
    }
  }

  class Cli {
    var device: System
    var pending: PendingOperation
    var session: Session
    var promptDeferred: bool
    var nextOperationId: uint64
    var bus: BusInfo
    const script: Script
    /** Discovery reads bypass the driver; they are callbacks too. */
    ghost var discoveryReads: nat
    /** Items of the running session, judged where they happen. */
    ghost var tally: Tally
    ghost var reports: seq<Report>
    /** Asynchronous commands accepted, and prompts that ended their work. */
    ghost var accepted: nat
    ghost var answered: nat

    ghost predicate Valid()
      reads this`device, this`pending, this`session, this`bus, this`nextOperationId, this`tally, this`reports
    {
      && Consistent(device, pending, session, bus) && nextOperationId > 0
      && (session.kind != NO_SESSION_KIND ==> Tallied(session.kind, session.stats, tally))
      && forall r :: r in reports ==> ReportOk(r)
    }

    predicate AsynchronousWorkActive()
      reads this
    {
      pending.owner != NO_OWNER || session.kind != NO_SESSION_KIND || device.driver.job.Some?
    }

    /** Transport callbacks made so far. */
    ghost function Callbacks(): nat
      reads this`device, this`discoveryReads
    {
      |device.seen.log| + discoveryReads
    }

    ghost function Now(): Moment
      reads this
    {
      Moment(device, pending, session, tally, bus, reports, nextOperationId)
    }

    constructor (start: System, bus: BusInfo, script: Script)
      requires Initial(start)
      ensures Valid() && Prompted() && !AsynchronousWorkActive() && reports == []
      ensures this.script == script
      ensures Now() == Moment(start, NO_PENDING, NO_SESSION, Tally(0, 0), bus, [], 1)
    {
      hide Initial, Trusted;
      device, pending, session, promptDeferred, nextOperationId := start, NO_PENDING, NO_SESSION, false, 1;
      this.bus, this.script := bus, script;
      discoveryReads, tally, reports, accepted, answered := 0, Tally(0, 0), [], 0, 0;
      new;
      Runs.InitialTrusted(start);
      InitialQuiet(start);
    }

    /** Between calls a prompt is owed exactly while work is active, every
        accepted command but the active one has had its one prompt, and the
        only results left to drain are those of a cancel. */
    ghost predicate Prompted()
      reads this
    {
      && (promptDeferred <==> AsynchronousWorkActive())
      && accepted == answered + (if promptDeferred then 1 else 0)
      && Drained()
    }

    ghost predicate Drained()
      reads this
    {
      device.driver.job.None? && device.driver.queue != [] ==> device.driver.queue[0].outcome == CANCELLED
    }

    // ----- what a step can do, in the terms of the moment before it ----------

    /** What is pending has only just begun. */
    ghost predicate Underway()
      reads this
    {
      pending.owner != NO_OWNER ==> device.driver.job.Some?
    }

    method NextOperationId() returns (id: uint64)
      requires nextOperationId > 0
      modifies this`nextOperationId
      ensures id == old(nextOperationId) && nextOperationId == NextId(id) && nextOperationId > 0
    {
      id := nextOperationId;
      nextOperationId := (nextOperationId + 1) % TWO_TO_THE_64;
      if nextOperationId == 0 {
        nextOperationId := 1;
      }
    }

    // ----- sessions end -----------------------------------------------------

    method FinishSession(outcome: SessionOutcome)
      requires Valid() && pending.owner == NO_OWNER && session.kind != NO_SESSION_KIND
      requires outcome != SESSION_CANCELLED ==> ReportOk(ReportOf(session, outcome, bus, device.driver, tally))
      modifies this`session, this`reports
      ensures Valid() && Ends(old(reports), Now(), old(session), outcome, tally)
    {
      hide Trusted, Live, Quiet, WalkInv;
      reports := reports + [ReportOf(session, outcome, bus, device.driver, tally)];
      session := NO_SESSION;
    }

    /** End a session whose running invariant the last failure has broken but
        whose counters still balance. */
    method FinishFailing()
      requires Trusted(device) && Quiet(device.driver) && pending.owner == NO_OWNER && session.kind != NO_SESSION_KIND
      requires nextOperationId > 0 && StatsBalance(session.kind, session.stats)
      requires ReportTallied(ReportOf(session, SESSION_FAILED, bus, device.driver, tally))
      requires forall r :: r in reports ==> ReportOk(r)
      modifies this`session, this`reports
      ensures Valid() && Ends(old(reports), Now(), old(session), SESSION_FAILED, tally)
    {
      hide Trusted, Live, Quiet, WalkInv;
      reports := reports + [ReportOf(session, SESSION_FAILED, bus, device.driver, tally)];
      session := NO_SESSION;
    }

    // ----- admissions -------------------------------------------------------

    /** A job command asks the driver for exactly its job. */
    method ScheduleCommandJob(kind: JobKind, channels: ChannelMask, deadlineMs: nat, world: World) returns (status: Err)
      requires Valid() && kind != NO_JOB
      modifies this`device, this`pending, this`promptDeferred, this`nextOperationId
      ensures Valid() && Callbacks() == old(Callbacks())
      ensures old(AsynchronousWorkActive()) ==> status == BUSY && Now() == old(Now())
      ensures !old(AsynchronousWorkActive()) ==>
        && (device, status) == Start(old(device), kind, channels, old(nextOperationId),
                                     (world.now + deadlineMs) % TWO_TO_THE_64)
        && nextOperationId == NextId(old(nextOperationId))
      ensures status == IN_PROGRESS ==>
        promptDeferred && pending == PendingOperation(COMMAND, old(nextOperationId), kind) && device.driver.job.Some?
      ensures status != IN_PROGRESS ==>
        promptDeferred == old(promptDeferred) && pending == old(pending) && device == old(device)
    {
      hide Trusted, Start;
      if AsynchronousWorkActive() {
        return BUSY;
      }
      var operation := NextOperationId();
      StartLive(device, kind, channels, operation, Plus(world.now, deadlineMs));
      var (after, answer) := Start(device, kind, channels, operation, Plus(world.now, deadlineMs));
      device, status := after, answer;
      if status == IN_PROGRESS {
        pending := PendingOperation(COMMAND, operation, kind);
        promptDeferred := true;
      }
    }

    /** Admit the job a session waits for next; the session goes busy. */
    method ScheduleSessionJob(kind: JobKind, deadline: uint64) returns (status: Err)
      requires Valid() && pending.owner == NO_OWNER && session.kind != NO_SESSION_KIND
      requires kind == AwaitedJob(session.kind)
      requires SessionInv(session, true, PartOf(device.driver), bus)
      modifies this`device, this`pending, this`nextOperationId
      ensures Valid() && Callbacks() == old(Callbacks()) && PartOf(device.driver) == old(PartOf(device.driver))
      ensures Asks(old(Now()), Now(), old(device), kind, session.channels, deadline)
      ensures status == IN_PROGRESS <==> pending.owner != NO_OWNER
      ensures status == IN_PROGRESS ==>
        pending.owner == SESSION && device.driver.job.Some? && device.driver.applied == old(device.driver.applied)
      ensures status != IN_PROGRESS ==> pending == old(pending) && device == old(device)
    {
      hide Trusted, Start, SessionInv, Live;
      var operation := NextOperationId();
      StartLive(device, kind, session.channels, operation, deadline);
      var (after, answer) := Start(device, kind, session.channels, operation, deadline);
      device, status := after, answer;
      if status == IN_PROGRESS {
        pending := PendingOperation(SESSION, operation, kind);
      }
    }

    /** The acquisition of a sampling session or self test. */
    method ScheduleSessionAcquire(world: World) returns (status: Err)
      requires Valid() && pending.owner == NO_OWNER && session.kind != NO_SESSION_KIND
      requires AwaitedJob(session.kind) == ACQUIRE
      requires SessionInv(session, true, PartOf(device.driver), bus)
      modifies this`device, this`pending, this`nextOperationId, this`session
      ensures Valid() && Callbacks() == old(Callbacks()) && PartOf(device.driver) == old(PartOf(device.driver))
      ensures Asks(old(Now()), Now(), old(device), ACQUIRE, old(session.channels),
                   if old(session.kind) == SAMPLE_RATE then old(session.readyDeadlineMs)
                   else (world.now + 2000) % TWO_TO_THE_64)
      ensures status == IN_PROGRESS <==> pending.owner != NO_OWNER
      ensures status == IN_PROGRESS ==>
        pending.owner == SESSION && device.driver.job.Some? && session == old(session).(phase := WAIT_ACQUIRE)
      ensures status != IN_PROGRESS ==> pending == old(pending) && device == old(device) && session == old(session)
    {
      hide Valid, Asked, Callbacks, SessionInv;
      status := ScheduleSessionJob(
        ACQUIRE, if session.kind == SAMPLE_RATE then session.readyDeadlineMs else Plus(world.now, JOB_DEADLINE_MS));
      if status == IN_PROGRESS {
        AwaitAcquire();
      }
    }

    method AwaitAcquire()
      requires Valid() && pending.owner == SESSION && AwaitedJob(session.kind) == ACQUIRE
      modifies this`session
      ensures Valid() && session == old(session).(phase := WAIT_ACQUIRE)
    {
      hide Trusted, Live, Quiet, SessionInv, ReportOk;
      AcquiringPhase(session, PartOf(device.driver), bus);
      session := session.(phase := WAIT_ACQUIRE);
    }

    // ----- results ----------------------------------------------------------

    /** A busy session whose result has just been taken. */
    ghost predicate Awaiting()
      reads this
    {
      && Trusted(device) && Quiet(device.driver) && nextOperationId > 0
      && SessionInv(session, true, PartOf(device.driver), bus) && Tallied(session.kind, session.stats, tally)
      && forall r :: r in reports ==> ReportOk(r)
    }

    /** Cancelled work ends its session at once; every other result counts. */
    method HandleSessionOperationResult(result: OperationResult, world: World)
      requires Awaiting() && pending.owner == SESSION && Owned(pending, session)
      requires result.kind == pending.kind && HonestSuccess(device.driver, result)
      modifies this`pending, this`session, this`reports, this`tally
      ensures Valid() && pending == NO_PENDING
      ensures ResultCounted(Now(), old(session), old(tally), old(reports), result, world)
    {
      hide Trusted, Live, Quiet, SessionInv, ReportOk, ReportOf, StatsBalance, Tallied, VerdictCounted, Ends;
      BusyKinds(session, PartOf(device.driver), bus);
      var terminalSuccess := result.outcome == SUCCESS && result.status == OK;
      var expectsSample := pending.kind == ACQUIRE;
      var success := terminalSuccess && (!expectsSample || result.sampleBatch.Some?);
      pending := NO_PENDING;
      if session.stopRequested || result.outcome == CANCELLED {
        NotBusy(session, PartOf(device.driver), bus);
        FinishSession(SESSION_CANCELLED);
      } else {
        CountResult(success, result.sampleBatch, world);
      }
    }

    method CountResult(success: bool, batch: Option<SampleBatch>, world: World)
      requires Awaiting() && pending == NO_PENDING && session.kind != NO_SESSION_KIND
      requires success && AwaitedJob(session.kind) == ACQUIRE ==> batch.Some?
      requires success && AwaitedJob(session.kind) != ACQUIRE ==> device.driver.applied == APPLIED_SLEEPING
      modifies this`session, this`reports, this`tally
      ensures Valid() && pending == NO_PENDING
      ensures VerdictCounted(Now(), old(session), old(tally), old(reports), success, batch, world)
    {
      hide Trusted, Live, Quiet, SessionInv, ReportOk, ReportOf, StatsBalance, Tallied, OneMore, Stale, Acceptable,
        Ends, ResetCounted, FrequencyCountedBy, SelfTestCounted, MixCounted, SampleRateCounted, SampleCounted;
      BusyKinds(session, PartOf(device.driver), bus);
      if session.kind == STRESS_RESET {
        HandleResetResult(success);
      } else if session.kind == STRESS_BUS_FREQ {
        HandleFrequencyResult(success);
      } else if session.kind == SELF_TEST {
        HandleSelfTestResult(success, success && batch.value.validChannels == batch.value.selectedChannels
                                      && batch.value.errorChannels == 0);
      } else if session.kind == STRESS_MIX {
        HandleMixResult(success);
      } else if session.kind == SAMPLE_RATE {
        HandleSampleRateResult(success, batch, world);
      } else {
        HandleSamplingResult(success, world);
      }
    }

    method HandleResetResult(success: bool)
      requires Awaiting() && pending == NO_PENDING && session.kind == STRESS_RESET
      modifies this`session, this`reports, this`tally
      ensures Valid() && ResetCounted(Now(), old(session), old(tally), old(reports), success)
    {
      hide Trusted, Live, Quiet, SessionInv, StatsBalance, ReportOk, ReportOf, ReportTallied, Tallied;
      ghost var before, part := session, PartOf(device.driver);
      BusyRoom(session, part, bus);
      TalliedMore(session, tally, success);
      session := session.(stats := session.stats.(completed := session.stats.completed + 1));
      tally := tally.More(success);
      if !success {
        session := session.(stats := session.stats.(failed := session.stats.failed + 1));
        FailureReports(before, old(tally), true, part, bus, device.driver);
        FinishFailing();
        return;
      }
      session := session.(stats := session.stats.(passed := session.stats.passed + 1), index := session.index + 1,
                          phase := STRESS_RESET_SCHEDULE);
      CountedBalances(before, session, true, part, bus);
    }

    method HandleFrequencyResult(success: bool)
      requires Awaiting() && pending == NO_PENDING && session.kind == STRESS_BUS_FREQ
      requires success ==> device.driver.applied == APPLIED_SLEEPING
      modifies this`session, this`reports, this`tally
      ensures Valid() && FrequencyCountedBy(Now(), old(session), old(tally), old(reports), success)
    {
      hide Trusted, Live, Quiet, SessionInv, ReportOk, ReportOf, StatsBalance;
      var part := PartOf(device.driver);
      NotBusy(session, part, bus);
      FrequencyPhase(session, true, part, bus);
      if session.phase == STRESS_BUS_FREQ_RESTORE {
        HandleRestoreResult(success);
        return;
      }
      FrequencyBalances(session, success, part, bus);
      tally := tally.More(success);
      session := FrequencyCounted(session, success);
    }

    /** The restore decides nothing but whether it worked. */
    method HandleRestoreResult(success: bool)
      requires Awaiting() && pending == NO_PENDING
      requires session.kind == STRESS_BUS_FREQ && session.phase == STRESS_BUS_FREQ_RESTORE
      requires success ==> device.driver.applied == APPLIED_SLEEPING
      modifies this`session, this`reports, this`tally
      ensures Valid()
      ensures if success then EndsByCount(old(reports), Now(), old(session), old(tally))
        else Ends(old(reports), Now(), old(session), SESSION_FAILED, old(tally).More(false))
    {
      hide Trusted, Live, Quiet, SessionInv, StatsBalance;
      NotBusy(session, PartOf(device.driver), bus);
      if !success {
        tally := tally.More(false);
        FinishFailing();
      } else if session.stats.failed == 0 {
        FrequencyReport(session, PartOf(device.driver), bus, device.driver, tally);
        FinishSession(SESSION_SUCCESS);
      } else {
        FinishSession(SESSION_FAILED);
      }
    }

    method HandleSelfTestResult(success: bool, healthy: bool)
      requires Awaiting() && pending == NO_PENDING && session.kind == SELF_TEST && (healthy ==> success)
      modifies this`session, this`reports, this`tally
      ensures Valid() && SelfTestCounted(Now(), old(session), old(tally), old(reports), success, healthy)
    {
      hide Valid, Awaiting, ReportOf, Ends;
      CountAcquired(success, healthy);
      FinishByCount();
    }

    method CountAcquired(success: bool, healthy: bool)
      requires Awaiting() && pending == NO_PENDING && session.kind == SELF_TEST && (healthy ==> success)
      modifies this`session, this`tally
      ensures Valid()
      ensures session == old(session).(stats := old(session.stats).(
        passed := old(session.stats.passed) + (if healthy then 2 else if success then 1 else 0),
        failed := old(session.stats.failed) + (if success then 0 else 1),
        skipped := old(session.stats.skipped) + (if healthy then 0 else 1)))
      ensures tally == if healthy then old(tally).More(true).More(true) else old(tally).More(success)
    {
      hide Trusted, Live, Quiet, SessionInv, StatsBalance, ReportOk, ReportOf, ReportTallied, Tallied;
      ghost var before := session;
      session := session.(stats := session.stats.(
        passed := session.stats.passed + (if !success then 0 else if healthy then 2 else 1),
        failed := session.stats.failed + (if success then 0 else 1),
        skipped := session.stats.skipped + (if healthy then 0 else 1)));
      tally := if healthy then tally.More(true).More(true) else tally.More(success);
      SelfTestAcquired(before, old(tally), success, healthy, session, tally, PartOf(device.driver), bus);
    }

    method HandleMixResult(success: bool)
      requires Awaiting() && pending == NO_PENDING && session.kind == STRESS_MIX
      modifies this`session, this`tally
      ensures Valid() && MixCounted(Now(), old(session), old(tally), old(reports), success)
    {
      hide Trusted, Live, Quiet, SessionInv, StatsBalance, ReportOk, ReportOf, ReportTallied, Tallied;
      ghost var before := session;
      var failed := session.iterationFailed || !success;
      session := session.(
        stats := session.stats.(completed := session.stats.completed + 1,
                                failed := session.stats.failed + (if failed then 1 else 0),
                                passed := session.stats.passed + (if failed then 0 else 1)),
        index := session.index + 1, iterationFailed := false, phase := MIX_STATUS);
      tally := tally.More(!failed);
      CountedBalances(before, session, !failed, PartOf(device.driver), bus);
      TalliedMore(before, old(tally), !failed);
    }

    /** Judge the batch of one sample on the session's channel. */
    method JudgeSample(b: SampleBatch, world: World) returns (stale: bool, accepted: bool)
      ensures var channel := if session.channel < MAX_CHANNELS then session.channel else 0;
        stale == Stale(b, channel) && accepted == Acceptable(b, channel, world)
    {
      hide Has;
      var channel := if session.channel < MAX_CHANNELS then session.channel else 0;
      var isFresh, isError := Has(b.freshChannels, channel), Has(b.errorChannels, channel);
      stale := !isFresh && !isError && !b.statusBefore.HasError() && !b.statusAfter.HasError();
      accepted := world.frequencyOk && Has(b.selectedChannels, channel) && Has(b.validChannels, channel) && isFresh
        && !isError && !Has(b.overrunChannels, channel) && world.withinBounds;
    }

    /** A stale but faultless batch only asks for another try. */
    method HandleSampleRateResult(success: bool, batch: Option<SampleBatch>, world: World)
      requires Awaiting() && pending == NO_PENDING && session.kind == SAMPLE_RATE
      requires success ==> batch.Some?
      modifies this`session, this`reports, this`tally
      ensures Valid() && SampleRateCounted(Now(), old(session), old(tally), old(reports), success, batch, world)
    {
      hide Trusted, Live, Quiet, SessionInv, StatsBalance, ReportOk, ReportOf, ReportTallied, Tallied, Stale,
        Acceptable, OneMore;
      var accepted := success;
      if success {
        var stale;
        stale, accepted := JudgeSample(batch.value, world);
        if stale {
          RetryBalances(session, PartOf(device.driver), bus);
          session := session.(phase := SAMPLE_READY);
          return;
        }
      }
      CountSampleRate(accepted, world);
    }

    method CountSampleRate(accepted: bool, world: World)
      requires Awaiting() && pending == NO_PENDING && session.kind == SAMPLE_RATE
      modifies this`session, this`reports, this`tally
      ensures Valid()
      ensures if accepted then
          && pending == NO_PENDING && reports == old(reports) && tally == old(tally).More(true)
          && session == OneMore(old(session), true).(index := old(session.index) + 1, phase := WAIT_INTERVAL,
                                                     nextDueMs := world.later)
        else
          Ends(old(reports), Now(), OneMore(old(session), false), SESSION_FAILED, old(tally).More(false))
    {
      hide Trusted, Live, Quiet, SessionInv, StatsBalance, ReportOk, ReportOf, ReportTallied, Tallied;
      ghost var before, part := session, PartOf(device.driver);
      BusyRoom(session, part, bus);
      TalliedMore(session, tally, accepted);
      session := session.(
        stats := session.stats.(completed := session.stats.completed + 1,
                                failed := session.stats.failed + (if accepted then 0 else 1),
                                passed := session.stats.passed + (if accepted then 1 else 0)),
        index := session.index + 1);
      tally := tally.More(accepted);
      if !accepted {
        FailureReports(before, old(tally), true, part, bus, device.driver);
        ReportCounts(OneMore(before, false), session, bus, device.driver, tally);
        FinishFailing();
        return;
      }
      session := session.(nextDueMs := world.later, phase := WAIT_INTERVAL);
      CountedBalances(before, session, true, part, bus);
    }

    method HandleSamplingResult(success: bool, world: World)
      requires Awaiting() && pending == NO_PENDING
      requires session.kind == WATCH || session.kind == STRESS || session.kind == SOAK
      modifies this`session, this`tally
      ensures Valid() && SampleCounted(Now(), old(session), old(tally), old(reports), success, world)
    {
      hide Trusted, Live, Quiet, SessionInv, StatsBalance, ReportOk, ReportOf, ReportTallied, Tallied;
      ghost var before := session;
      session := session.(
        stats := session.stats.(completed := session.stats.completed + 1,
                                failed := session.stats.failed + (if success then 0 else 1),
                                passed := session.stats.passed + (if success then 1 else 0)),
        index := session.index + 1, nextDueMs := Plus(world.later, session.periodMs), phase := WAIT_INTERVAL);
      tally := tally.More(success);
      CountedBalances(before, session, success, PartOf(device.driver), bus);
      TalliedMore(before, old(tally), success);
    }

    /** `drainResults`: with correlation kept, a drained result always matches
        and a pending operation without job or result does not exist. */
    method DrainResults(world: World)
      requires Valid()
      modifies this`device, this`pending, this`session, this`reports, this`tally
      ensures Valid() && (device.driver.job.None? ==> Quiet(device.driver) && pending.owner == NO_OWNER)
      ensures Callbacks() == old(Callbacks()) && device.driver.job == old(device.driver.job)
      ensures if old(device.driver.queue) == [] then Now() == old(Now()) else ResultDelivered(old(Now()), Now(), world)
    {
      hide Trusted, SessionInv, ReportOk, Tallied, ResultCounted, StatsBalance;
      if device.driver.queue != [] {
        TakeOnly(device);
        var (after, taken) := TakeResult(device);
        var result := taken.value;
        device := after;
        if pending.owner == NO_OWNER || result.operationId != pending.id || result.kind != pending.kind {
          assert false;
        } else if pending.owner == SESSION {
          HandleSessionOperationResult(result, world);
        } else {
          pending := NO_PENDING;
        }
      }
      if pending.owner != NO_OWNER && device.driver.job.None? && device.driver.queue == [] {
        assert false;
      }
    }

    // ----- direct reads of a session ----------------------------------------

    method ReadDevice(register: uint8) returns (status: Err, value: bv16)
      requires Trusted(device) && Quiet(device.driver)
      modifies this`device
      ensures (device, status, value) == Engine.ReadRegister16(script, old(device), register)
      ensures Trusted(device) && Quiet(device.driver) && device.driver == old(device.driver)
      ensures Callbacks() <= old(Callbacks()) + 1
    {
      hide Trusted, Quiet, Engine.ReadRegister16;
      ReadQuiet(script, device, register);
      var (after, answer, word) := Engine.ReadRegister16(script, device, register);
      device, status, value := after, answer, word;
    }

    /** `readDataReady`: refused unless bound with DRDY routed and awake; an
        INTB that is wired answers without a transfer unless asserted, and all
        else reads STATUS once. */
    method ReadDataReady(world: World) returns (status: Err)
      requires Trusted(device) && Quiet(device.driver)
      modifies this`device
      ensures (device, status) == ReadyObservation(script, old(device), world)
      ensures var d := device.driver;
        if !d.bound then device == old(device) && status == NOT_BOUND
        else if !d.config.errorReporting.dataReady then device == old(device) && status == INVALID_CONFIG
        else if d.applied != APPLIED_ACTIVE then device == old(device) && status == CONFIG_DIRTY
        else if world.intbConfigured && !d.config.intbDisabled && (world.intbStatus != OK || !world.intbAsserted) then
          device == old(device) && status == world.intbStatus
        else exists value :: (device, status, value) == Engine.ReadRegister16(script, old(device), 0x18)
      ensures Trusted(device) && Quiet(device.driver) && device.driver == old(device.driver)
      ensures Callbacks() <= old(Callbacks()) + 1
    {
      hide Trusted, Quiet, Engine.ReadRegister16;
      if !device.driver.bound {
        return NOT_BOUND;
      }
      if !device.driver.config.errorReporting.dataReady {
        return INVALID_CONFIG;
      }
      if device.driver.applied != APPLIED_ACTIVE {
        return CONFIG_DIRTY;
      }
      if world.intbConfigured && !device.driver.config.intbDisabled {
        if world.intbStatus != OK {
          return world.intbStatus;
        }
        if !world.intbAsserted {
          return OK;
        }
      }
      var value;
      status, value := ReadDevice(REG_STATUS);
    }

    /** `readInitDriveCurrent`: one read of the channel's DRIVE_CURRENT. */
    method ReadInitDriveCurrent(channel: nat) returns (status: Err)
      requires Trusted(device) && Quiet(device.driver)
      modifies this`device
      ensures (device, status) == InitDriveObservation(script, old(device), channel)
      ensures if !device.driver.bound then device == old(device) && status == NOT_BOUND
        else if channel >= ChannelCountFor(device.driver.config.variant) then
          device == old(device) && status == INVALID_PARAM
        else exists value :: (device, status, value) == Engine.ReadRegister16(script, old(device), 0x1E + channel)
      ensures Trusted(device) && Quiet(device.driver) && device.driver == old(device.driver)
      ensures Callbacks() <= old(Callbacks()) + 1
    {
      hide Trusted, Quiet, Engine.ReadRegister16;
      if !device.driver.bound {
        return NOT_BOUND;
      }
      if channel >= ChannelCountFor(device.driver.config.variant) {
        return INVALID_PARAM;
      }
      var value;
      status, value := ReadDevice(RegDriveCurrent(channel));
    }

    // ----- session machines -------------------------------------------------

    /** A running session between two of its steps. */
    ghost predicate Stepping(kind: SessionKind)
      reads this
    {
      Valid() && pending.owner == NO_OWNER && session.kind == kind
    }

    /** One more item, failed; the session ends. */
    method FailAndFinish()
      requires Valid() && pending.owner == NO_OWNER && HasRoom(session)
      requires IsSampling(session.kind) || IsCounted(session.kind)
      modifies this`session, this`reports, this`tally
      ensures Valid() && Ends(old(reports), Now(), OneMore(old(session), false), SESSION_FAILED, old(tally).More(false))
      ensures tally == old(tally).More(false)
    {
      hide Trusted, Live, Quiet, SessionInv, StatsBalance, ReportOk, ReportOf, ReportTallied, Tallied;
      FailureReports(session, tally, false, PartOf(device.driver), bus, device.driver);
      session := OneMoreFailed(session);
      tally := tally.More(false);
      FinishFailing();
    }

    /** The usual end: SUCCESS exactly when nothing failed. */
    method FinishByCount()
      requires Valid() && pending.owner == NO_OWNER && session.kind != NO_SESSION_KIND
      requires session.kind != STRESS_BUS_FREQ && session.kind != DISCOVER && !IsWalk(session.kind)
      requires IsCounted(session.kind) ==> session.stats.completed >= session.stats.requested
      modifies this`session, this`reports
      ensures Valid() && EndsByCount(old(reports), Now(), old(session), tally)
    {
      hide Trusted, Live, Quiet, WalkInv;
      if session.stats.failed == 0 {
        FinishSession(SESSION_SUCCESS);
      } else {
        FinishSession(SESSION_FAILED);
      }
    }

    method AdvanceSamplingSession(world: World)
      requires Stepping(session.kind) && IsSampling(session.kind) && session.kind != STRESS_MIX
      modifies this`device, this`pending, this`session, this`nextOperationId, this`reports, this`tally
      ensures Valid() && Underway() && Callbacks() == old(Callbacks())
      ensures SamplingStepped(old(Now()), Now(), world)
    {
      hide Valid, ReportOf, SampledWhenDue, Ends, EndsByCount;
      if session.stopRequested {
        FinishSession(SESSION_CANCELLED);
      } else {
        SampleUnlessOver(world);
      }
    }

    /** A soak ends after its seconds, the others after their samples. */
    method SamplingOver(now: uint64) returns (over: bool)
      ensures over == IsOver(session, now) && (!over ==> HasRoom(session))
      ensures over == if session.kind == SOAK then
          (now - session.stats.startedMs) % TWO_TO_THE_64 >= session.count * 1000
        else session.stats.completed >= session.stats.requested
    {
      over := if session.kind == SOAK
        then WrappedDifference(now, session.stats.startedMs) >= session.count * 1000
        else session.stats.completed >= session.stats.requested;
    }

    method SampleUnlessOver(world: World)
      requires Stepping(session.kind) && IsSampling(session.kind) && session.kind != STRESS_MIX
      requires !session.stopRequested
      modifies this`device, this`pending, this`session, this`nextOperationId, this`reports, this`tally
      ensures Valid() && Underway() && Callbacks() == old(Callbacks())
      ensures SamplingStepped(old(Now()), Now(), world)
    {
      hide Valid, ReportOf, SampledWhenDue, Ends, EndsByCount, IsOver, HasRoom, Callbacks;
      var over := SamplingOver(world.now);
      if over {
        FinishByCount();
      } else {
        SampleWhenDue(world);
      }
    }

    method SampleWhenDue(world: World)
      requires Stepping(session.kind) && IsSampling(session.kind) && session.kind != STRESS_MIX
      requires HasRoom(session)
      modifies this`device, this`pending, this`session, this`nextOperationId, this`reports, this`tally
      ensures Valid() && Underway() && Callbacks() == old(Callbacks())
      ensures SampledWhenDue(old(Now()), Now(), world)
    {
      hide Valid, Asked, Callbacks, DueOrPast, Acquires, Ends, ReportOf, HasRoom, OneMore;
      if session.kind == SAMPLE_RATE {
        SampleRateWhenDue(world);
      } else if session.phase == WAIT_INTERVAL && DeadlineReached(world.now, session.nextDueMs) {
        AcquireOrFail(Plus(world.now, JOB_DEADLINE_MS), world);
      }
    }

    method SampleRateWhenDue(world: World)
      requires Stepping(SAMPLE_RATE) && HasRoom(session)
      modifies this`device, this`pending, this`session, this`nextOperationId, this`reports, this`tally
      ensures Valid() && Underway() && Callbacks() == old(Callbacks())
      ensures SampledWhenDue(old(Now()), Now(), world)
    {
      hide Valid, Asked, Callbacks, DueOrPast, Acquires, Ends, ReportOf, OneMore, HasRoom;
      if session.phase == WAIT_INTERVAL && DeadlineReached(world.now, session.nextDueMs) {
        ghost var m, deadlineMs := Now(), Plus(world.now, JOB_DEADLINE_MS);
        DeadlineAhead(world.now);
        StartReadiness(Plus(world.now, JOB_DEADLINE_MS));
        ghost var ready := Now();
        AcquireOrFail(deadlineMs, world);
        AcquiresOpened(m, ready, Now(), deadlineMs);
      } else if session.phase == SAMPLE_READY {
        if DeadlineReached(world.now, session.readyDeadlineMs) {
          FailAndFinish();
        } else {
          AcquireOrFail(session.readyDeadlineMs, world);
        }
      }
    }

    /** The readiness window of a sample-rate iteration opens. */
    method StartReadiness(deadlineMs: uint64)
      requires Stepping(SAMPLE_RATE)
      modifies this`session
      ensures Stepping(SAMPLE_RATE)
      ensures session == old(session).(phase := SAMPLE_READY, readyDeadlineMs := deadlineMs)
      ensures old(HasRoom(session)) ==> HasRoom(session)
    {
      hide Trusted, Live, Quiet, WalkInv;
      session := session.(phase := SAMPLE_READY, readyDeadlineMs := deadlineMs);
    }

    lemma AcquirePermitted()
      requires Valid() && pending.owner == NO_OWNER && IsSampling(session.kind) && HasRoom(session)
      ensures SessionInv(session, true, PartOf(device.driver), bus) && AwaitedJob(session.kind) == ACQUIRE
      ensures session.kind != NO_SESSION_KIND
    {
      hide SessionInv, Trusted;
      AcquireBalances(session, PartOf(device.driver), bus);
    }

    method AcquireOrFail(ghost deadlineMs: uint64, world: World)
      requires Valid() && pending.owner == NO_OWNER && IsSampling(session.kind) && session.kind != STRESS_MIX
      requires HasRoom(session)
      requires deadlineMs ==
        if session.kind == SAMPLE_RATE then session.readyDeadlineMs else (world.now + 2000) % TWO_TO_THE_64
      modifies this`device, this`pending, this`session, this`nextOperationId, this`reports, this`tally
      ensures Valid() && Underway() && Callbacks() == old(Callbacks())
      ensures Acquires(old(Now()), Now(), old(session), deadlineMs)
    {
      hide Valid, ReportOf, OneMore, IsSampling, IsCounted, Asked, Callbacks, Ends, HasRoom, SessionInv, PartOf,
        AwaitedJob;
      AcquirePermitted();
      var status := ScheduleSessionAcquire(world);
      if status != IN_PROGRESS {
        FailAndFinish();
      }
    }

    method AdvanceMixedSession(world: World)
      requires Stepping(STRESS_MIX)
      modifies this`device, this`pending, this`session, this`nextOperationId, this`reports, this`tally
      ensures Valid() && Underway() && Callbacks() <= old(Callbacks()) + 1
      ensures MixedStepped(script, old(Now()), Now(), world)
    {
      hide Valid, ReportOf, Ends, EndsByCount, MixedAcquires, Goes, Callbacks;
      if session.stopRequested {
        FinishSession(SESSION_CANCELLED);
      } else if session.stats.completed >= session.stats.requested {
        FinishByCount();
      } else if session.phase == MIX_ACQUIRE {
        MixAcquire(world);
      } else {
        MixObserve(world);
      }
    }

    method MixAcquire(world: World)
      requires Stepping(STRESS_MIX) && session.stats.completed < session.stats.requested
      modifies this`device, this`pending, this`session, this`nextOperationId, this`tally
      ensures Valid() && Underway() && Callbacks() == old(Callbacks())
      ensures MixedAcquires(old(Now()), Now(), world)
    {
      hide Valid, Asked, Callbacks, OneMore, Goes;
      AcquirePermitted();
      var status := ScheduleSessionAcquire(world);
      if status != IN_PROGRESS {
        FailMixed();
      }
    }

    /** A refused acquisition fails its iteration; the next one starts. */
    method FailMixed()
      requires Stepping(STRESS_MIX) && session.stats.completed < session.stats.requested
      modifies this`session, this`tally
      ensures Valid() && pending.owner == NO_OWNER
      ensures Goes(old(reports), Now(), OneMore(old(session), false).(
        iterationFailed := false, index := old(session.index) + 1, phase := MIX_STATUS), old(tally).More(false))
    {
      hide Trusted, Live, Quiet, SessionInv, StatsBalance, ReportOk, Tallied, OneMore, MixFailed;
      MixFailedBalances(session, PartOf(device.driver), bus);
      MixFailedCounts(session, tally);
      session := MixFailed(session);
      tally := tally.More(false);
    }

    /** One observation of the idle device, as the phase says. */
    method MixObserve(world: World)
      requires Stepping(STRESS_MIX) && !session.stopRequested && session.stats.completed < session.stats.requested
      requires session.phase != MIX_ACQUIRE
      modifies this`device, this`session
      ensures Valid() && Underway() && Callbacks() <= old(Callbacks()) + 1
      ensures MixedStepped(script, old(Now()), Now(), world)
    {
      hide Trusted, Live, Quiet, SessionInv, StatsBalance, ReportOk, Tallied, Ends, EndsByCount, MixedAcquires,
        Observed, Callbacks, Mixed, NextObservation;
      var status := Observe(world);
      MixedBalances(session, status, PartOf(device.driver), bus);
      MixedTallies(session, status, tally);
      MixedMoves(session, status);
      session := Mixed(session, status);
    }

    lemma MixedMoves(s: Session, status: Err)
      ensures var skipped := s.phase == MIX_INTB && status == INVALID_CONFIG;
        Mixed(s, status) == s.(stats := s.stats.(skipped := s.stats.skipped + (if skipped then 1 else 0)),
                               iterationFailed := s.iterationFailed || (status != OK && !skipped),
                               phase := NextObservation(s.phase))
    {
    }

    method Observe(world: World) returns (status: Err)
      requires Trusted(device) && Quiet(device.driver)
      modifies this`device
      ensures (device, status) == Observed(script, old(device), world, session.phase, session.index)
      ensures Trusted(device) && Quiet(device.driver) && device.driver == old(device.driver)
      ensures Callbacks() <= old(Callbacks()) + 1
    {
      hide Trusted, Live, Quiet, Engine.ReadRegister16, ReadyObservation, InitDriveObservation;
      status := OK;
      if session.phase == MIX_STATUS {
        var value;
        status, value := ReadDevice(REG_STATUS);
      } else if session.phase == MIX_READY {
        status := ReadDataReady(world);
      } else if session.phase == MIX_INTB {
        status := IntbObservation(device.driver, world);
      } else if session.phase == MIX_INIT_DRIVE {
        var channelCount := ChannelCountFor(device.driver.config.variant);
        status := ReadInitDriveCurrent(if channelCount == 0 then 0 else session.index % channelCount);
      }
    }

    method AdvanceProbeSession()
      requires Stepping(PROBE)
      modifies this`device, this`session, this`reports, this`tally
      ensures Valid() && Underway() && Callbacks() <= old(Callbacks()) + 1
      ensures ProbeStepped(script, old(Now()), Now())
    {
      hide Trusted, Live, Quiet, SessionInv, StatsBalance, ReportOk, Tallied, Engine.ReadRegister16, Ends, ReportOf,
        Goes;
      if session.phase == PROBE_MANUFACTURER {
        var status, value := ReadDevice(REG_MANUFACTURER_ID);
        if status != OK {
          FinishProbe(false, session.stats.completed);
        } else {
          KeepManufacturer(value);
        }
      } else if session.phase == PROBE_DEVICE {
        var status, value := ReadDevice(REG_DEVICE_ID);
        if status == OK && (session.manufacturerId != MANUFACTURER_ID_VALUE || value != DEVICE_ID_VALUE) {
          status := DEVICE_NOT_FOUND;
        }
        FinishProbe(status == OK, 2);
      }
    }

    method KeepManufacturer(value: bv16)
      requires Stepping(PROBE)
      modifies this`session
      ensures Valid() && pending.owner == NO_OWNER
      ensures Goes(old(reports), Now(), old(session).(manufacturerId := value, phase := PROBE_DEVICE), tally)
    {
      hide Trusted, Live, Quiet, WalkInv;
      session := session.(manufacturerId := value, phase := PROBE_DEVICE);
    }

    method FinishProbe(passed: bool, completed: nat)
      requires Stepping(PROBE)
      modifies this`session, this`reports, this`tally
      ensures Valid() && pending.owner == NO_OWNER && tally == old(tally).More(passed)
      ensures Ends(old(reports), Now(), old(session).(stats := old(session.stats).(
        completed := completed, passed := old(session.stats.passed) + (if passed then 1 else 0),
        failed := old(session.stats.failed) + (if passed then 0 else 1))),
        if passed then SESSION_SUCCESS else SESSION_FAILED, tally)
    {
      hide Trusted, Live, Quiet, SessionInv, StatsBalance, ReportOk;
      ProbeReports(session, tally, passed, completed, PartOf(device.driver), bus, device.driver);
      session := session.(stats := session.stats.(
        completed := completed, passed := session.stats.passed + (if passed then 1 else 0),
        failed := session.stats.failed + (if passed then 0 else 1)));
      tally := tally.More(passed);
      if passed {
        FinishSession(SESSION_SUCCESS);
      } else {
        FinishFailing();
      }
    }

    method AdvanceDiscoverSession(world: World)
      requires Stepping(DISCOVER)
      modifies this`session, this`reports, this`discoveryReads
      ensures Valid() && Underway() && DiscoverStepped(old(Now()), Now(), world)
      ensures discoveryReads
        == old(discoveryReads) + (if !old(session.stopRequested) && world.canDiscover then 1 else 0)
      ensures Callbacks() <= old(Callbacks()) + 1
    {
      hide Valid, ReportOf, Ends, Goes;
      if session.stopRequested {
        FinishSession(SESSION_CANCELLED);
      } else if !world.canDiscover {
        FinishDiscovery(SESSION_FAILED);
      } else {
        discoveryReads := discoveryReads + 1;
        Discover(world.discoverStatus == OK, world.discoverValue);
      }
    }

    method Discover(answered: bool, word: bv16)
      requires Stepping(DISCOVER)
      modifies this`session, this`reports
      ensures Valid() && pending.owner == NO_OWNER
      ensures Discovers(old(Now()), Now(), answered, word)
    {
      hide Valid, ReportOf, Ends;
      if session.phase == DISCOVER_MANUFACTURER && answered {
        CountDiscovery(word, session.discoveryMatched, session.discoveryAddress, DISCOVER_DEVICE);
        return;
      }
      var match_ := session.phase != DISCOVER_MANUFACTURER && answered
        && session.manufacturerId == MANUFACTURER_ID_VALUE && word == DEVICE_ID_VALUE;
      var matched := session.discoveryMatched + (if match_ then 1 else 0);
      if session.discoveryAddress == LAST_LDC_ADDRESS {
        CountDiscovery(session.manufacturerId, matched, session.discoveryAddress, session.phase);
        FinishDiscovery(if matched != 0 then SESSION_SUCCESS else SESSION_FAILED);
      } else {
        CountDiscovery(if session.phase == DISCOVER_MANUFACTURER then session.manufacturerId else 0, matched,
                       LAST_LDC_ADDRESS, DISCOVER_MANUFACTURER);
      }
    }

    method CountDiscovery(manufacturerId: bv16, matched: nat, address: uint8, phase: SessionPhase)
      requires Stepping(DISCOVER)
      modifies this`session
      ensures Stepping(DISCOVER)
      ensures session == old(session).(
        stats := old(session.stats).(completed := old(session.stats.completed) + 1),
        manufacturerId := manufacturerId, discoveryMatched := matched, discoveryAddress := address, phase := phase)
    {
      hide Trusted, Live, Quiet, WalkInv;
      session := session.(
        stats := session.stats.(completed := session.stats.completed + 1),
        manufacturerId := manufacturerId, discoveryMatched := matched, discoveryAddress := address, phase := phase);
    }

    method FinishDiscovery(outcome: SessionOutcome)
      requires Stepping(DISCOVER) && (outcome == SESSION_SUCCESS ==> session.discoveryMatched > 0)
      modifies this`session, this`reports
      ensures Valid() && pending.owner == NO_OWNER && Ends(old(reports), Now(), old(session), outcome, tally)
    {
      hide Trusted, Live, Quiet, WalkInv;
      FinishSession(outcome);
    }

    method ReadIdentity(register: uint8, expected: bv16) returns (right: bool)
      requires Stepping(session.kind)
      modifies this`device
      ensures right == Identifies(script, old(device), register, expected)
      ensures device == Engine.ReadRegister16(script, old(device), register).0
      ensures Stepping(session.kind) && device.driver == old(device.driver) && Callbacks() <= old(Callbacks()) + 1
    {
      hide Valid, Callbacks, Engine.ReadRegister16;
      var status, value := SessionRead(register);
      right := status == OK && value == expected;
    }

    method AdvanceIdentityStressSession()
      requires Stepping(STRESS_ID)
      modifies this`device, this`session, this`reports, this`tally
      ensures Valid() && Underway() && Callbacks() <= old(Callbacks()) + 1
      ensures IdentityStepped(script, old(Now()), Now())
    {
      hide Trusted, Live, Quiet, SessionInv, ReportOk, ReportOf, StatsBalance, Tallied, Ends, OneMore, Identifies, Goes,
        Callbacks;
      IdentityRoom(session, PartOf(device.driver), bus);
      if session.index >= session.count {
        FinishByCount();
      } else {
        CheckIdentity();
      }
    }

    method CheckIdentity()
      requires Stepping(STRESS_ID) && session.index < session.count && HasRoom(session)
      modifies this`device, this`session, this`reports, this`tally
      ensures Valid() && pending.owner == NO_OWNER && Callbacks() <= old(Callbacks()) + 1
      ensures IdentityStepped(script, old(Now()), Now())
    {
      hide Valid, Engine.ReadRegister16, ReportOf, Ends, EndsByCount, OneMore, Identifies, Goes, Callbacks, HasRoom;
      var manufacturer := session.phase == STRESS_ID_MANUFACTURER;
      var right := ReadIdentity(if manufacturer then REG_MANUFACTURER_ID else REG_DEVICE_ID,
                                if manufacturer then MANUFACTURER_ID_VALUE else DEVICE_ID_VALUE);
      if !right {
        FailAndFinish();
      } else if manufacturer {
        IdentityMoves();
      } else {
        CountIdentityPass();
      }
    }

    method IdentityMoves()
      requires Stepping(STRESS_ID)
      modifies this`session
      ensures Valid() && pending.owner == NO_OWNER
      ensures Goes(old(reports), Now(), old(session).(phase := STRESS_ID_DEVICE), tally)
    {
      hide Trusted, Live, Quiet, WalkInv;
      session := session.(phase := STRESS_ID_DEVICE);
    }

    method CountIdentityPass()
      requires Stepping(STRESS_ID) && session.index < session.count
      modifies this`session, this`tally
      ensures Valid() && pending.owner == NO_OWNER
      ensures Goes(old(reports), Now(), OneMore(old(session), true).(index := old(session.index) + 1,
                                                                     phase := STRESS_ID_MANUFACTURER),
                   old(tally).More(true))
    {
      hide Trusted, Live, Quiet, WalkInv;
      session := session.(
        stats := session.stats.(completed := session.stats.completed + 1, passed := session.stats.passed + 1),
        index := session.index + 1, phase := STRESS_ID_MANUFACTURER);
      tally := tally.More(true);
    }

    method AdvanceResetStressSession(world: World)
      requires Stepping(STRESS_RESET)
      modifies this`device, this`pending, this`session, this`nextOperationId, this`reports, this`tally
      ensures Valid() && Underway() && Callbacks() == old(Callbacks())
      ensures ResetStepped(old(Now()), Now(), world)
    {
      hide Trusted, Live, Quiet, SessionInv, ReportOk, ReportOf, StatsBalance, Tallied, Ends, OneMore, Asked, Callbacks;
      if session.index >= session.count {
        ResetReports(session, tally, PartOf(device.driver), bus, device.driver);
        FinishSession(SESSION_SUCCESS);
        return;
      }
      ResetBalances(session, PartOf(device.driver), bus);
      var status := ScheduleSessionJob(RESET_AND_REAPPLY, Plus(world.now, JOB_DEADLINE_MS));
      if status != IN_PROGRESS {
        FailAndFinish();
      }
    }

    /** `i2cSetFrequency`, then `i2cBusInfo`: success is what the bus shows. */
    method SetFrequency(requestedHz: nat, world: World) returns (status: Err)
      modifies this`bus
      ensures bus == world.busAfter
      ensures status == OK <==> world.setStatus == OK && bus.isOpen && bus.frequencyHz == requestedHz
    {
      status := world.setStatus;
      bus := world.busAfter;
      if status == OK && (!bus.isOpen || bus.frequencyHz != requestedHz) {
        status := I2C_BUS;
      }
    }

    /** The owner voids trust after changing the bus under the device. */
    method InvalidateDevice()
      requires Valid() && pending.owner == NO_OWNER
      modifies this`device
      ensures Valid() && Callbacks() == old(Callbacks()) && PartOf(device.driver) == old(PartOf(device.driver))
      ensures old(JobInProgram(device.driver)) && device == Engine.Invalidate(old(device), CONFIG_DIRTY)
      ensures device.driver.job.None? && device.driver.applied == UNKNOWN
    {
      hide Trusted, Live, SessionInv, Engine.Invalidate;
      InvalidateQuiet(device, CONFIG_DIRTY);
      device := Engine.Invalidate(device, CONFIG_DIRTY);
    }

    method AdvanceBusFrequencyStressSession(world: World)
      requires Stepping(STRESS_BUS_FREQ)
      modifies this`device, this`pending, this`session, this`nextOperationId, this`reports, this`bus, this`tally
      ensures Valid() && Underway() && Callbacks() == old(Callbacks())
      ensures JobInProgram(old(device).driver) && FrequencyStepped(old(Now()), Now(), world)
      ensures pending.owner != NO_OWNER ==> pending.kind == INITIALIZE && device.driver.applied == UNKNOWN
    {
      hide Valid, ReportOf, Ends, OneMore, Initializes, Goes, StressFrequency, JobInProgram;
      QuietInProgram();
      if session.phase == STRESS_BUS_FREQ_RESTORE {
        RestoreFrequency(world);
      } else if session.index >= session.count {
        SkipToRestore();
      } else {
        SwitchFrequency(world);
      }
    }

    lemma QuietInProgram()
      requires Valid() && pending.owner == NO_OWNER
      ensures JobInProgram(device.driver) && Quiet(device.driver)
    {
      hide Trusted, SessionInv;
    }

    method SkipToRestore()
      requires Stepping(STRESS_BUS_FREQ) && session.index >= session.count
      modifies this`session
      ensures Valid() && Goes(old(reports), Now(), old(session).(phase := STRESS_BUS_FREQ_RESTORE), tally)
    {
      hide Trusted, Live, Quiet, WalkInv;
      session := session.(phase := STRESS_BUS_FREQ_RESTORE);
    }

    method SwitchFrequency(world: World)
      requires Stepping(STRESS_BUS_FREQ) && session.phase != STRESS_BUS_FREQ_RESTORE && session.index < session.count
      modifies this`device, this`pending, this`session, this`nextOperationId, this`bus, this`tally
      ensures Valid() && Underway() && Callbacks() == old(Callbacks())
      ensures JobInProgram(old(device).driver) && FrequencyStepped(old(Now()), Now(), world)
      ensures pending.owner != NO_OWNER ==> pending.kind == INITIALIZE && device.driver.applied == UNKNOWN
    {
      hide Trusted, Live, Quiet, SessionInv, ReportOk, ReportOf, Tallied, Ends, OneMore, Goes, JobInProgram, Asked,
        Callbacks;
      QuietInProgram();
      FrequencyPhase(session, false, PartOf(device.driver), bus);
      var firstHz := if session.initialFrequencyHz == STRESS_LOW_I2C_FREQUENCY_HZ
        then MAX_I2C_FREQUENCY_HZ else STRESS_LOW_I2C_FREQUENCY_HZ;
      var otherHz := if firstHz == STRESS_LOW_I2C_FREQUENCY_HZ
        then MAX_I2C_FREQUENCY_HZ else STRESS_LOW_I2C_FREQUENCY_HZ;
      var admitted := InitializeAt(if session.index % 2 == 0 then firstHz else otherHz, world);
      if !admitted {
        FailIteration();
      }
    }

    method RestoreFrequency(world: World)
      requires Stepping(STRESS_BUS_FREQ) && session.phase == STRESS_BUS_FREQ_RESTORE
      modifies this`device, this`pending, this`session, this`nextOperationId, this`reports, this`bus, this`tally
      ensures Valid() && Underway() && Callbacks() == old(Callbacks())
      ensures JobInProgram(old(device).driver) && FrequencyStepped(old(Now()), Now(), world)
      ensures pending.owner != NO_OWNER ==> pending.kind == INITIALIZE && device.driver.applied == UNKNOWN
    {
      hide Trusted, Live, Quiet, SessionInv, ReportOk, ReportOf, Tallied, Ends, OneMore, Goes, JobInProgram, Asked,
        Callbacks;
      QuietInProgram();
      var admitted := InitializeAt(session.initialFrequencyHz, world);
      if !admitted {
        FailRestore();
      }
    }

    /** Change the frequency, void trust and admit INITIALIZE, as far as it goes. */
    method InitializeAt(frequencyHz: nat, world: World) returns (admitted: bool)
      requires Stepping(STRESS_BUS_FREQ) && frequencyHz == StressFrequency(session)
      requires session.phase == STRESS_BUS_FREQ_SWITCH ==> session.index < session.count
      modifies this`device, this`pending, this`nextOperationId, this`bus
      ensures Valid() && Underway() && Callbacks() == old(Callbacks())
      ensures JobInProgram(old(device).driver) && Initializes(old(Now()), Now(), frequencyHz, world)
      ensures admitted <==> pending.owner != NO_OWNER
      ensures admitted ==>
        pending.owner == SESSION && pending.kind == INITIALIZE && device.driver.applied == UNKNOWN
      ensures !admitted ==> Stepping(STRESS_BUS_FREQ)
    {
      hide Trusted, Live, Quiet, SessionInv, Asked, Engine.Invalidate, JobInProgram, ReportOk, Tallied, Callbacks,
        StressFrequency, StatsBalance;
      QuietInProgram();
      FrequencyReady(session, PartOf(device.driver), bus, world.busAfter);
      var status := SetFrequency(frequencyHz, world);
      admitted := false;
      if status == OK {
        InvalidateDevice();
        status := ScheduleSessionJob(INITIALIZE, Plus(world.now, JOB_DEADLINE_MS));
        admitted := status == IN_PROGRESS;
      }
    }

    /** A failed switch is counted and the initial frequency restored next. */
    method FailIteration()
      requires Stepping(STRESS_BUS_FREQ) && session.phase == STRESS_BUS_FREQ_SWITCH && session.index < session.count
      modifies this`session, this`tally
      ensures Valid() && session == OneMore(old(session), false).(phase := STRESS_BUS_FREQ_RESTORE)
      ensures tally == old(tally).More(false)
    {
      hide Trusted, Live, Quiet, WalkInv;
      session := OneMoreFailed(session).(phase := STRESS_BUS_FREQ_RESTORE);
      tally := tally.More(false);
    }

    method FailRestore()
      requires Stepping(STRESS_BUS_FREQ)
      modifies this`session, this`reports, this`tally
      ensures Valid() && pending.owner == NO_OWNER
      ensures Ends(old(reports), Now(), old(session), SESSION_FAILED, old(tally).More(false))
    {
      hide Trusted, Live, Quiet, WalkInv;
      tally := tally.More(false);
      FinishFailing();
    }

    /** Each step reads the next register of the list the part has, once, and
        counts it; past the last one the walk reports. */
    method AdvanceDumpSession()
      requires Stepping(session.kind) && (session.kind == DUMP_CONFIG || session.kind == DUMP_ALL)
      modifies this`device, this`session, this`reports, this`tally
      ensures Valid() && Underway() && Callbacks() <= old(Callbacks()) + 1
      ensures old(session.registerIndex) <= |WalkList(old(session.kind))|
      ensures DumpStepped(script, old(Now()), Now())
    {
      hide Trusted, Live, Quiet, Available, AvailableBefore, NextAvailable, WalkList, Engine.ReadRegister16, SessionInv,
        StatsBalance, ReportOk, ReportOf, Tallied, Ends, Goes, OneMore, Callbacks;
      WalkShape(session, false, PartOf(device.driver), bus);
      var registers := WalkList(session.kind);
      var index := SkipUnavailable(registers);
      if index >= |registers| {
        FinishWalk(session.stats.failed == 0);
      } else {
        var status, value := ReadDevice(registers[index]);
        CountDumped(index, status == OK);
      }
    }

    method CountDumped(index: nat, read: bool)
      requires Stepping(session.kind) && (session.kind == DUMP_CONFIG || session.kind == DUMP_ALL)
      requires session.registerIndex <= |WalkList(session.kind)|
      requires index == NextOfWalk(session, device.driver.config.variant) < |WalkList(session.kind)|
      modifies this`session, this`tally
      ensures Valid() && pending.owner == NO_OWNER
      ensures Goes(old(reports), Now(), OneMore(old(session), read).(registerIndex := index + 1), old(tally).More(read))
    {
      hide Trusted, Live, Quiet, AvailableBefore, NextAvailable, WalkList, SessionInv, StatsBalance, ReportOk, Tallied;
      DumpedBalances(session, PartOf(device.driver), bus, read);
      TalliedMore(session, tally, read);
      session := Dumped(session, index, read);
      tally := tally.More(read);
    }

    method SkipUnavailable(registers: seq<uint8>) returns (index: nat)
      requires session.registerIndex <= |registers|
      ensures index == NextAvailable(device.driver.config.variant, registers, session.registerIndex)
    {
      hide IsLdc1614OnlyRegister;
      index := session.registerIndex;
      while index < |registers| && !Available(device.driver.config.variant, registers[index])
        invariant session.registerIndex <= index <= |registers|
        invariant NextAvailable(device.driver.config.variant, registers, index)
          == NextAvailable(device.driver.config.variant, registers, session.registerIndex)
        decreases |registers| - index
      {
        index := index + 1;
      }
    }

    /** The end of a walk: every register the part has was counted. */
    method FinishWalk(clean: bool)
      requires Stepping(session.kind) && IsWalk(session.kind) && PartOf(device.driver).Some?
      requires WalkInv(session, device.driver.config.variant)
      requires NextOfWalk(session, device.driver.config.variant) == |WalkList(session.kind)|
      requires clean <==> Unclean(session.kind, session.stats) == 0
      modifies this`session, this`reports
      ensures Valid() && pending.owner == NO_OWNER
      ensures Ends(old(reports), Now(), old(session), if clean then SESSION_SUCCESS else SESSION_FAILED, tally)
    {
      hide Trusted, Live, Quiet, AvailableBefore, NextAvailable;
      WalkAdvances(session, device.driver.config.variant);
      ConfigRegisterCount(device.driver.config.variant);
      FinishSession(if clean then SESSION_SUCCESS else SESSION_FAILED);
    }

    /** The next register the profile covers, with its expectation; a profile
        that is no profile has none. */
    method NextExpectation() returns (status: Err, index: nat, expected: bv16, mask: bv16)
      requires session.registerIndex <= |CONFIG_REGISTERS|
      ensures var config := device.driver.config;
        && (status == INVALID_CONFIG <==> session.registerIndex < |CONFIG_REGISTERS| && !Accepted(config))
        && (status == OK || status == INVALID_CONFIG || status == INVALID_PARAM)
        && (status == INVALID_PARAM && !Accepted(config) ==> session.registerIndex == |CONFIG_REGISTERS|)
        && (status == OK ==> Accepted(config))
        && (Accepted(config) ==>
             && index == NextAvailable(config.variant, CONFIG_REGISTERS, session.registerIndex)
             && (status == OK <==> index < |CONFIG_REGISTERS|)
             && (status == OK ==> Expects(config, CONFIG_REGISTERS[index], expected, mask)))
    {
      hide Accepted, InProfile, ConfigurationComparisonMask, WritesAt, Available, RegisterMatches;
      index := session.registerIndex;
      ghost var config := device.driver.config;
      while index < |CONFIG_REGISTERS|
        invariant session.registerIndex <= index <= |CONFIG_REGISTERS|
        invariant index > session.registerIndex ==> Accepted(config)
        invariant Accepted(config) ==>
          NextAvailable(config.variant, CONFIG_REGISTERS, index)
          == NextAvailable(config.variant, CONFIG_REGISTERS, session.registerIndex)
        decreases |CONFIG_REGISTERS| - index
      {
        status, expected, mask := ExpectedConfigurationRegister(device.driver.config, CONFIG_REGISTERS[index]);
        if Accepted(config) {
          ConfigRegistersAreProfile(config, CONFIG_REGISTERS[index]);
        }
        if status != INVALID_PARAM {
          if status == OK {
            ExpectationMeans(config, CONFIG_REGISTERS[index], expected);
          }
          return;
        }
        index := index + 1;
      }
      status, expected, mask := INVALID_PARAM, 0, 0;
    }

    /** Comparing a word with the expectation is comparing it with the replay. */
    ghost predicate Expects(config: Config, register: uint8, expected: bv16, mask: bv16) {
      forall word :: EqualUnder(mask, word, expected) <==> RegisterMatches(config, register, word)
    }

    /** Each step compares the next register of the profile with what the
        replay left in it; past the last one the walk reports, SUCCESS exactly
        if none differed and none was unreadable. */
    method AdvanceVerifySession()
      requires Stepping(VERIFY)
      modifies this`device, this`session, this`reports, this`tally
      ensures Valid() && Underway() && Callbacks() <= old(Callbacks()) + 1
      ensures old(session.registerIndex) <= |CONFIG_REGISTERS|
      ensures VerifyStepped(script, old(Now()), Now())
    {
      hide Live, Quiet, Available, AvailableBefore, NextAvailable, RegisterMatches, SessionInv, StatsBalance, ReportOk,
        ReportOf, Tallied, Ends, Goes, Callbacks, Expects, Accepted, QueueInv, JobInv, Holds, VerifyStepped;
      WalkShape(session, false, PartOf(device.driver), bus);
      var status, index, expected, mask := NextExpectation();
      if status == INVALID_CONFIG {
        assert false;
      } else if status == INVALID_PARAM {
        FinishVerify();
      } else {
        CompareRegister(index, expected, mask);
      }
    }

    method FinishVerify()
      requires Stepping(VERIFY) && PartOf(device.driver).Some? && WalkInv(session, device.driver.config.variant)
      requires NextOfWalk(session, device.driver.config.variant) == |CONFIG_REGISTERS|
      modifies this`session, this`reports
      ensures Valid() && pending.owner == NO_OWNER && VerifyStepped(script, old(Now()), Now())
    {
      hide Trusted, Live, Quiet, Available, AvailableBefore, NextAvailable, SessionInv, StatsBalance, ReportOk,
        ReportOf, Tallied, Ends;
      FinishWalk(session.stats.failed == 0 && session.stats.skipped == 0);
    }

    method CompareRegister(index: nat, expected: bv16, mask: bv16)
      requires Stepping(VERIFY) && session.registerIndex <= |CONFIG_REGISTERS|
      requires index == NextOfWalk(session, device.driver.config.variant) < |CONFIG_REGISTERS|
      requires Expects(device.driver.config, CONFIG_REGISTERS[index], expected, mask)
      modifies this`device, this`session, this`tally
      ensures Valid() && pending.owner == NO_OWNER && Callbacks() <= old(Callbacks()) + 1
      ensures VerifyStepped(script, old(Now()), Now())
    {
      hide Trusted, Live, Quiet, Available, AvailableBefore, NextAvailable, RegisterMatches, Engine.ReadRegister16,
        SessionInv, StatsBalance, ReportOk, ReportOf, Tallied, Ends, Goes, Callbacks;
      var read, actual := ReadDevice(CONFIG_REGISTERS[index]);
      CountVerified(index, read == OK, EqualUnder(mask, actual, expected));
    }

    method CountVerified(index: nat, read: bool, match_: bool)
      requires Stepping(VERIFY) && session.registerIndex <= |CONFIG_REGISTERS|
      requires index == NextOfWalk(session, device.driver.config.variant) < |CONFIG_REGISTERS|
      modifies this`session, this`tally
      ensures Valid() && pending.owner == NO_OWNER
      ensures Goes(old(reports), Now(), old(session).(registerIndex := index + 1, stats := old(session.stats).(
        completed := old(session.stats.completed) + 1,
        passed := old(session.stats.passed) + (if read && match_ then 1 else 0),
        failed := old(session.stats.failed) + (if read && !match_ then 1 else 0),
        skipped := old(session.stats.skipped) + (if read then 0 else 1))), old(tally).More(read && match_))
    {
      hide Trusted, Live, Quiet, AvailableBefore, NextAvailable, SessionInv, StatsBalance, ReportOk;
      VerifiedBalances(session, PartOf(device.driver), bus, read, match_);
      session := Verified(session, index, read, match_);
      tally := tally.More(read && match_);
    }

    // ----- self test --------------------------------------------------------

    /** Each step makes the check its phase names. */
    method AdvanceSelfTestSession(world: World)
      requires Stepping(SELF_TEST)
      modifies this`device, this`pending, this`session, this`nextOperationId, this`reports, this`tally
      ensures Valid() && Underway() && Callbacks() <= old(Callbacks()) + 1
      ensures old(session.registerIndex) <= |CONFIG_REGISTERS|
      ensures SelfTestStepped(script, old(Now()), Now(), world)
    {
      hide Valid, ReportOf, Callbacks, Ends, HelpersChecked, WordChecked, ReadyChecked, IntbChecked, DriveChecked,
        ProfileChecked, TransportChecked;
      SelfTestShape();
      if session.stopRequested {
        SelfTestStop(world);
      } else if session.phase == SELF_PURE {
        SelfTestPure();
      } else if session.phase == SELF_VERIFY {
        SelfTestVerify();
      } else if session.phase == SELF_ACQUIRE {
        SelfTestAcquire(world);
      } else {
        SelfTestReads(world);
      }
    }

    lemma SelfTestShape()
      requires Stepping(SELF_TEST)
      ensures SelfTestInv(session) && Tallied(SELF_TEST, session.stats, tally)
    {
      hide Trusted, Live, Quiet, SessionInv, StatsBalance, ReportOk;
      SelfTestFree(session, PartOf(device.driver), bus);
    }

    method SelfTestStop(world: World)
      requires Stepping(SELF_TEST) && SelfTestInv(session) && session.stopRequested
      modifies this`session, this`reports
      ensures Valid() && pending.owner == NO_OWNER && SelfTestStepped(script, old(Now()), Now(), world)
    {
      hide Valid, ReportOf, Ends;
      FinishSession(SESSION_CANCELLED);
    }

    /** The self test goes on as `next`. */
    method SelfTestGoes(next: Session, ghost t: Tally)
      requires Stepping(SELF_TEST) && next.kind == SELF_TEST && SelfTestInv(next)
      requires Tallied(SELF_TEST, next.stats, t)
      modifies this`session, this`tally
      ensures Stepping(SELF_TEST) && Goes(old(reports), Now(), next, t)
    {
      hide Trusted, Live, Quiet, SessionInv, StatsBalance, ReportOk, Tallied;
      SelfTestFree(next, PartOf(device.driver), bus);
      session := next;
      tally := t;
    }

    /** One check, with its verdict. */
    method SelfTestChecks(next: Session, well: bool)
      requires Stepping(SELF_TEST) && next.kind == SELF_TEST && SelfTestInv(next)
      requires next.stats.passed == session.stats.passed && next.stats.failed == session.stats.failed
      modifies this`session, this`tally
      ensures Stepping(SELF_TEST) && Goes(old(reports), Now(), Checked(next, well), old(tally).More(well))
    {
      hide Trusted, Live, Quiet, SessionInv, StatsBalance, ReportOk;
      SelfTestGoes(Check(next, well), tally.More(well));
    }

    /** The helpers that need no device. */
    method SelfTestPure()
      requires Stepping(SELF_TEST)
      modifies this`session, this`tally
      ensures Valid() && pending.owner == NO_OWNER && HelpersChecked(old(Now()), Now())
    {
      hide Valid, Goes;
      SelfTestShape();
      var good := CheckHelpers();
      SelfTestGoes(session.(stats := session.stats.(passed := session.stats.passed + good + 3,
                                                    failed := session.stats.failed + (2 - good)),
                            phase := SELF_MANUFACTURER), Tally(tally.good + good + 3, tally.bad + (2 - good)));
    }

    /** Validation and timing of the bound profile. */
    method CheckHelpers() returns (good: nat)
      requires Valid()
      ensures good == if device.driver.bound then 2 else 0
    {
      hide Live, Quiet, Accepted, SessionInv, StatsBalance, ReportOk, QueueInv, JobInv, Holds;
      var validation, timingStatus := NOT_BOUND, NOT_BOUND;
      if device.driver.bound {
        validation := ValidateConfig(device.driver.config);
        var timing;
        timingStatus, timing := Timing.EstimateFrameTiming(device.driver.config, device.driver.config.channels);
        ProfileMask(device.driver.config);
      }
      good := (if validation == OK then 1 else 0) + (if timingStatus == OK then 1 else 0);
    }

    lemma ProfileMask(config: Config)
      requires Accepted(config)
      ensures config.channels != 0 && config.channels & !config.channels == 0
    {
      hide ChannelAccepted;
    }

    /** The checks that read the device directly. */
    method SelfTestReads(world: World)
      requires Stepping(SELF_TEST) && SelfTestInv(session) && !session.stopRequested
      requires session.phase != SELF_PURE && session.phase != SELF_VERIFY && session.phase != SELF_ACQUIRE
      modifies this`device, this`session, this`tally
      ensures Valid() && pending.owner == NO_OWNER && Callbacks() <= old(Callbacks()) + 1
      ensures SelfTestStepped(script, old(Now()), Now(), world)
    {
      hide Valid, Callbacks, Goes, HelpersChecked, WordChecked, ReadyChecked, IntbChecked, DriveChecked, ProfileChecked,
        TransportChecked;
      if session.phase == SELF_INIT_DRIVE {
        SelfTestInitDrive();
      } else if session.phase == SELF_INTB {
        SelfTestIntb(world);
      } else if session.phase == SELF_READY {
        SelfTestReady(world);
      } else {
        SelfTestWords();
      }
    }

    /** The identity words and STATUS. */
    method SelfTestWords()
      requires Stepping(SELF_TEST) && SelfTestInv(session) && !session.stopRequested
      requires session.phase != SELF_PURE && session.phase != SELF_VERIFY && session.phase != SELF_ACQUIRE
      requires session.phase != SELF_INIT_DRIVE && session.phase != SELF_INTB && session.phase != SELF_READY
      modifies this`device, this`session, this`tally
      ensures Valid() && pending.owner == NO_OWNER && Callbacks() <= old(Callbacks()) + 1
      ensures WordChecked(script, old(Now()), Now())
    {
      hide Valid, Callbacks, Goes, Engine.ReadRegister16, Checked;
      if session.phase == SELF_MANUFACTURER {
        var status, value := SessionRead(REG_MANUFACTURER_ID);
        SelfTestChecks(session.(manufacturerId := value, phase := SELF_DEVICE),
                       status == OK && value == MANUFACTURER_ID_VALUE);
      } else if session.phase == SELF_DEVICE {
        var status, value := SessionRead(REG_DEVICE_ID);
        SelfTestChecks(session.(deviceId := value, phase := SELF_STATUS), status == OK && value == DEVICE_ID_VALUE);
      } else if session.phase == SELF_STATUS {
        var status, value := SessionRead(REG_STATUS);
        SelfTestChecks(session.(phase := SELF_READY), status == OK);
      }
    }

    method SelfTestReady(world: World)
      requires Stepping(SELF_TEST) && SelfTestInv(session) && !session.stopRequested && session.phase == SELF_READY
      modifies this`device, this`session, this`tally
      ensures Valid() && pending.owner == NO_OWNER && Callbacks() <= old(Callbacks()) + 1
      ensures ReadyChecked(script, old(Now()), Now(), world)
    {
      hide Trusted, Live, Quiet, SessionInv, StatsBalance, ReportOk, Tallied, Callbacks, Goes, ReadyObservation,
        Checked;
      var status := ReadDataReady(world);
      SelfTestChecks(session.(phase := SELF_INTB), status == OK);
    }

    /** An INTB that is not wired is skipped. */
    method SelfTestIntb(world: World)
      requires Stepping(SELF_TEST) && SelfTestInv(session) && !session.stopRequested && session.phase == SELF_INTB
      modifies this`session, this`tally
      ensures Valid() && pending.owner == NO_OWNER && IntbChecked(old(Now()), Now(), world)
    {
      hide Valid, Goes, Checked;
      SelfTestShape();
      var status := IntbObservation(device.driver, world);
      var next := session.(physicalChannel := 0, phase := SELF_INIT_DRIVE);
      if status == INVALID_CONFIG {
        SelfTestGoes(next.(stats := session.stats.(skipped := session.stats.skipped + 1)), tally);
      } else {
        SelfTestChecks(next, status == OK);
      }
    }

    method SelfTestInitDrive()
      requires Stepping(SELF_TEST)
      modifies this`device, this`session, this`tally
      ensures Valid() && pending.owner == NO_OWNER && Callbacks() <= old(Callbacks()) + 1
      ensures DriveChecked(script, old(Now()), Now())
    {
      hide Valid, Callbacks, Goes, InitDriveObservation, Checked, ChannelCountFor, Trusted, Quiet;
      SelfTestShape();
      if session.physicalChannel >= ChannelCountFor(device.driver.config.variant) {
        SelfTestGoes(session.(registerIndex := 0, phase := SELF_VERIFY), tally);
      } else {
        var status := SessionInitDrive(session.physicalChannel);
        SelfTestChecks(session.(physicalChannel := session.physicalChannel + 1), status == OK);
      }
    }

    method SessionInitDrive(channel: nat) returns (status: Err)
      requires Stepping(session.kind)
      modifies this`device
      ensures (device, status) == InitDriveObservation(script, old(device), channel)
      ensures Stepping(session.kind) && device.driver == old(device.driver) && Callbacks() <= old(Callbacks()) + 1
    {
      hide Trusted, Live, Quiet, SessionInv, InitDriveObservation;
      status := ReadInitDriveCurrent(channel);
    }

    method SessionRead(register: uint8) returns (status: Err, value: bv16)
      requires Stepping(session.kind)
      modifies this`device
      ensures (device, status, value) == Engine.ReadRegister16(script, old(device), register)
      ensures Stepping(session.kind) && device.driver == old(device.driver) && Callbacks() <= old(Callbacks()) + 1
    {
      hide Trusted, Live, Quiet, SessionInv, Engine.ReadRegister16;
      status, value := ReadDevice(register);
    }

    /** The registers of the profile, one a step. */
    method SelfTestVerify()
      requires Stepping(SELF_TEST) && SelfTestInv(session)
      modifies this`device, this`session, this`reports, this`tally
      ensures Valid() && pending.owner == NO_OWNER && Callbacks() <= old(Callbacks()) + 1
      ensures ProfileChecked(script, old(Now()), Now())
    {
      hide Valid, Callbacks, Expects, Accepted, NextAvailable, ProfileChecked;
      var status, index, expected, mask := NextExpectation();
      if status == INVALID_CONFIG {
        SelfTestRejects();
      } else if status == INVALID_PARAM {
        SelfTestTurns();
      } else {
        SelfTestCompares(index, expected, mask);
      }
    }

    method SelfTestRejects()
      requires Stepping(SELF_TEST) && session.registerIndex < |CONFIG_REGISTERS| && !Accepted(device.driver.config)
      modifies this`session, this`reports, this`tally
      ensures Valid() && pending.owner == NO_OWNER && ProfileChecked(script, old(Now()), Now())
    {
      hide Valid, ReportOf, Ends, Accepted, Checked;
      SelfTestShape();
      SelfTestFails(session.stats.skipped);
    }

    method SelfTestTurns()
      requires Stepping(SELF_TEST) && session.registerIndex <= |CONFIG_REGISTERS|
      requires if Accepted(device.driver.config)
        then NextAvailable(device.driver.config.variant, CONFIG_REGISTERS, session.registerIndex) == |CONFIG_REGISTERS|
        else session.registerIndex == |CONFIG_REGISTERS|
      modifies this`session, this`tally
      ensures Valid() && pending.owner == NO_OWNER && ProfileChecked(script, old(Now()), Now())
    {
      hide Valid, Goes, Accepted, NextAvailable;
      SelfTestShape();
      SelfTestGoes(session.(phase := SELF_ACQUIRE), tally);
    }

    method SelfTestCompares(index: nat, expected: bv16, mask: bv16)
      requires Stepping(SELF_TEST) && session.registerIndex <= |CONFIG_REGISTERS| && Accepted(device.driver.config)
      requires index == NextAvailable(device.driver.config.variant, CONFIG_REGISTERS, session.registerIndex)
      requires index < |CONFIG_REGISTERS| && Expects(device.driver.config, CONFIG_REGISTERS[index], expected, mask)
      modifies this`device, this`session, this`tally
      ensures Valid() && pending.owner == NO_OWNER && Callbacks() <= old(Callbacks()) + 1
      ensures ProfileChecked(script, old(Now()), Now())
    {
      hide Valid, Callbacks, Goes, Checked, RegisterMatches, Engine.ReadRegister16, Accepted, NextAvailable, Expects,
        CONFIG_REGISTERS;
      SelfTestShape();
      var matches := CompareAt(CONFIG_REGISTERS[index], expected, mask);
      SelfTestChecks(session.(registerIndex := index + 1,
                              stats := session.stats.(completed := session.stats.completed + 1)), matches);
    }

    /** One read, compared with the expectation. */
    method CompareAt(register: uint8, expected: bv16, mask: bv16) returns (matches: bool)
      requires Stepping(session.kind) && Expects(device.driver.config, register, expected, mask)
      modifies this`device
      ensures var (after, status, value) := Engine.ReadRegister16(script, old(device), register);
        device == after && matches == (status == OK && RegisterMatches(device.driver.config, register, value))
      ensures Stepping(session.kind) && device.driver == old(device.driver) && Callbacks() <= old(Callbacks()) + 1
    {
      hide Valid, Callbacks, RegisterMatches, Engine.ReadRegister16, EqualUnder;
      var read, actual := SessionRead(register);
      matches := read == OK && EqualUnder(mask, actual, expected);
    }

    /** One more check, failed; the self test ends. */
    method SelfTestFails(skipped: nat)
      requires Stepping(SELF_TEST)
      modifies this`session, this`reports, this`tally
      ensures Valid() && pending.owner == NO_OWNER
      ensures skipped == old(session.stats.skipped) ==>
        Ends(old(reports), Now(), Checked(old(session), false), SESSION_FAILED, old(tally).More(false))
      ensures skipped == old(session.stats.skipped) + 1 ==>
        Ends(old(reports), Now(), Missed(old(session)), SESSION_FAILED, old(tally).More(false))
    {
      hide Valid, ReportOf;
      SelfTestShape();
      SelfTestGoes(Check(session, false).(stats := Check(session, false).stats.(skipped := skipped)),
                   tally.More(false));
      FinishSelfTest();
    }

    method FinishSelfTest()
      requires Stepping(SELF_TEST) && session.stats.failed > 0
      modifies this`session, this`reports
      ensures Valid() && pending.owner == NO_OWNER && Ends(old(reports), Now(), old(session), SESSION_FAILED, tally)
    {
      hide Trusted, Live, Quiet, WalkInv;
      FinishSession(SESSION_FAILED);
    }

    /** The acquisition of a self test; without an awake device it is skipped. */
    method SelfTestAcquire(world: World)
      requires Stepping(SELF_TEST)
      modifies this`device, this`pending, this`session, this`nextOperationId, this`reports, this`tally
      ensures Valid() && Underway() && Callbacks() == old(Callbacks())
      ensures TransportChecked(old(Now()), Now(), world)
    {
      hide Valid, Callbacks, TransportChecked;
      if device.driver.applied != APPLIED_ACTIVE {
        SelfTestSkips(world);
      } else {
        SelfTestSchedules(world);
      }
    }

    method SelfTestSkips(ghost world: World)
      requires Stepping(SELF_TEST) && device.driver.applied != APPLIED_ACTIVE
      modifies this`session, this`reports, this`tally
      ensures Valid() && pending.owner == NO_OWNER && TransportChecked(old(Now()), Now(), world)
    {
      hide Valid, ReportOf, Ends;
      SelfTestShape();
      SelfTestGoes(session.(stats := session.stats.(skipped := session.stats.skipped + 2)), tally);
      FinishByCount();
    }

    method SelfTestSchedules(world: World)
      requires Stepping(SELF_TEST) && device.driver.applied == APPLIED_ACTIVE
      modifies this`device, this`pending, this`session, this`nextOperationId, this`reports, this`tally
      ensures Valid() && Underway() && Callbacks() == old(Callbacks())
      ensures TransportChecked(old(Now()), Now(), world)
    {
      hide Valid, ReportOf, Callbacks, Asked, Ends, Checked, SessionInv;
      SelfTestShape();
      SelfTestGoes(session.(channels := device.driver.config.channels), tally);
      SelfTestAsks(world);
    }

    method SelfTestAsks(world: World)
      requires Stepping(SELF_TEST)
      modifies this`device, this`pending, this`session, this`nextOperationId, this`reports, this`tally
      ensures Valid() && Underway() && Callbacks() == old(Callbacks())
      ensures SelfTestAsked(old(Now()), Now(), (world.now + 2000) % TWO_TO_THE_64)
    {
      hide Valid, ReportOf, Callbacks, Asked, Ends, Missed, SessionInv, SelfTestInv, PartOf, HasRoom;
      SelfTestBusy();
      var status := ScheduleSessionAcquire(world);
      if status != IN_PROGRESS {
        SelfTestFails(session.stats.skipped + 1);
      }
    }

    lemma SelfTestBusy()
      requires Stepping(SELF_TEST)
      ensures SessionInv(session, true, PartOf(device.driver), bus) && SelfTestInv(session)
    {
      hide Trusted, Live, Quiet, SessionInv, StatsBalance, ReportOk;
      SelfTestFree(session, PartOf(device.driver), bus);
    }

    /** One step of the running session makes at most one transport callback. */
    method AdvanceSession(world: World)
      requires Valid() && pending.owner == NO_OWNER && session.kind != NO_SESSION_KIND
      modifies this`device, this`pending, this`session, this`nextOperationId, this`reports, this`bus,
        this`discoveryReads, this`tally
      ensures Valid() && Underway() && Callbacks() <= old(Callbacks()) + 1
      ensures SessionStepped(script, old(Now()), Now(), world)
    {
      hide Valid, Callbacks, ProbeStepped, DiscoverStepped, DumpStepped, VerifyStepped, MixedStepped, IdentityStepped,
        ResetStepped, FrequencyStepped, SelfTestStepped, SamplingStepped, JobInProgram, CONFIG_REGISTERS, ALL_REGISTERS;
      match session.kind
      case PROBE => AdvanceProbeSession();
      case DISCOVER => AdvanceDiscoverSession(world);
      case DUMP_CONFIG => AdvanceDumpSession();
      case DUMP_ALL => AdvanceDumpSession();
      case VERIFY => AdvanceVerifySession();
      case STRESS_MIX => AdvanceMixedSession(world);
      case STRESS_ID => AdvanceIdentityStressSession();
      case STRESS_RESET => AdvanceResetStressSession(world);
      case STRESS_BUS_FREQ => AdvanceBusFrequencyStressSession(world);
      case SELF_TEST => AdvanceSelfTestSession(world);
      case WATCH => AdvanceSamplingSession(world);
      case SAMPLE_RATE => AdvanceSamplingSession(world);
      case STRESS => AdvanceSamplingSession(world);
      case SOAK => AdvanceSamplingSession(world);
      case NO_SESSION_KIND =>
    }

    // ----- the scheduler ----------------------------------------------------

    method FirstPhase(kind: SessionKind) returns (phase: SessionPhase)
      ensures phase == FirstPhaseOf(kind)
    {
      match kind
      case PROBE => phase := PROBE_MANUFACTURER;
      case DISCOVER => phase := DISCOVER_MANUFACTURER;
      case DUMP_CONFIG => phase := DUMP_REGISTER;
      case DUMP_ALL => phase := DUMP_REGISTER;
      case VERIFY => phase := VERIFY_REGISTER;
      case STRESS_MIX => phase := MIX_STATUS;
      case STRESS_ID => phase := STRESS_ID_MANUFACTURER;
      case STRESS_RESET => phase := STRESS_RESET_SCHEDULE;
      case STRESS_BUS_FREQ => phase := STRESS_BUS_FREQ_SWITCH;
      case SELF_TEST => phase := SELF_PURE;
      case _ => phase := WAIT_INTERVAL;
    }

    /** A session is refused for the first reason that applies and then leaves
        no trace, or begins with what was asked for and owes a prompt. */
    method StartSession(kind: SessionKind, count: nat, channels: ChannelMask, periodMs: nat, channel: nat, world: World)
      returns (status: Err)
      requires Valid() && kind != NO_SESSION_KIND
      modifies this`session, this`promptDeferred, this`tally
      ensures Valid() && status == SessionAnswer(old(Now()), kind, channels)
      ensures if status == IN_PROGRESS then
          && SessionBegins(old(Now()), Now(), kind, count, channels, periodMs, channel, world.now) && promptDeferred
        else
          Now() == old(Now()) && promptDeferred == old(promptDeferred)
    {
      hide Valid, SessionBegins, SessionAnswer;
      status := AdmitSession(kind, channels);
      if status == IN_PROGRESS {
        OpenSession(kind, count, channels, periodMs, channel, world.now);
        promptDeferred := true;
      }
    }

    method AdmitSession(kind: SessionKind, channels: ChannelMask) returns (status: Err)
      ensures status == SessionAnswer(Now(), kind, channels)
      ensures status == IN_PROGRESS ==> !AsynchronousWorkActive() && (IsWalk(kind) ==> device.driver.bound)
    {
      var d, sampling := device.driver, IsSampling(kind);
      status := IN_PROGRESS;
      if AsynchronousWorkActive() {
        status := BUSY;
      } else if kind != DISCOVER && kind != SELF_TEST && !d.bound {
        status := NOT_BOUND;
      } else if sampling && d.applied != APPLIED_ACTIVE {
        status := CONFIG_DIRTY;
      } else if sampling && (channels == 0 || channels & !d.config.channels != 0) {
        status := INVALID_PARAM;
      } else if kind == STRESS_BUS_FREQ
                && (!bus.isOpen || bus.frequencyHz < 10_000 || bus.frequencyHz > MAX_I2C_FREQUENCY_HZ) {
        status := INVALID_CONFIG;
      }
    }

    method OpenSession(kind: SessionKind, count: nat, channels: ChannelMask, periodMs: nat, channel: nat, now: uint64)
      requires Valid() && kind != NO_SESSION_KIND && pending.owner == NO_OWNER && session.kind == NO_SESSION_KIND
      requires IsWalk(kind) ==> device.driver.bound
      modifies this`session, this`tally
      ensures Valid() && SessionBegins(old(Now()), Now(), kind, count, channels, periodMs, channel, now)
    {
      hide Trusted, Live, Quiet, SessionInv, ReportOk, NewSession, SessionBegins, FirstPhaseOf;
      ghost var m := Now();
      var phase := FirstPhase(kind);
      BoundVariant(device);
      FrequencyFirst(kind);
      NewSessionBalances(kind, phase, channels, count, periodMs, channel, now, PartOf(device.driver), bus);
      session := NewSession(kind, phase, channels, count, periodMs, channel, now, bus.frequencyHz);
      tally := Tally(0, 0);
      NewSessionBegins(m, Now(), kind, count, channels, periodMs, channel, now);
    }

    lemma FrequencyFirst(kind: SessionKind)
      ensures kind == STRESS_BUS_FREQ ==> FirstPhaseOf(kind) == STRESS_BUS_FREQ_SWITCH
    {
    }

    lemma InProgram()
      requires Valid()
      ensures JobInProgram(device.driver)
    {
      hide SessionInv, ReportOk, Live;
    }

    method StopActiveWork()
      requires Valid()
      modifies this`device, this`session, this`reports
      ensures Valid() && Callbacks() == old(Callbacks())
      ensures JobInProgram(old(device).driver) && Stopped(old(Now()), Now())
      ensures old(Drained()) ==> Drained()
      ensures AsynchronousWorkActive() ==> old(AsynchronousWorkActive())
    {
      hide Valid, Callbacks, JobInProgram, Engine.Cancel, Stopped;
      InProgram();
      if session.kind != NO_SESSION_KIND {
        StopSession();
      } else {
        StopCommand();
      }
    }

    method StopSession()
      requires Valid() && session.kind != NO_SESSION_KIND
      modifies this`device, this`session, this`reports
      ensures Valid() && Callbacks() == old(Callbacks())
      ensures JobInProgram(old(device).driver) && Stopped(old(Now()), Now())
      ensures old(Drained()) ==> Drained()
      ensures AsynchronousWorkActive() ==> old(AsynchronousWorkActive())
    {
      hide Valid, ReportOf, Callbacks, JobInProgram, Engine.Cancel, Ends;
      InProgram();
      RequestStop();
      if pending.owner == SESSION && device.driver.job.Some? {
        CancelDeviceJob();
      } else if pending.owner == NO_OWNER {
        FinishSession(SESSION_CANCELLED);
      }
    }

    method RequestStop()
      requires Valid() && session.kind != NO_SESSION_KIND
      modifies this`session
      ensures Valid() && session == old(session).(stopRequested := true)
      ensures pending.owner != NO_OWNER ==> pending.owner == SESSION
    {
      hide Trusted, Live, Quiet, SessionInv, ReportOk;
      StopBalances(session, pending.owner == SESSION, PartOf(device.driver), bus);
      session := session.(stopRequested := true);
    }

    method StopCommand()
      requires Valid() && session.kind == NO_SESSION_KIND
      modifies this`device
      ensures Valid() && Callbacks() == old(Callbacks())
      ensures JobInProgram(old(device).driver) && Stopped(old(Now()), Now())
      ensures old(Drained()) ==> Drained()
      ensures AsynchronousWorkActive() ==> old(AsynchronousWorkActive())
    {
      hide Valid, Callbacks, JobInProgram, Engine.Cancel, Ends;
      InProgram();
      if pending.owner == COMMAND && device.driver.job.Some? {
        CancelDeviceJob();
      }
    }

    /** The driver's cancel never fails and makes no callback. */
    method CancelDeviceJob()
      requires Valid() && pending.owner != NO_OWNER && device.driver.job.Some?
      modifies this`device
      ensures Valid() && Callbacks() == old(Callbacks()) && Drained()
      ensures JobInProgram(old(device).driver) && device == Engine.Cancel(old(device)) && device.driver.job.None?
    {
      hide Trusted, SessionInv, Engine.Cancel, JobInProgram;
      InProgram();
      CancelLive(device);
      device := Engine.Cancel(device);
    }

    /** One cooperative pass: at most one transport callback, and PRINT exactly
        when the pass ends the active work. */
    method Service(world: World) returns (action: PromptAction)
      requires Valid() && Prompted()
      modifies this
      ensures Valid() && Prompted() && Callbacks() <= old(Callbacks()) + 1
      ensures action == PROMPT_PRINT <==> old(AsynchronousWorkActive()) && !AsynchronousWorkActive()
      ensures accepted == old(accepted)
      ensures JobInProgram(old(device).driver) && Passed(script, old(Now()), Now(), world)
    {
      hide Valid, Callbacks, JobInProgram, Passed;
      InProgram();
      Pass(world);
      action := PROMPT_NONE;
      if promptDeferred && !AsynchronousWorkActive() {
        promptDeferred := false;
        answered := answered + 1;
        action := PROMPT_PRINT;
      }
    }

    method Pass(world: World)
      requires Valid() && Drained()
      modifies this`device, this`pending, this`session, this`nextOperationId, this`reports, this`bus,
        this`discoveryReads, this`tally
      ensures Valid() && Callbacks() <= old(Callbacks()) + 1
      ensures device.driver.job.None? ==> device.driver.queue == []
      ensures JobInProgram(old(device).driver) && Passed(script, old(Now()), Now(), world)
      ensures !old(AsynchronousWorkActive()) ==> !AsynchronousWorkActive()
    {
      hide Valid, Callbacks, JobInProgram, Passed;
      if device.driver.job.Some? {
        PollAndDrain(world);
      } else {
        DrainAndAdvance(world);
      }
    }

    method PollAndDrain(world: World)
      requires Valid() && device.driver.job.Some?
      modifies this`device, this`pending, this`session, this`reports, this`tally
      ensures Valid() && Callbacks() <= old(Callbacks()) + 1
      ensures device.driver.job.None? ==> device.driver.queue == []
      ensures JobInProgram(old(device).driver) && Passed(script, old(Now()), Now(), world)
    {
      hide Valid, Callbacks, JobInProgram, ResultDelivered, Engine.Poll, SessionStepped;
      InProgram();
      PollDevice(world);
      DrainResults(world);
    }

    /** Outside a poll only a cancel leaves a result, and it ends its session. */
    method DrainAndAdvance(world: World)
      requires Valid() && Drained() && device.driver.job.None?
      modifies this`device, this`pending, this`session, this`nextOperationId, this`reports, this`bus,
        this`discoveryReads, this`tally
      ensures Valid() && Callbacks() <= old(Callbacks()) + 1
      ensures device.driver.job.None? ==> device.driver.queue == []
      ensures JobInProgram(old(device).driver) && Passed(script, old(Now()), Now(), world)
      ensures !old(AsynchronousWorkActive()) ==> !AsynchronousWorkActive()
    {
      hide Valid, Callbacks, JobInProgram, VerdictCounted, Engine.Poll, SessionStepped, ReportOf;
      InProgram();
      CommandAlone();
      NoSessionStepped(script, Now(), world);
      DrainResults(world);
      if pending.owner == NO_OWNER && session.kind != NO_SESSION_KIND {
        AdvanceSession(world);
      }
      NothingQueued();
    }

    lemma CommandAlone()
      requires Valid()
      ensures pending.owner == COMMAND ==> session.kind == NO_SESSION_KIND
      ensures pending.owner == NO_OWNER && device.driver.job.None? ==> device.driver.queue == []
    {
      hide Trusted, Live, SessionInv, ReportOk;
    }

    lemma NothingQueued()
      requires Valid() && Underway()
      ensures device.driver.job.None? ==> device.driver.queue == []
    {
      hide Trusted, Live, SessionInv, ReportOk;
    }

    method PollDevice(world: World)
      requires Valid() && device.driver.job.Some?
      modifies this`device
      ensures Valid() && Callbacks() <= old(Callbacks()) + 1
      ensures JobInProgram(old(device).driver) && device == Engine.Poll(script, old(device), world.now, 1)
      ensures pending.owner != NO_OWNER
      ensures device.driver.job.Some? ==> device.driver.queue == []
    {
      hide Trusted, SessionInv, Engine.Poll;
      PollOne(script, device, world.now);
      device := Engine.Poll(script, device, world.now, 1);
    }

    function PromptActionForCurrentState(): PromptAction
      reads this
    {
      if AsynchronousWorkActive() || promptDeferred then PROMPT_NONE else PROMPT_PRINT
    }

    /** The busy gate and the commands behind it: at most one transport
        callback, no PRINT while work is active, and a cancel that ends work
        gives that work its prompt. */
    method ProcessCommand(command: Command, world: World) returns (action: PromptAction)
      requires Valid() && Prompted()
      requires command.JobCommand? ==> command.kind != NO_JOB
      requires command.SessionCommand? ==> command.session != NO_SESSION_KIND
      modifies this
      ensures Valid() && Prompted() && Callbacks() <= old(Callbacks()) + 1
      ensures action == PROMPT_PRINT <==> !AsynchronousWorkActive()
      ensures accepted == old(accepted) + (if !old(AsynchronousWorkActive()) && AsynchronousWorkActive() then 1 else 0)
      ensures old(AsynchronousWorkActive()) && !AsynchronousWorkActive() ==> command == CancelCommand
      ensures JobInProgram(old(device).driver) && CommandDone(script, old(Now()), Now(), command, world)
    {
      hide Valid, Callbacks, JobInProgram, Stopped, Start, DirectDone, SessionAnswer, SessionBegins;
      InProgram();
      if AsynchronousWorkActive() && !(command.CancelCommand? || (command.LocalCommand? && command.allowedWhileBusy)) {
        action := PROMPT_NONE;
      } else if command.CancelCommand? {
        StopActiveWork();
        action := AfterCancel();
      } else if command.LocalCommand? {
        LocalDone(script, Now(), command, world);
        action := PromptActionForCurrentState();
      } else if command.JobCommand? {
        action := RunJob(command, world);
      } else if command.SessionCommand? {
        action := RunSession(command, world);
      } else {
        DirectCommand(command, world);
        action := PromptActionForCurrentState();
      }
    }

    method RunJob(command: Command, world: World) returns (action: PromptAction)
      requires Valid() && Prompted() && !AsynchronousWorkActive() && command.JobCommand? && command.kind != NO_JOB
      modifies this`device, this`pending, this`promptDeferred, this`nextOperationId, this`accepted
      ensures Valid() && Prompted() && Callbacks() == old(Callbacks())
      ensures action == PROMPT_PRINT <==> !AsynchronousWorkActive()
      ensures accepted == old(accepted) + (if AsynchronousWorkActive() then 1 else 0)
      ensures JobInProgram(old(device).driver) && CommandDone(script, old(Now()), Now(), command, world)
    {
      hide Valid, Callbacks, JobInProgram, Start;
      InProgram();
      var status := ScheduleCommandJob(command.kind, command.channels, command.deadlineMs, world);
      if status == IN_PROGRESS {
        accepted := accepted + 1;
      }
      action := PromptActionForCurrentState();
    }

    method RunSession(command: Command, world: World) returns (action: PromptAction)
      requires Valid() && Prompted() && !AsynchronousWorkActive()
      requires command.SessionCommand? && command.session != NO_SESSION_KIND
      modifies this`session, this`promptDeferred, this`tally, this`accepted
      ensures Valid() && Prompted() && Callbacks() == old(Callbacks())
      ensures action == PROMPT_PRINT <==> !AsynchronousWorkActive()
      ensures accepted == old(accepted) + (if AsynchronousWorkActive() then 1 else 0)
      ensures JobInProgram(old(device).driver) && CommandDone(script, old(Now()), Now(), command, world)
    {
      hide Valid, Callbacks, JobInProgram, SessionAnswer;
      InProgram();
      var status := StartSession(command.session, command.count, command.mask, command.periodMs, command.channel,
                                 world);
      if status == IN_PROGRESS {
        accepted := accepted + 1;
      }
      action := PromptActionForCurrentState();
    }

    /** Work that a cancel ended gets the cancel command's prompt instead of
        its own deferred one. */
    method AfterCancel() returns (action: PromptAction)
      requires accepted == answered + (if promptDeferred then 1 else 0) && (AsynchronousWorkActive() ==> promptDeferred)
      requires Drained()
      modifies this`promptDeferred, this`answered
      ensures Prompted()
      ensures action == PROMPT_PRINT <==> !AsynchronousWorkActive()
    {
      if AsynchronousWorkActive() {
        promptDeferred := true;
        return PROMPT_NONE;
      }
      if promptDeferred {
        answered := answered + 1;
      }
      promptDeferred := false;
      action := PROMPT_PRINT;
    }

    /** Commands that act on the idle driver at once. */
    method DirectCommand(command: Command, world: World)
      requires Valid() && !AsynchronousWorkActive()
      requires !command.JobCommand? && !command.SessionCommand? && !command.CancelCommand? && !command.LocalCommand?
      modifies this`device, this`bus
      ensures Valid() && !AsynchronousWorkActive() && Callbacks() <= old(Callbacks()) + 1
      ensures device.driver.queue == []
      ensures JobInProgram(old(device).driver) && DirectDone(script, old(Now()), Now(), command, world)
    {
      hide Trusted, SessionInv, ReportOk, Callbacks, Accepted, JobInProgram, Engine.Bind, Engine.End, Engine.Invalidate,
        Engine.UpdateDesiredConfig, Engine.SleepOrWake, Engine.ReadRegister16, Engine.WriteRegister16, ReadyObservation,
        InitDriveObservation;
      InProgram();
      match command
      case BindCommand(profile) => BindDevice(profile);
      case EndCommand => EndDevice();
      case UpdateCommand(desired) => UpdateDevice(desired);
      case SleepCommand => SwitchDevice(true);
      case WakeCommand => SwitchDevice(false);
      case StatusCommand => var status, value := ReadDevice(REG_STATUS);
      case ReadyCommand => var status := ReadDataReady(world);
      case InitDriveCommand(index) => var status := ReadInitDriveCurrent(index);
      case RegisterReadCommand(register) => var status, value := ReadDevice(register);
      case RegisterWriteCommand(target, value) => WriteDevice(target, value);
      case InvalidateCommand => InvalidateDevice();
      case FrequencyCommand(requestedHz) => ChangeFrequency(requestedHz, world);
    }

    method SwitchDevice(to: bool)
      requires Trusted(device) && Quiet(device.driver)
      modifies this`device
      ensures device == Engine.SleepOrWake(script, old(device), to).0
      ensures Trusted(device) && Quiet(device.driver) && Callbacks() <= old(Callbacks()) + 1
    {
      hide Trusted, Quiet, Engine.SleepOrWake;
      SwitchQuiet(script, device, to);
      device := Engine.SleepOrWake(script, device, to).0;
    }

    method WriteDevice(target: uint8, value: bv16)
      requires Trusted(device) && Quiet(device.driver)
      modifies this`device
      ensures device == Engine.WriteRegister16(script, old(device), target, value).0
      ensures Trusted(device) && Quiet(device.driver) && Callbacks() <= old(Callbacks()) + 1
    {
      hide Trusted, Quiet, Engine.WriteRegister16;
      WriteQuiet(script, device, target, value);
      device := Engine.WriteRegister16(script, device, target, value).0;
    }

    /** The owner invalidates the device unless the bus kept its frequency. */
    method ChangeFrequency(requestedHz: nat, world: World)
      requires Valid() && !AsynchronousWorkActive()
      modifies this`device, this`bus
      ensures Valid() && !AsynchronousWorkActive() && Callbacks() == old(Callbacks()) && device.driver.queue == []
      ensures JobInProgram(old(device).driver)
        && DirectDone(script, old(Now()), Now(), FrequencyCommand(requestedHz), world)
    {
      hide Trusted, SessionInv, ReportOk, Callbacks, JobInProgram, Engine.Invalidate;
      InProgram();
      var before := bus;
      var status := SetFrequency(requestedHz, world);
      if device.driver.bound && (status != OK || before.frequencyHz != bus.frequencyHz) {
        InvalidateDevice();
      }
    }

    method BindDevice(profile: Config)
      requires Trusted(device) && Quiet(device.driver)
      modifies this`device
      ensures device == Engine.Bind(old(device), profile).0
      ensures Trusted(device) && Quiet(device.driver) && Callbacks() == old(Callbacks())
    {
      hide Trusted, Accepted;
      BindingKeepsTrust(device, profile);
      if !device.driver.bound {
        var status := ValidateConfig(profile);
        if status == OK {
          device := Machine.System(Driver(true, profile, UNKNOWN, 1, NO_FAULT, None, []), device.device,
                                   Voided(device.seen).(admitted := [], delivered := []));
        }
      }
    }

    method EndDevice()
      requires Trusted(device) && Quiet(device.driver)
      modifies this`device
      ensures device == Engine.End(old(device))
      ensures Trusted(device) && Quiet(device.driver) && Callbacks() == old(Callbacks())
    {
      hide Trusted;
      BindingKeepsTrust(device, device.driver.config);
      device := Machine.System(UNBOUND, device.device, Voided(device.seen).(admitted := [], delivered := []));
    }

    method UpdateDevice(desired: Config)
      requires Trusted(device) && Quiet(device.driver)
      modifies this`device
      ensures device == Engine.UpdateDesiredConfig(old(device), desired).0
      ensures Trusted(device) && Quiet(device.driver) && Callbacks() == old(Callbacks())
    {
      hide Trusted, Accepted, SameBinding;
      BindingKeepsTrust(device, desired);
      var status := ValidateConfig(desired);
      var d := device.driver;
      if d.bound && d.applied != APPLIED_ACTIVE && status == OK && SameBinding(desired, d.config)
         && d.revision != UINT32_MAX {
        device := device.(driver := d.(config := desired, revision := d.revision + 1,
                                       applied := if d.applied == UNKNOWN then UNKNOWN else DIRTY));
      }
    }
  }
}
