/** The driver object: its fields and methods as the C++ class has them, each
    method proved to take the abstract machine from the old state to the new. */
module CooperativeDriver {
  import opened CommandTable
  import opened Profile
  import opened DriverTypes
  import opened Registers
  import opened Validation
  import opened Decoding
  import opened Batches
  import opened Chip
  import opened FakeDevice
  import opened Machine
  import opened Engine
  import opened ResultRing
  import opened DriverFields
  import Deadlines
  import Operations
  import Trust
  import Timing
  import WriteEffects

  class LDC1614 {
    var bound: bool
    var config: Config
    var appliedState: AppliedState
    var configRevision: uint32
    var configFault: ConfigFault
    var progress: JobProgress
    var scratch: Scratch
    const scratchSamples: array<ChannelSample>
    const results: array<OperationResult>
    var resultHead: uint8
    var resultCount: uint8
    /** The device behind the transport callbacks. */
    const wire: FakeLdc1614Device
    ghost var seen: Observer

    // ----- abstraction ------------------------------------------------------

    ghost predicate Shape() {
      scratchSamples.Length == MAX_CHANNELS && results.Length == RESULT_CAPACITY && wire.Valid()
    }

    ghost function State(): Fields
      reads this, scratchSamples, results
      requires Shape()
    {
      Fields(bound, config, appliedState, configRevision, configFault, progress, scratch, scratchSamples[..],
             results[..], resultHead, resultCount)
    }

    ghost predicate Valid()
      reads this, wire, scratchSamples, results
    {
      Shape() && ValidFields(State()) && wire.transferCalls == |seen.log|
    }

    ghost function Abs(): System
      reads this, wire, wire.reg, wire.ch, scratchSamples, results
      requires Shape() && RingShape(State())
    {
      System(DriverOf(State()), wire.Device(), seen)
    }

    // ----- construction and binding -----------------------------------------

    constructor (script: nat -> Choice)
      ensures Valid() && fresh(wire) && fresh(wire.reg) && fresh(wire.ch) && fresh(results) && fresh(scratchSamples)
      ensures wire.script == script && Initial(Abs())
    {
      bound, config, appliedState, configRevision, configFault := false, UNSPECIFIED_CONFIG, UNKNOWN, 0, NO_FAULT;
      progress, scratch := NO_PROGRESS, NO_SCRATCH;
      scratchSamples := new ChannelSample[MAX_CHANNELS](_ => NO_SAMPLE);
      results := new OperationResult[RESULT_CAPACITY](_ => NO_RESULT);
      resultHead, resultCount := 0, 0;
      wire := new FakeLdc1614Device(script);
      seen := NO_OBSERVATIONS;
      new;
    }

    method ClearActiveJob()
      requires Shape()
      modifies this`progress, this`scratch, scratchSamples
      ensures State() == Cleared(old(State()))
    {
      progress, scratch := NO_PROGRESS, NO_SCRATCH;
      ClearScratchSamples();
    }

    method ClearScratchSamples()
      requires scratchSamples.Length == MAX_CHANNELS
      modifies scratchSamples
      ensures scratchSamples[..] == NO_SAMPLES
    {
      var index := 0;
      while index < MAX_CHANNELS
        invariant 0 <= index <= MAX_CHANNELS
        invariant forall i :: 0 <= i < index ==> scratchSamples[i] == NO_SAMPLE
        modifies scratchSamples
      {
        scratchSamples[index] := NO_SAMPLE;
        index := index + 1;
      }
    }

    /** What `bind` and `end` share: no job, no queued result. */
    method ClearJobAndResults()
      requires Shape()
      modifies this`progress, this`scratch, this`resultHead, this`resultCount, scratchSamples, results
      ensures State() == Cleared(old(State())).(slots := results[..], head := 0, count := 0)
    {
      ClearActiveJob();
      resultHead, resultCount := 0, 0;
      ClearSlots();
    }

    method ClearSlots()
      requires results.Length == RESULT_CAPACITY
      modifies results
    {
      var index := 0;
      while index < RESULT_CAPACITY
        invariant 0 <= index <= RESULT_CAPACITY
        modifies results
      {
        results[index] := NO_RESULT;
        index := index + 1;
      }
    }

    /** The fields `bind` and `end` set, after the job and results are cleared. */
    method SetBinding(isBound: bool, newConfig: Config, revision: uint32)
      requires Shape() && wire.transferCalls == |seen.log|
      modifies this, scratchSamples, results
      ensures wire.transferCalls == |seen.log| && seen == Voided(old(seen)).(admitted := [], delivered := [])
      ensures State() == Rebound(isBound, newConfig, revision, results[..])
    {
      bound, config, appliedState, configRevision, configFault := isBound, newConfig, UNKNOWN, revision, NO_FAULT;
      seen := Voided(seen).(admitted := [], delivered := []);
      ClearJobAndResults();
    }

    method Bind(newConfig: Config) returns (status: Err)
      requires Valid()
      modifies this, scratchSamples, results
      ensures Valid() && (Abs(), status) == Engine.Bind(old(Abs()), newConfig)
    {
      hide Accepted, Positioned, Contents, Rebound;
      if bound {
        return BUSY;
      }
      status := ValidateConfig(newConfig);
      if status != OK {
        return;
      }
      SetBinding(true, newConfig, 1);
      ReboundMeans(true, newConfig, 1, results[..]);
    }

    method End()
      requires Valid()
      modifies this, scratchSamples, results
      ensures Valid() && Abs() == Engine.End(old(Abs()))
    {
      hide Accepted, Positioned, Rebound, DriverOf;
      SetBinding(false, UNSPECIFIED_CONFIG, 0);
      ReboundMeans(false, UNSPECIFIED_CONFIG, 0, results[..]);
    }

    method UpdateDesiredConfig(newConfig: Config) returns (status: Err)
      requires Valid()
      modifies this`config, this`configRevision, this`appliedState
      ensures Valid() && (Abs(), status) == Engine.UpdateDesiredConfig(old(Abs()), newConfig)
    {
      hide Accepted, Engine.SameBinding;
      if !bound {
        return NOT_BOUND;
      }
      if progress.active {
        return BUSY;
      }
      if appliedState == APPLIED_ACTIVE {
        return BUSY;
      }
      status := ValidateConfig(newConfig);
      if status != OK {
        return;
      }
      if !Engine.SameBinding(newConfig, config) {
        return INVALID_CONFIG;
      }
      if configRevision == UINT32_MAX {
        return INVALID_CONFIG;
      }
      config, configRevision := newConfig, configRevision + 1;
      if appliedState != UNKNOWN {
        appliedState := DIRTY;
      }
    }

    // ----- terminal results -------------------------------------------------

    method FinishJob(outcome: Outcome, status: Err, completedUptimeMs: uint64, ghost action: Action)
      returns (returned: Err)
      requires Shape() && Sound(State()) && progress.active && Bookkept(State()) && Names(progress, action)
      modifies this`progress, this`scratch, this`resultCount, scratchSamples, results
      ensures Sound(State()) && !progress.active
      ensures returned == if outcome == SUCCESS then OK else status
      ensures DriverOf(State()) == Finish(
        DriverOf(old(State())), outcome, status, completedUptimeMs, action,
        if old(progress.kind) == ACQUIRE && outcome == SUCCESS
        then Some(BatchOf(old(State()), completedUptimeMs)) else None)
    {
      hide Accepted, ProgramLength, Contents, BuildBatch;
      var batch := None;
      if progress.kind == ACQUIRE && outcome == SUCCESS {
        var built := BuildAcquisition(
          progress.requestedChannels, scratchSamples[..], scratch.statusBefore, scratch.statusAfter,
          ChannelCountFor(config.variant), completedUptimeMs, configRevision);
        batch := Some(built);
      }
      var tail := Tail(resultHead, resultCount);
      results[tail] := TerminalResult(progress, configFault, outcome, status, completedUptimeMs, batch);
      if resultCount < RESULT_CAPACITY {
        resultCount := resultCount + 1;
      }
      ClearActiveJob();
      FinishedFields(old(State()), State(), outcome, status, completedUptimeMs, action, batch);
      returned := if outcome == SUCCESS then OK else status;
    }

    method RecordConfigFault(cause: Err, place: Place, effects: Effects)
      modifies this`configFault
      ensures configFault == RecordFault(cause, progress.kind, place, effects)
    {
      configFault := ConfigFault(true, cause, progress.kind, place.phase, place.register, place.channel, effects);
    }

    // ----- accounting for one transfer --------------------------------------

    /** A write that failed: `distrust` is the trust left if the device may
        have changed. */
    method FailedWrite(ghost action: Action, place: Place, distrust: AppliedState, status: Err, nowMs: uint64)
      returns (returned: Err)
      requires Shape() && Sound(State()) && progress.active && Bookkept(State()) && Names(progress, action)
      requires place == PlaceOf(action) && distrust == DistrustAfter(action) && status != OK
      modifies this`progress, this`scratch, this`resultCount, this`appliedState, this`configFault, scratchSamples,
        results
      ensures Sound(State()) && !progress.active && returned == EndStatus(DriverOf(State()))
      ensures DriverOf(State()) == FailWrite(DriverOf(old(State())), action, status, nowMs)
    {
      hide Accepted, ProgramLength, Contents, BuildBatch, Sound, DriverOf, Bookkept, Names, FailWrite, Finish;
      WriteFailedMeans(State(), action, status, nowMs);
      if FailureMayHaveReachedDevice(status) {
        progress := progress.(effects := progress.effects.(indeterminate := true));
      }
      if FailureMayHaveReachedDevice(status) || progress.effects.partial {
        appliedState := distrust;
        RecordConfigFault(status, place, progress.effects);
      }
      assert State() == WriteFailed(old(State()), place, distrust, status);
      returned := FinishJob(FAILED, status, nowMs, action);
    }

    /** A failed write, counted. */
    method WriteFailure(action: Action, status: Err, nowMs: uint64) returns (returned: Err)
      requires Shape() && Sound(State()) && progress.active && Bookkept(State()) && Names(progress, action)
      requires action.write && status != OK
      modifies this`progress, this`scratch, this`resultCount, this`appliedState, this`configFault, scratchSamples,
        results
      ensures ValidFields(State()) && !progress.active && returned == EndStatus(DriverOf(State()))
      ensures DriverOf(old(State())).job.Some?
      ensures DriverOf(State()) == Complete(DriverOf(old(State())), action, status, action.value, nowMs)
    {
      hide Accepted, Contents, ProgramLength, FailWrite, Complete, Sound, Names, Bookkept, DistrustAfter;
      CountedWriteFails(State(), action, status, nowMs);
      progress := progress.(completedTransfers := progress.completedTransfers + 1);
      assert State() == Counted(old(State()));
      returned := FailedWrite(action, PlaceOf(action), DistrustAfter(action), status, nowMs);
    }

    method AccountReset(status: Err, nowMs: uint64) returns (returned: Err)
      requires Shape() && Sound(State()) && progress.active && Positioned(State())
      requires progress.kind == RESET_AND_REAPPLY && progress.completedTransfers == 0
      modifies this`progress, this`scratch, this`resultCount, this`appliedState, this`configFault, scratchSamples,
        results
      ensures ValidFields(State()) && returned == StepStatus(DriverOf(State()))
      ensures DriverOf(old(State())).job.Some?
      ensures DriverOf(State()) == Complete(DriverOf(old(State())), RESET_ACTION, status, MASK_RESET_DEV, nowMs)
    {
      hide Accepted, Contents, BuildBatch, ProgramAction, ProgramLength, Complete, Sound, Names, Bookkept;
      ResetDoneMeans(State(), nowMs);
      if status != OK {
        returned := WriteFailure(RESET_ACTION, status, nowMs);
        return;
      }
      progress := progress.(completedTransfers := progress.completedTransfers + 1,
                            effects := progress.effects.(partial := true),
                            phase := VERIFY_MANUFACTURER, register := REG_MANUFACTURER_ID);
      appliedState := UNKNOWN;
      scratch := scratch.(lastWrite := PlaceOf(RESET_ACTION), jobStep := scratch.jobStep + 1);
      assert State() == ResetDone(old(State()));
      returned := IN_PROGRESS;
    }

    method FailedIdentity(ghost action: Action, place: Place, status: Err, nowMs: uint64) returns (returned: Err)
      requires Shape() && Sound(State()) && progress.active && Bookkept(State()) && Names(progress, action)
      requires place == PlaceOf(action) && status != OK
      modifies this`progress, this`scratch, this`resultCount, this`appliedState, this`configFault, scratchSamples,
        results
      ensures Sound(State()) && !progress.active && returned == EndStatus(DriverOf(State()))
      ensures DriverOf(State()) == FailIdentity(DriverOf(old(State())), action, status, nowMs)
    {
      hide Accepted, ProgramLength, Contents, BuildBatch, Sound, DriverOf, Bookkept, Names, FailIdentity, Finish;
      IdentityFailedMeans(State(), action, status, nowMs);
      appliedState := UNKNOWN;
      RecordConfigFault(status, place, progress.effects);
      assert State() == IdentityFailed(old(State()), place, status);
      returned := FinishJob(FAILED, status, nowMs, action);
    }

    method AccountIdentity(identityIndex: int, status: Err, value: bv16, nowMs: uint64) returns (returned: Err)
      requires Shape() && Sound(State()) && progress.active && Positioned(State()) && AtIdentity(progress)
      requires identityIndex == progress.completedTransfers - (ApplyOffset(progress.kind) - 2)
      modifies this`progress, this`scratch, this`resultCount, this`appliedState, this`configFault, scratchSamples,
        results
      ensures ValidFields(State()) && returned == StepStatus(DriverOf(State()))
      ensures DriverOf(old(State())).job.Some?
      ensures DriverOf(State()) == Complete(DriverOf(old(State())), IdentityAction(identityIndex), status, value, nowMs)
    {
      hide Accepted, Contents, BuildBatch, ProgramAction, ProgramLength, FailIdentity, Complete, Sound, Names, Bookkept,
        Finish;
      IdentityDoneMeans(State(), identityIndex, nowMs);
      ghost var action := IdentityAction(identityIndex);
      var place := PlaceOf(IdentityAction(identityIndex));
      progress := progress.(completedTransfers := progress.completedTransfers + 1);
      assert State() == Counted(old(State()));
      if status != OK {
        CountedFails(old(State()), action, status, value, nowMs);
        returned := FailedIdentity(action, place, status, nowMs);
        return;
      }
      if value != IdentityAction(identityIndex).value {
        CountedSucceeds(old(State()), action, value, nowMs);
        returned := FailedIdentity(action, place, DEVICE_NOT_FOUND, nowMs);
        return;
      }
      if place.register == REG_DEVICE_ID && appliedState == UNKNOWN {
        appliedState := DIRTY;
      }
      var moreIdentity := identityIndex + 1 < 2;
      scratch := scratch.(jobStep := scratch.jobStep + 1);
      progress := progress.(phase := if moreIdentity then VERIFY_DEVICE else FORCE_SLEEP,
                            register := if moreIdentity then REG_DEVICE_ID else REG_CONFIG);
      assert State() == IdentityDone(old(State()), identityIndex);
      returned := IN_PROGRESS;
    }

    method AccountWrite(write: ConfigWrite, status: Err, nowMs: uint64) returns (returned: Err)
      requires Shape() && Sound(State()) && progress.active && Positioned(State()) && AtReplay(State(), write)
      modifies this`progress, this`scratch, this`resultCount, this`appliedState, this`configFault, scratchSamples,
        results
      ensures ValidFields(State()) && returned == StepStatus(DriverOf(State()))
      ensures DriverOf(old(State())).job.Some?
      ensures DriverOf(State()) == Complete(DriverOf(old(State())), ActionOf(write), status, write.value, nowMs)
    {
      hide Accepted, Contents, BuildBatch, ProgramAction, ProgramLength, Complete, Sound, Names, Bookkept, AtReplay;
      AtReplayFacts(State(), write);
      if status != OK {
        returned := WriteFailure(ActionOf(write), status, nowMs);
      } else {
        returned := ConfirmWrite(write, nowMs);
      }
    }

    method ConfirmWrite(write: ConfigWrite, nowMs: uint64) returns (returned: Err)
      requires Shape() && Sound(State()) && progress.active && Positioned(State()) && AtReplay(State(), write)
      modifies this`progress, this`scratch, this`resultCount, this`appliedState, this`configFault, scratchSamples,
        results
      ensures ValidFields(State()) && returned == StepStatus(DriverOf(State()))
      ensures DriverOf(old(State())).job.Some?
      ensures DriverOf(State()) == Complete(DriverOf(old(State())), ActionOf(write), OK, write.value, nowMs)
    {
      hide Accepted, Contents, BuildBatch, ProgramAction, ProgramLength, Complete, Sound, Names, Bookkept, Finish,
        ConfigWriteAt, AtReplay;
      ghost var before := State();
      AtReplayFacts(before, write);
      var applyStep := scratch.jobStep - ApplyOffset(progress.kind);
      var channelCount := ChannelCountFor(config.variant);
      progress := progress.(completedTransfers := progress.completedTransfers + 1,
                            effects := progress.effects.(partial := true));
      scratch := scratch.(lastWrite := Place(write.phase, write.register, write.channel),
                          jobStep := scratch.jobStep + 1);
      appliedState := APPLYING;
      assert State() == WriteConfirmed(before, write, APPLYING);
      if applyStep + 1 >= ConfigurationTransferCount(channelCount) {
        returned := FinishReplay(before, write, nowMs);
      } else {
        NextWriteExists(before, write);
        var nextWrite := ConfigWriteAt(config, channelCount, applyStep + 1).value;
        progress := progress.(phase := nextWrite.phase, register := nextWrite.register, channel := nextWrite.channel);
        ReplayNextMeans(before, write, nextWrite, nowMs);
        returned := IN_PROGRESS;
      }
    }

    method FinishReplay(ghost before: Fields, write: ConfigWrite, nowMs: uint64) returns (returned: Err)
      requires Shape() && Sound(before) && before.progress.active && Positioned(before) && AtReplay(before, write)
      requires before.scratch.jobStep < 0xFF && State() == WriteConfirmed(before, write, APPLYING)
      requires before.progress.completedTransfers + 1 == before.progress.maximumTransfers
      modifies this`progress, this`scratch, this`resultCount, this`appliedState, this`configFault, scratchSamples,
        results
      ensures ValidFields(State()) && returned == StepStatus(DriverOf(State()))
      ensures DriverOf(before).job.Some?
      ensures DriverOf(State()) == Complete(DriverOf(before), ActionOf(write), OK, write.value, nowMs)
    {
      hide Accepted, Contents, BuildBatch, ProgramAction, ProgramLength, Complete, Sound, Names, Bookkept, Finish,
        ConfigWriteAt, AtReplay;
      AtReplayFacts(before, write);
      appliedState := APPLIED_SLEEPING;
      configFault := NO_FAULT;
      ReplayDoneMeans(before, write, nowMs);
      returned := FinishJob(SUCCESS, OK, nowMs, ActionOf(write));
    }

    method FailedAcquire(ghost action: Action, status: Err, nowMs: uint64) returns (returned: Err)
      requires Shape() && Sound(State()) && progress.active && Bookkept(State()) && Names(progress, action)
      requires status != OK
      modifies this`progress, this`scratch, this`resultCount, scratchSamples, results
      ensures Sound(State()) && !progress.active && returned == EndStatus(DriverOf(State()))
      ensures DriverOf(State()) == FailAcquire(DriverOf(old(State())), action, status, nowMs)
    {
      hide Accepted, ProgramLength, Contents, BuildBatch, Sound, DriverOf, Bookkept, Names, FailAcquire, Finish;
      AcquireFailedMeans(State(), action, status, nowMs);
      if progress.phase == READ_STATUS_BEFORE && FailureMayHaveReachedDevice(status) {
        progress := progress.(effects := progress.effects.(read := true));
      }
      assert State() == AcquireFailed(old(State()), status);
      returned := FinishJob(FAILED, status, nowMs, action);
    }

    /** `advanceAcquireChannel`, after `i` channels are done. */
    method AdvanceAcquireChannel(after: Channel, ghost i: nat)
      requires Shape() && Sound(State()) && progress.active && progress.kind == ACQUIRE && Bookkept(State())
      requires progress.effects.read
      requires i <= |Selected(progress.requestedChannels)| && progress.completedTransfers == 1 + 2 * i
      requires after == (if i == 0 then NO_CHANNEL else Selected(progress.requestedChannels)[i - 1])
      requires after < MAX_CHANNELS || after == NO_CHANNEL
      modifies this`progress, this`scratch
      ensures ValidFields(State()) && progress.active && DriverOf(State()) == DriverOf(old(State()))
    {
      hide Accepted, ProgramLength, Contents, Sound, DriverOf, Bookkept, Selected, Has, ValidFields;
      ghost var before := State();
      var next := NextChannel(progress.requestedChannels, after);
      NextIsSelected(progress.requestedChannels, after, next, i);
      progress := progress.(
        phase := if next == NO_CHANNEL then READ_STATUS_AFTER else READ_DATA_MSB,
        register := if next == NO_CHANNEL then REG_STATUS else RegDataMsb(next), channel := next);
      scratch := scratch.(jobChannel := next);
      assert State() == Advanced(before, next);
      AdvancedNames(before, next, i);
    }

    /** Any read of an acquisition that failed. */
    method AcquireFailure(ghost action: Action, status: Err, ghost value: bv16, nowMs: uint64) returns (returned: Err)
      requires Shape() && Sound(State()) && progress.active && Bookkept(State()) && Names(progress, action)
      requires status != OK
      requires progress.kind == ACQUIRE && !action.write
      modifies this`progress, this`scratch, this`resultCount, scratchSamples, results
      ensures ValidFields(State()) && !progress.active && returned == EndStatus(DriverOf(State()))
      ensures DriverOf(old(State())).job.Some?
      ensures DriverOf(State()) == Complete(DriverOf(old(State())), action, status, value, nowMs)
    {
      hide Accepted, Contents, BuildBatch, ProgramLength, FailAcquire, Complete, Sound, Bookkept, Names;
      CountedAcquireFails(State(), action, status, value, nowMs);
      progress := progress.(completedTransfers := progress.completedTransfers + 1);
      assert State() == Counted(old(State()));
      returned := FailedAcquire(action, status, nowMs);
    }

    method AccountStatusBefore(status: Err, raw: bv16, nowMs: uint64) returns (returned: Err)
      requires Shape() && Sound(State()) && progress.active && Positioned(State())
      requires AtAcquire(State(), STATUS_BEFORE_ACTION)
      modifies this`progress, this`scratch, this`resultCount, scratchSamples, results
      ensures ValidFields(State()) && returned == StepStatus(DriverOf(State()))
      ensures DriverOf(old(State())).job.Some?
      ensures DriverOf(State()) == Complete(DriverOf(old(State())), STATUS_BEFORE_ACTION, status, raw, nowMs)
    {
      hide Accepted, Contents, BuildBatch, ProgramLength, Complete, Sound, Bookkept, Finish, DecodeDeviceStatus,
        Selected, AtAcquire, Positioned, Names, ValidFields;
      ghost var before := State();
      AcquireNames(before, STATUS_BEFORE_ACTION);
      if status != OK {
        returned := AcquireFailure(STATUS_BEFORE_ACTION, status, raw, nowMs);
        return;
      }
      StatusBeforeMeans(before, raw, nowMs);
      progress := progress.(completedTransfers := progress.completedTransfers + 1,
                            effects := progress.effects.(read := true));
      scratch := scratch.(statusBefore := DecodeDeviceStatus(raw));
      assert State() == StatusBeforeRead(before, raw);
      AdvanceAcquireChannel(NO_CHANNEL, 0);
      returned := IN_PROGRESS;
    }

    method AccountMsb(status: Err, value: bv16, nowMs: uint64) returns (returned: Err)
      requires Shape() && Sound(State()) && progress.active && Positioned(State()) && scratch.jobChannel < MAX_CHANNELS
      requires AtAcquire(State(), MsbAction(scratch.jobChannel))
      modifies this`progress, this`scratch, this`resultCount, scratchSamples, results
      ensures ValidFields(State()) && returned == StepStatus(DriverOf(State()))
      ensures DriverOf(old(State())).job.Some?
      ensures DriverOf(State())
        == Complete(DriverOf(old(State())), MsbAction(old(scratch.jobChannel)), status, value, nowMs)
    {
      hide Accepted, Contents, BuildBatch, ProgramLength, Complete, Sound, Bookkept, Finish, Selected, AtAcquire,
        Positioned, Names;
      ghost var before := State();
      AcquireNames(before, MsbAction(scratch.jobChannel));
      if status != OK {
        returned := AcquireFailure(MsbAction(before.scratch.jobChannel), status, value, nowMs);
        return;
      }
      progress := progress.(completedTransfers := progress.completedTransfers + 1,
                            effects := progress.effects.(read := true),
                            phase := READ_DATA_LSB, register := RegDataLsb(scratch.jobChannel));
      scratch := scratch.(msb := value);
      assert State() == MsbRead(before, value);
      MsbMeans(before, value, nowMs);
      MsbPlaced(before, value);
      returned := IN_PROGRESS;
    }

    method AccountLsb(status: Err, value: bv16, nowMs: uint64) returns (returned: Err)
      requires Shape() && Sound(State()) && progress.active && Positioned(State()) && scratch.jobChannel < MAX_CHANNELS
      requires AtAcquire(State(), LsbAction(scratch.jobChannel))
      modifies this`progress, this`scratch, this`resultCount, scratchSamples, results
      ensures ValidFields(State()) && returned == StepStatus(DriverOf(State()))
      ensures DriverOf(old(State())).job.Some?
      ensures DriverOf(State())
        == Complete(DriverOf(old(State())), LsbAction(old(scratch.jobChannel)), status, value, nowMs)
    {
      hide Accepted, Contents, BuildBatch, ProgramLength, Complete, Sound, Bookkept, Finish, Selected, AtAcquire,
        Positioned, DecodeChannelSample, WithBit, Names, ValidFields;
      ghost var before := State();
      AcquireNames(before, LsbAction(scratch.jobChannel));
      if status != OK {
        returned := AcquireFailure(LsbAction(before.scratch.jobChannel), status, value, nowMs);
        return;
      }
      LsbIndex(before);
      LsbMeans(before, value, nowMs);
      RecordSample(value);
      AdvanceAcquireChannel(scratch.jobChannel, before.progress.completedTransfers / 2);
      returned := IN_PROGRESS;
    }

    method RecordSample(value: bv16)
      requires Shape() && scratch.jobChannel < MAX_CHANNELS
      modifies this`progress, this`scratch, scratchSamples
      ensures State() == LsbRead(old(State()), value)
    {
      hide DecodeChannelSample, WithBit;
      var index := scratch.jobChannel;
      scratchSamples[index] := DecodeChannelSample(scratch.msb, value);
      scratch := scratch.(completed := WithBit(scratch.completed, index));
      progress := progress.(completedTransfers := progress.completedTransfers + 1,
                            completedChannels := scratch.completed);
    }

    method AccountStatusAfter(status: Err, raw: bv16, nowMs: uint64) returns (returned: Err)
      requires Shape() && Sound(State()) && progress.active && Positioned(State())
      requires AtAcquire(State(), STATUS_AFTER_ACTION)
      modifies this`progress, this`scratch, this`resultCount, scratchSamples, results
      ensures ValidFields(State()) && returned == StepStatus(DriverOf(State()))
      ensures DriverOf(old(State())).job.Some?
      ensures DriverOf(State()) == Complete(DriverOf(old(State())), STATUS_AFTER_ACTION, status, raw, nowMs)
    {
      hide Accepted, Contents, BuildBatch, ProgramLength, Complete, Sound, Bookkept, Finish, BatchOf,
        DecodeDeviceStatus, Selected, AtAcquire, Positioned, Names;
      ghost var before := State();
      AcquireNames(before, STATUS_AFTER_ACTION);
      if status != OK {
        returned := AcquireFailure(STATUS_AFTER_ACTION, status, raw, nowMs);
        return;
      }
      StatusAfterMeans(before, raw, nowMs);
      progress := progress.(completedTransfers := progress.completedTransfers + 1,
                            effects := progress.effects.(read := true));
      scratch := scratch.(statusAfter := DecodeDeviceStatus(raw));
      assert State() == StatusAfterRead(before, raw);
      returned := FinishJob(SUCCESS, OK, nowMs, STATUS_AFTER_ACTION);
    }

    // ----- transfers --------------------------------------------------------

    method WriteRegister(register: int, value: bv16, timeoutMs: uint32, ghost byJob: bool) returns (status: Err)
      requires Shape() && wire.transferCalls == |seen.log|
      modifies this`seen, wire, wire.reg, wire.ch
      ensures wire.transferCalls == |seen.log| && State() == old(State())
      ensures status == wire.script(old(|seen.log|)).status
      ensures wire.Device() == Written(old(wire.Device()), wire.script(old(|seen.log|)), register, value)
      ensures seen == ObserveTransfer(old(seen), old(wire.Device()), byJob, true, register, value, status, timeoutMs)
    {
      hide Written, LatchedAfter, ConvertedAfter, ObserveIdentity;
      ghost var before := wire.Device();
      status := wire.Write(register, value);
      LogGrows(seen, before, byJob, true, register, value, status, timeoutMs);
      seen := ObserveTransfer(seen, before, byJob, true, register, value, status, timeoutMs);
    }

    method ReadRegister(register: int, timeoutMs: uint32, ghost byJob: bool) returns (status: Err, value: bv16)
      requires Shape() && wire.transferCalls == |seen.log|
      modifies this`seen, wire, wire.ch
      ensures wire.transferCalls == |seen.log| && State() == old(State())
      ensures status == wire.script(old(|seen.log|)).status
      ensures value == if status == OK then ReadValue(old(wire.Device()), register) else 0
      ensures wire.Device() == AfterRead(old(wire.Device()), wire.script(old(|seen.log|)), register)
      ensures seen == ObserveTransfer(old(seen), old(wire.Device()), byJob, false, register,
                                      ReadValue(old(wire.Device()), register), status, timeoutMs)
    {
      hide AfterRead, ReadValue, LatchedAfter, ConvertedAfter, ObserveIdentity;
      ghost var before := wire.Device();
      ghost var word;
      status, value, word := wire.WriteRead(register);
      LogGrows(seen, before, byJob, false, register, word, status, timeoutMs);
      seen := ObserveTransfer(seen, before, byJob, false, register, word, status, timeoutMs);
    }

    method ResetStep(nowMs: uint64, timeoutMs: uint32) returns (status: Err)
      requires Valid() && progress.active && progress.kind == RESET_AND_REAPPLY && progress.completedTransfers == 0
      modifies this, scratchSamples, results, wire, wire.reg, wire.ch
      ensures Valid() && CanStep(old(Abs()))
      ensures Abs() == TransferStep(wire.script, old(Abs()), nowMs, timeoutMs)
      ensures status == StepStatus(Abs().driver)
    {
      hide Accepted, Contents, ProgramLength, Complete, Written, ObserveTransfer, ObserveResult, Positioned, StepStatus;
      ghost var s := Abs();
      ghost var script := wire.script;
      StepsFrom(State());
      ResetStands(State());
      var attempt := WriteRegister(REG_RESET_DEV, MASK_RESET_DEV, timeoutMs, true);
      status := AccountReset(attempt, nowMs);
      ObservedLog(seen, s.device, s.driver, DriverOf(State()));
      seen := ObserveResult(seen, s.device, s.driver, DriverOf(State()));
      Assembled(script, s, nowMs, timeoutMs, RESET_ACTION, attempt, MASK_RESET_DEV, Abs());
    }

    method IdentityStep(identityIndex: int, nowMs: uint64, timeoutMs: uint32) returns (status: Err)
      requires Valid() && progress.active && AtIdentity(progress)
      requires identityIndex == progress.completedTransfers - (ApplyOffset(progress.kind) - 2)
      modifies this, scratchSamples, results, wire, wire.reg, wire.ch
      ensures Valid() && CanStep(old(Abs()))
      ensures Abs() == TransferStep(wire.script, old(Abs()), nowMs, timeoutMs)
      ensures status == StepStatus(Abs().driver)
    {
      hide Accepted, Contents, ProgramLength, Complete, AfterRead, ReadValue, ObserveTransfer, ObserveResult,
        Positioned, StepStatus, AtAcquire, CurrentAction;
      ghost var s := Abs();
      ghost var script := wire.script;
      StepsFrom(State());
      IdentityStands(State(), identityIndex);
      ghost var action := IdentityAction(identityIndex);
      ghost var word := ReadValue(wire.Device(), action.register);
      var attempt, value := ReadRegister(IdentityAction(identityIndex).register, timeoutMs, true);
      ValueOnlyWhenOk(s.driver, action, attempt, value, word, nowMs);
      status := AccountIdentity(identityIndex, attempt, value, nowMs);
      ObservedLog(seen, s.device, s.driver, DriverOf(State()));
      seen := ObserveResult(seen, s.device, s.driver, DriverOf(State()));
      Assembled(script, s, nowMs, timeoutMs, action, attempt, word, Abs());
    }

    method WriteStep(write: ConfigWrite, nowMs: uint64, timeoutMs: uint32) returns (status: Err)
      requires Valid() && progress.active && AtReplay(State(), write)
      modifies this, scratchSamples, results, wire, wire.reg, wire.ch
      ensures Valid() && CanStep(old(Abs()))
      ensures Abs() == TransferStep(wire.script, old(Abs()), nowMs, timeoutMs)
      ensures status == StepStatus(Abs().driver)
    {
      hide Accepted, Contents, ProgramLength, Complete, Written, ObserveTransfer, ObserveResult, Positioned, StepStatus,
        AtReplay, CurrentAction;
      ghost var s := Abs();
      ghost var script := wire.script;
      StepsFrom(State());
      ReplayStands(State(), write);
      var attempt := WriteRegister(write.register, write.value, timeoutMs, true);
      status := AccountWrite(write, attempt, nowMs);
      ObservedLog(seen, s.device, s.driver, DriverOf(State()));
      seen := ObserveResult(seen, s.device, s.driver, DriverOf(State()));
      Assembled(script, s, nowMs, timeoutMs, ActionOf(write), attempt, write.value, Abs());
    }

    method StatusBeforeStep(nowMs: uint64, timeoutMs: uint32) returns (status: Err)
      requires Valid() && progress.active && AtAcquire(State(), STATUS_BEFORE_ACTION)
      modifies this, scratchSamples, results, wire, wire.reg, wire.ch
      ensures Valid() && CanStep(old(Abs()))
      ensures Abs() == TransferStep(wire.script, old(Abs()), nowMs, timeoutMs)
      ensures status == StepStatus(Abs().driver)
    {
      hide Accepted, Contents, ProgramLength, Complete, AfterRead, ReadValue, ObserveTransfer, ObserveResult,
        Positioned, StepStatus, AtAcquire, CurrentAction;
      ghost var s := Abs();
      ghost var script := wire.script;
      StepsFrom(State());
      AcquireStands(State(), STATUS_BEFORE_ACTION);
      ghost var action := STATUS_BEFORE_ACTION;
      ghost var word := ReadValue(wire.Device(), action.register);
      var attempt, value := ReadRegister(REG_STATUS, timeoutMs, true);
      ValueOnlyWhenOk(s.driver, action, attempt, value, word, nowMs);
      status := AccountStatusBefore(attempt, value, nowMs);
      ObservedLog(seen, s.device, s.driver, DriverOf(State()));
      seen := ObserveResult(seen, s.device, s.driver, DriverOf(State()));
      Assembled(script, s, nowMs, timeoutMs, action, attempt, word, Abs());
    }

    method MsbStep(nowMs: uint64, timeoutMs: uint32) returns (status: Err)
      requires Valid() && progress.active && scratch.jobChannel < MAX_CHANNELS
      requires AtAcquire(State(), MsbAction(scratch.jobChannel))
      modifies this, scratchSamples, results, wire, wire.reg, wire.ch
      ensures Valid() && CanStep(old(Abs()))
      ensures Abs() == TransferStep(wire.script, old(Abs()), nowMs, timeoutMs)
      ensures status == StepStatus(Abs().driver)
    {
      hide Accepted, Contents, ProgramLength, Complete, AfterRead, ReadValue, ObserveTransfer, ObserveResult,
        Positioned, StepStatus, AtAcquire, CurrentAction;
      ghost var s := Abs();
      ghost var script := wire.script;
      StepsFrom(State());
      AcquireStands(State(), MsbAction(scratch.jobChannel));
      ghost var action := MsbAction(scratch.jobChannel);
      ghost var word := ReadValue(wire.Device(), action.register);
      var attempt, value := ReadRegister(RegDataMsb(scratch.jobChannel), timeoutMs, true);
      ValueOnlyWhenOk(s.driver, action, attempt, value, word, nowMs);
      status := AccountMsb(attempt, value, nowMs);
      ObservedLog(seen, s.device, s.driver, DriverOf(State()));
      seen := ObserveResult(seen, s.device, s.driver, DriverOf(State()));
      Assembled(script, s, nowMs, timeoutMs, action, attempt, word, Abs());
    }

    method LsbStep(nowMs: uint64, timeoutMs: uint32) returns (status: Err)
      requires Valid() && progress.active && scratch.jobChannel < MAX_CHANNELS
      requires AtAcquire(State(), LsbAction(scratch.jobChannel))
      modifies this, scratchSamples, results, wire, wire.reg, wire.ch
      ensures Valid() && CanStep(old(Abs()))
      ensures Abs() == TransferStep(wire.script, old(Abs()), nowMs, timeoutMs)
      ensures status == StepStatus(Abs().driver)
    {
      hide Accepted, Contents, ProgramLength, Complete, AfterRead, ReadValue, ObserveTransfer, ObserveResult,
        Positioned, StepStatus, AtAcquire, CurrentAction;
      ghost var s := Abs();
      ghost var script := wire.script;
      StepsFrom(State());
      AcquireStands(State(), LsbAction(scratch.jobChannel));
      ghost var action := LsbAction(scratch.jobChannel);
      ghost var word := ReadValue(wire.Device(), action.register);
      var attempt, value := ReadRegister(RegDataLsb(scratch.jobChannel), timeoutMs, true);
      ValueOnlyWhenOk(s.driver, action, attempt, value, word, nowMs);
      status := AccountLsb(attempt, value, nowMs);
      ObservedLog(seen, s.device, s.driver, DriverOf(State()));
      seen := ObserveResult(seen, s.device, s.driver, DriverOf(State()));
      Assembled(script, s, nowMs, timeoutMs, action, attempt, word, Abs());
    }

    method StatusAfterStep(nowMs: uint64, timeoutMs: uint32) returns (status: Err)
      requires Valid() && progress.active && AtAcquire(State(), STATUS_AFTER_ACTION)
      modifies this, scratchSamples, results, wire, wire.reg, wire.ch
      ensures Valid() && CanStep(old(Abs()))
      ensures Abs() == TransferStep(wire.script, old(Abs()), nowMs, timeoutMs)
      ensures status == StepStatus(Abs().driver)
    {
      hide Accepted, Contents, ProgramLength, Complete, AfterRead, ReadValue, ObserveTransfer, ObserveResult,
        Positioned, StepStatus, AtAcquire, CurrentAction;
      ghost var s := Abs();
      ghost var script := wire.script;
      StepsFrom(State());
      AcquireStands(State(), STATUS_AFTER_ACTION);
      ghost var action := STATUS_AFTER_ACTION;
      ghost var word := ReadValue(wire.Device(), action.register);
      var attempt, value := ReadRegister(REG_STATUS, timeoutMs, true);
      ValueOnlyWhenOk(s.driver, action, attempt, value, word, nowMs);
      status := AccountStatusAfter(attempt, value, nowMs);
      ObservedLog(seen, s.device, s.driver, DriverOf(State()));
      seen := ObserveResult(seen, s.device, s.driver, DriverOf(State()));
      Assembled(script, s, nowMs, timeoutMs, action, attempt, word, Abs());
    }

    // ----- polling ----------------------------------------------------------

    /** One transfer of a configuration job. */
    method ConfigurationStep(nowMs: uint64, timeoutMs: uint32, resetFirst: bool) returns (status: Err)
      requires Valid() && progress.active && Trust.IsConfigKind(progress.kind)
      requires resetFirst == (progress.kind == RESET_AND_REAPPLY)
      modifies this, scratchSamples, results, wire, wire.reg, wire.ch
      ensures Valid() && CanStep(old(Abs()))
      ensures Abs() == TransferStep(wire.script, old(Abs()), nowMs, timeoutMs)
      ensures status == StepStatus(Abs().driver)
    {
      hide Accepted, Contents, ProgramLength, Positioned, StepStatus, AtReplay, CanStep, TransferStep, DriverOf,
        ConfigWriteAt;
      StepTells(State());
      var applyOffset := 0;
      if progress.kind == INITIALIZE {
        applyOffset := 2;
      } else if resetFirst {
        applyOffset := 3;
      }
      if resetFirst && scratch.jobStep == 0 {
        status := ResetStep(nowMs, timeoutMs);
        return;
      }
      var identityStep := applyOffset != 0 && scratch.jobStep >= applyOffset - 2 && scratch.jobStep < applyOffset;
      if identityStep {
        status := IdentityStep(scratch.jobStep - (applyOffset - 2), nowMs, timeoutMs);
        return;
      }
      var write := ConfigWriteAt(config, ChannelCountFor(config.variant), scratch.jobStep - applyOffset);
      if write.None? {
        assert false;
      } else {
        status := WriteStep(write.value, nowMs, timeoutMs);
      }
    }

    /** One transfer of an acquisition. */
    method AcquisitionStep(nowMs: uint64, timeoutMs: uint32) returns (status: Err)
      requires Valid() && progress.active && progress.kind == ACQUIRE
      modifies this, scratchSamples, results, wire, wire.reg, wire.ch
      ensures Valid() && CanStep(old(Abs()))
      ensures Abs() == TransferStep(wire.script, old(Abs()), nowMs, timeoutMs)
      ensures status == StepStatus(Abs().driver)
    {
      hide Accepted, Contents, ProgramLength, Positioned, StepStatus, AtAcquire, CanStep, TransferStep, DriverOf;
      PhaseTells(State());
      if progress.phase == READ_STATUS_BEFORE {
        status := StatusBeforeStep(nowMs, timeoutMs);
      } else if progress.phase == READ_DATA_MSB {
        status := MsbStep(nowMs, timeoutMs);
      } else if progress.phase == READ_DATA_LSB {
        status := LsbStep(nowMs, timeoutMs);
      } else if progress.phase == READ_STATUS_AFTER {
        status := StatusAfterStep(nowMs, timeoutMs);
      } else {
        assert false;
      }
    }

    method PollInitializeOrApply(nowMs: uint64, budget: uint8, timeoutMs: uint32, resetFirst: bool)
      returns (status: Err, remaining: uint8)
      requires Valid() && progress.active && Trust.IsConfigKind(progress.kind)
      requires resetFirst == (progress.kind == RESET_AND_REAPPLY)
      modifies this, scratchSamples, results, wire, wire.reg, wire.ch
      ensures Valid() && CanStep(old(Abs())) && JobInProgram(Abs().driver)
      ensures Abs() == Transfers(wire.script, old(Abs()), nowMs, timeoutMs, budget)
      ensures status == StepStatus(Abs().driver)
      ensures remaining <= budget && (progress.active ==> remaining == 0)
    {
      hide Accepted, Contents, ProgramLength, Positioned, TransferStep;
      remaining := budget;
      ActiveJob(State());
      while progress.active && remaining > 0
        invariant Valid() && JobInProgram(Abs().driver) && remaining <= budget && progress.active
        invariant Trust.IsConfigKind(progress.kind) && resetFirst == (progress.kind == RESET_AND_REAPPLY)
        invariant Transfers(wire.script, old(Abs()), nowMs, timeoutMs, budget)
          == Transfers(wire.script, Abs(), nowMs, timeoutMs, remaining)
        decreases remaining
      {
        ghost var s := Abs();
        status := ConfigurationStep(nowMs, timeoutMs, resetFirst);
        remaining := remaining - 1;
        StepFacts(wire.script, s, nowMs, timeoutMs);
        TransfersUnfold(wire.script, s, nowMs, timeoutMs, remaining);
        if !progress.active {
          TransfersIdle(wire.script, Abs(), nowMs, timeoutMs, remaining);
          return;
        }
      }
      TransfersIdle(wire.script, Abs(), nowMs, timeoutMs, 0);
      status := IN_PROGRESS;
    }

    method PollAcquire(nowMs: uint64, budget: uint8, timeoutMs: uint32) returns (status: Err, remaining: uint8)
      requires Valid() && progress.active && progress.kind == ACQUIRE
      modifies this, scratchSamples, results, wire, wire.reg, wire.ch
      ensures Valid() && CanStep(old(Abs())) && JobInProgram(Abs().driver)
      ensures Abs() == Transfers(wire.script, old(Abs()), nowMs, timeoutMs, budget)
      ensures status == StepStatus(Abs().driver)
      ensures remaining <= budget && (progress.active ==> remaining == 0)
    {
      hide Accepted, Contents, ProgramLength, Positioned, TransferStep;
      remaining := budget;
      ActiveJob(State());
      while progress.active && remaining > 0
        invariant Valid() && JobInProgram(Abs().driver) && remaining <= budget && progress.active
        invariant progress.kind == ACQUIRE
        invariant Transfers(wire.script, old(Abs()), nowMs, timeoutMs, budget)
          == Transfers(wire.script, Abs(), nowMs, timeoutMs, remaining)
        decreases remaining
      {
        ghost var s := Abs();
        status := AcquisitionStep(nowMs, timeoutMs);
        remaining := remaining - 1;
        StepFacts(wire.script, s, nowMs, timeoutMs);
        TransfersUnfold(wire.script, s, nowMs, timeoutMs, remaining);
        if !progress.active {
          TransfersIdle(wire.script, Abs(), nowMs, timeoutMs, remaining);
          return;
        }
      }
      TransfersIdle(wire.script, Abs(), nowMs, timeoutMs, 0);
      status := IN_PROGRESS;
    }

    /** What `poll` and `cancelJob` both do when a job is given up. */
    method AbandonJob(outcome: Outcome, status: Err, completedUptimeMs: uint64) returns (returned: Err)
      requires Valid() && progress.active && outcome != SUCCESS
      modifies this`progress, this`scratch, this`resultCount, this`appliedState, this`configFault, scratchSamples,
        results
      ensures Valid() && !progress.active && returned == status
      ensures CanStep(old(Abs())) && LastResult(DriverOf(State()), outcome, status)
      ensures DriverOf(State()) == Abandon(DriverOf(old(State())), outcome, status, completedUptimeMs)
    {
      hide Accepted, Contents, ProgramLength, Abandon, Finish, Names, Bookkept, Positioned;
      ghost var before := State();
      AbandonedMeans(before, outcome, status, completedUptimeMs);
      if progress.kind != ACQUIRE && progress.effects.partial {
        if appliedState != UNKNOWN {
          appliedState := DIRTY;
        }
        RecordConfigFault(status, scratch.lastWrite, progress.effects);
      }
      assert State() == Abandoned(before, status);
      FinishedLast(DriverOf(State()), outcome, status, completedUptimeMs, CurrentAction(DriverOf(before)));
      returned := FinishJob(outcome, status, completedUptimeMs, CurrentAction(DriverOf(before)));
    }

    /** Every callback of a poll is handed the largest timeout, up to the cap,
        that the transfers still allowed can each use before the deadline. */
    method Poll(nowMs: uint64, maxTransfers: uint8) returns (status: Err)
      requires Valid()
      modifies this, scratchSamples, results, wire, wire.reg, wire.ch
      ensures Valid() && JobInProgram(old(Abs()).driver)
      ensures Abs() == Engine.Poll(wire.script, old(Abs()), nowMs, maxTransfers)
      ensures status == PollStatus(old(Abs()).driver, Abs().driver)
      ensures old(seen.timeouts) <= seen.timeouts
      ensures !old(progress.active) ==> seen.timeouts == old(seen.timeouts)
      ensures var left := WrappedDifference(old(progress.deadlineMs), nowMs);
        var needed := old(progress.maximumTransfers) - old(progress.completedTransfers);
        old(progress.active) ==>
          && needed > 0
          && (forall i :: |old(seen.timeouts)| <= i < |seen.timeouts| ==>
               Deadlines.FairShare(seen.timeouts[i], old(config.i2cTimeoutMs), left,
                                   Deadlines.Least(maxTransfers, needed, left)))
    {
      hide Accepted, Contents, ProgramLength, Positioned, Transfers, Abandon, JobInProgram, Finish, Engine.Poll,
        Deadlines.FairShare;
      ghost var before, made := Abs(), [];
      InProgram(State());
      made := Deadlines.PollShares(wire.script, before, nowMs, maxTransfers);
      if progress.active { ActiveBudget(State()); }
      status := PollBody(nowMs, maxTransfers);
      assert seen.timeouts == old(seen.timeouts) + made;
    }

    method PollBody(nowMs: uint64, maxTransfers: uint8) returns (status: Err)
      requires Valid()
      modifies this, scratchSamples, results, wire, wire.reg, wire.ch
      ensures Valid() && JobInProgram(old(Abs()).driver)
      ensures Abs() == Engine.Poll(wire.script, old(Abs()), nowMs, maxTransfers)
      ensures status == PollStatus(old(Abs()).driver, Abs().driver)
    {
      hide Accepted, Contents, ProgramLength, Positioned, Transfers, Abandon, JobInProgram, Finish;
      InProgram(State());
      if !progress.active {
        return OK;
      }
      if DueOrPast(nowMs, progress.deadlineMs) {
        status := AbandonJob(TIMED_OUT, TIMEOUT, nowMs);
        return;
      }
      status := PollInTime(nowMs, maxTransfers);
    }

    /** The budget of a poll before the deadline, and its transfers. */
    method PollInTime(nowMs: uint64, maxTransfers: uint8) returns (status: Err)
      requires Valid() && progress.active && !DueOrPast(nowMs, progress.deadlineMs)
      modifies this, scratchSamples, results, wire, wire.reg, wire.ch
      ensures Valid() && JobInProgram(old(Abs()).driver)
      ensures Abs() == Engine.Poll(wire.script, old(Abs()), nowMs, maxTransfers)
      ensures status == PollStatus(old(Abs()).driver, Abs().driver)
    {
      hide Accepted, Contents, ProgramLength, Positioned, Transfers, Abandon, JobInProgram, Finish;
      InProgram(State());
      ActiveBudget(State());
      if maxTransfers == 0 {
        return IN_PROGRESS;
      }
      var deadlineBudgetMs := WrappedDifference(progress.deadlineMs, nowMs);
      var jobTransfersRemaining := progress.maximumTransfers - progress.completedTransfers;
      var remaining := if maxTransfers < jobTransfersRemaining then maxTransfers else jobTransfersRemaining;
      if deadlineBudgetMs < remaining {
        remaining := deadlineBudgetMs;
      }
      var fairShareMs := deadlineBudgetMs / remaining;
      var transferTimeoutMs := if fairShareMs < config.i2cTimeoutMs then fairShareMs else config.i2cTimeoutMs;
      status := PollTransfers(nowMs, remaining, transferTimeoutMs);
    }

    /** The transfer loop of `poll`. */
    method PollTransfers(nowMs: uint64, budget: uint8, timeoutMs: uint32) returns (status: Err)
      requires Valid() && progress.active && budget > 0
      modifies this, scratchSamples, results, wire, wire.reg, wire.ch
      ensures Valid() && CanStep(old(Abs()))
      ensures Abs() == Transfers(wire.script, old(Abs()), nowMs, timeoutMs, budget)
      ensures status == PollStatus(old(Abs()).driver, Abs().driver)
    {
      hide Accepted, Contents, ProgramLength, Positioned, Transfers;
      ActiveJob(State());
      KindCases(State());
      var remaining := budget;
      ghost var begun := false;
      while progress.active && remaining > 0
        invariant Valid() && JobInProgram(Abs().driver)
        invariant if begun then
            && (progress.active ==> remaining == 0)
            && Abs() == Transfers(wire.script, old(Abs()), nowMs, timeoutMs, budget)
            && (!progress.active ==> EndStatus(Abs().driver) == OK || EndStatus(Abs().driver) == IN_PROGRESS)
          else remaining == budget && progress.active && Abs() == old(Abs())
        decreases !begun, remaining
      {
        if progress.kind == ACQUIRE {
          status, remaining := PollAcquire(nowMs, remaining, timeoutMs);
        } else {
          status, remaining := PollInitializeOrApply(nowMs, remaining, timeoutMs, progress.kind == RESET_AND_REAPPLY);
        }
        begun := true;
        if status != OK && status != IN_PROGRESS {
          return;
        }
      }
      status := if progress.active then IN_PROGRESS else OK;
    }

    method CancelJob() returns (status: Err)
      requires Valid()
      modifies this`progress, this`scratch, this`resultCount, this`appliedState, this`configFault, scratchSamples,
        results
      ensures Valid() && !progress.active && status == OK && JobInProgram(old(Abs()).driver)
      ensures Abs() == Engine.Cancel(old(Abs()))
    {
      hide Accepted, Contents, ProgramLength, Positioned, Abandon;
      InProgram(State());
      if progress.active {
        var cancelled := AbandonJob(CANCELLED, CANCELLED_BY_OWNER, 0);
      }
      status := OK;
    }

    method TakeResult() returns (status: Err, result: OperationResult)
      requires Valid()
      modifies this`resultHead, this`resultCount, this`seen, results
      ensures Valid()
      ensures (Abs(), if status == OK then Some(result) else None) == Engine.TakeResult(old(Abs()))
      ensures status == if old(resultCount) == 0 then RESULT_NOT_READY else OK
      ensures status != OK ==> result == NO_RESULT
    {
      hide Accepted, ProgramLength, ProgramAction, Contents;
      if resultCount == 0 {
        return RESULT_NOT_READY, NO_RESULT;
      }
      PopRemovesOldest(results[..], resultHead, resultCount);
      result := results[resultHead];
      results[resultHead] := NO_RESULT;
      resultHead, resultCount := (resultHead + 1) % RESULT_CAPACITY, resultCount - 1;
      seen := seen.(delivered := seen.delivered + [result]);
      status := OK;
    }

    method InvalidateAppliedState(reason: Err)
      requires Valid()
      modifies this`progress, this`scratch, this`resultCount, this`appliedState, this`configFault, this`seen,
        scratchSamples, results
      ensures Valid() && JobInProgram(old(Abs()).driver)
      ensures Abs() == Engine.Invalidate(old(Abs()), reason)
    {
      hide Accepted, Contents, ProgramLength, Positioned, Engine.Cancel;
      InProgram(State());
      var cancelled := CancelJob();
      appliedState := UNKNOWN;
      configFault := NO_FAULT.(valid := true, cause := if reason == OK then CONFIG_DIRTY else reason);
      seen := Voided(seen);
    }

    /** The progress snapshot names exactly the transfer of the pure program
        that comes next. */
    method GetJobProgress() returns (snapshot: JobProgress)
      requires Valid()
      ensures snapshot.active <==> Abs().driver.job.Some?
      ensures snapshot.active ==>
        && CanStep(Abs())
        && snapshot == ProgressAt(Abs().driver, Abs().driver.job.value, CurrentAction(Abs().driver), true)
    {
      hide Accepted, Contents, ProgramLength;
      snapshot := progress;
    }

    // ----- admission --------------------------------------------------------

    method OperationIdInUse(operationId: uint64) returns (used: bool)
      requires Valid()
      ensures used == IdInUse(Abs().driver, operationId)
    {
      hide Accepted, ProgramLength, Positioned;
      if progress.active && progress.operationId == operationId {
        return true;
      }
      var offset := 0;
      while offset < resultCount
        invariant 0 <= offset <= resultCount
        invariant forall i :: 0 <= i < offset ==> Abs().driver.queue[i].operationId != operationId
      {
        var index := (resultHead + offset) % RESULT_CAPACITY;
        assert Abs().driver.queue[offset] == results[index];
        if results[index].operationId == operationId {
          return true;
        }
        offset := offset + 1;
      }
      used := false;
    }

    /** The active job is the call's, untouched so far. */
    ghost predicate AdmittedAs(kind: JobKind, channels: ChannelMask, operationId: uint64, deadlineMs: uint64)
      reads this
    {
      && progress.active && progress.kind == kind && progress.requestedChannels == channels
      && progress.operationId == operationId && progress.deadlineMs == deadlineMs
      && progress.configRevision == configRevision && progress.completedTransfers == 0
      && progress.completedChannels == 0 && progress.effects == Effects(false, false, false)
    }

    method StartJob(kind: JobKind, channels: ChannelMask, operationId: uint64, deadlineMs: uint64,
                    maximumTransfers: uint8)
      returns (status: Err)
      requires Valid() && kind != NO_JOB && (kind != ACQUIRE ==> channels == 0)
      requires bound ==> maximumTransfers == ProgramLength(kind, config, channels)
      requires kind == ACQUIRE ==>
        bound && appliedState == APPLIED_ACTIVE && channels != 0 && channels & !config.channels == 0
      requires kind == APPLY_CONFIG ==> !(bound && appliedState == UNKNOWN)
      modifies this`progress, this`scratch, this`seen, scratchSamples
      ensures Valid() && (Abs(), status) == Engine.Start(old(Abs()), kind, channels, operationId, deadlineMs)
      ensures status == IN_PROGRESS ==> AdmittedAs(kind, channels, operationId, deadlineMs)
    {
      hide Accepted, ProgramLength, Positioned, Contents, IdInUse, StartStatus, Engine.Start, AdmittedJob;
      StartAnswers(State(), kind, channels, operationId);
      StartSplits(Abs(), kind, channels, operationId, deadlineMs);
      if !bound {
        return NOT_BOUND;
      }
      if operationId == 0 {
        return INVALID_PARAM;
      }
      var used := OperationIdInUse(operationId);
      if used {
        return DUPLICATE_OPERATION_ID;
      }
      if progress.active {
        return BUSY;
      }
      if !(resultCount < RESULT_CAPACITY) {
        return RESULT_QUEUE_FULL;
      }
      AdmitJob(kind, channels, operationId, deadlineMs, maximumTransfers);
      status := IN_PROGRESS;
    }

    method AdmitJob(kind: JobKind, channels: ChannelMask, operationId: uint64, deadlineMs: uint64,
                    maximumTransfers: uint8)
      requires Valid() && kind != NO_JOB && (kind != ACQUIRE ==> channels == 0) && bound && !progress.active
      requires resultCount < RESULT_CAPACITY && maximumTransfers == ProgramLength(kind, config, channels)
      modifies this`progress, this`scratch, this`seen, scratchSamples
      ensures Valid()
      ensures Abs() == AdmittedJob(old(Abs()), kind, channels, operationId, deadlineMs)
      ensures AdmittedAs(kind, channels, operationId, deadlineMs)
    {
      hide Accepted, ProgramLength, Positioned, Contents, NewJob, Started, Bookkept;
      ghost var before := State();
      EnterJob(kind, channels, operationId, deadlineMs, maximumTransfers);
      StartedMeans(before, kind, channels, operationId, deadlineMs, maximumTransfers);
      seen := seen.(admitted := seen.admitted
        + [Admission(operationId, kind, config, channels, deadlineMs, configRevision, wire.reg[..], appliedState, [])]);
    }

    /** Clear the last job's traces and set up the snapshot of the new one. */
    method EnterJob(kind: JobKind, channels: ChannelMask, operationId: uint64, deadlineMs: uint64,
                    maximumTransfers: uint8)
      requires Shape() && kind != NO_JOB
      modifies this`progress, this`scratch, scratchSamples
      ensures State() == Started(old(State()), kind, channels, operationId, deadlineMs, maximumTransfers)
      ensures AdmittedAs(kind, channels, operationId, deadlineMs)
    {
      ClearActiveJob();
      var phase, register := READ_STATUS_BEFORE, REG_STATUS;
      match kind {
        case INITIALIZE => phase, register := VERIFY_MANUFACTURER, REG_MANUFACTURER_ID;
        case APPLY_CONFIG => phase, register := FORCE_SLEEP, REG_CONFIG;
        case RESET_AND_REAPPLY => phase, register := SOFTWARE_RESET, REG_RESET_DEV;
        case _ =>
      }
      progress := progress.(
        active := true, operationId := operationId, kind := kind, deadlineMs := deadlineMs,
        maximumTransfers := maximumTransfers, requestedChannels := channels, configRevision := configRevision,
        phase := phase, register := register);
    }

    method StartInitialize(operationId: uint64, deadlineMs: uint64) returns (status: Err)
      requires Valid()
      modifies this`progress, this`scratch, this`seen, scratchSamples
      ensures Valid() && (Abs(), status) == Engine.Start(old(Abs()), INITIALIZE, 0, operationId, deadlineMs)
      ensures status == IN_PROGRESS ==> AdmittedAs(INITIALIZE, 0, operationId, deadlineMs)
    {
      hide Accepted, ProgramLength, Engine.Start;
      ProgramLengths(INITIALIZE, config, 0);
      status := StartJob(INITIALIZE, 0, operationId, deadlineMs,
                         2 + ConfigurationTransferCount(ChannelCountFor(config.variant)));
    }

    method StartApplyConfig(operationId: uint64, deadlineMs: uint64) returns (status: Err)
      requires Valid()
      modifies this`progress, this`scratch, this`seen, scratchSamples
      ensures Valid() && (Abs(), status) == Engine.Start(old(Abs()), APPLY_CONFIG, 0, operationId, deadlineMs)
      ensures status == IN_PROGRESS ==> AdmittedAs(APPLY_CONFIG, 0, operationId, deadlineMs)
    {
      hide Accepted, ProgramLength, Positioned, Contents, NewJob;
      ProgramLengths(APPLY_CONFIG, config, 0);
      if bound && appliedState == UNKNOWN {
        return CONFIG_DIRTY;
      }
      status := StartJob(APPLY_CONFIG, 0, operationId, deadlineMs,
                         ConfigurationTransferCount(ChannelCountFor(config.variant)));
    }

    method StartResetAndReapply(operationId: uint64, deadlineMs: uint64) returns (status: Err)
      requires Valid()
      modifies this`progress, this`scratch, this`seen, scratchSamples
      ensures Valid() && (Abs(), status) == Engine.Start(old(Abs()), RESET_AND_REAPPLY, 0, operationId, deadlineMs)
      ensures status == IN_PROGRESS ==> AdmittedAs(RESET_AND_REAPPLY, 0, operationId, deadlineMs)
    {
      hide Accepted, ProgramLength, Engine.Start;
      ProgramLengths(RESET_AND_REAPPLY, config, 0);
      status := StartJob(RESET_AND_REAPPLY, 0, operationId, deadlineMs,
                         3 + ConfigurationTransferCount(ChannelCountFor(config.variant)));
    }

    method StartAcquire(channels: ChannelMask, operationId: uint64, deadlineMs: uint64) returns (status: Err)
      requires Valid()
      modifies this`progress, this`scratch, this`seen, scratchSamples
      ensures Valid() && (Abs(), status) == Engine.Start(old(Abs()), ACQUIRE, channels, operationId, deadlineMs)
      ensures status == IN_PROGRESS ==> AdmittedAs(ACQUIRE, channels, operationId, deadlineMs)
    {
      hide Accepted, ProgramLength, Positioned, Contents, NewJob, Selected;
      if !bound {
        return NOT_BOUND;
      }
      if appliedState != APPLIED_ACTIVE {
        return CONFIG_DIRTY;
      }
      if channels == 0 || channels & !config.channels != 0 {
        return INVALID_PARAM;
      }
      Timing.MaskWithinProfile(config, channels);
      var count := Popcount(channels);
      ProgramLengths(ACQUIRE, config, channels);
      status := StartJob(ACQUIRE, channels, operationId, deadlineMs, 2 + 2 * count);
    }

    // ----- direct transfers -------------------------------------------------

    method Sleep() returns (status: Err)
      requires Valid()
      modifies this`appliedState, this`configFault, this`seen, wire, wire.reg, wire.ch
      ensures Valid() && (Abs(), status) == Engine.SleepOrWake(wire.script, old(Abs()), true)
      ensures old(bound) && !old(progress.active) && old(appliedState) == APPLIED_ACTIVE && status == OK ==>
        appliedState == APPLIED_SLEEPING && wire.reg[0x1A] & 0x2000 != 0
    {
      hide SleepOrWake, Accepted, ProgramLength, Positioned, Contents, Operations.OneCallback;
      if bound && !progress.active {
        Operations.SwitchAnswers(wire.script, Abs(), true);
      }
      status := Switch(true, APPLIED_ACTIVE, APPLIED_SLEEPING);
    }

    method Wake() returns (status: Err)
      requires Valid()
      modifies this`appliedState, this`configFault, this`seen, wire, wire.reg, wire.ch
      ensures Valid() && (Abs(), status) == Engine.SleepOrWake(wire.script, old(Abs()), false)
      ensures old(bound) && !old(progress.active) && old(appliedState) == APPLIED_SLEEPING && status == OK ==>
        appliedState == APPLIED_ACTIVE && wire.reg[0x1A] & 0x2000 == 0
    {
      hide SleepOrWake, Accepted, ProgramLength, Positioned, Contents, Operations.OneCallback;
      if bound && !progress.active {
        Operations.SwitchAnswers(wire.script, Abs(), false);
      }
      status := Switch(false, APPLIED_SLEEPING, APPLIED_ACTIVE);
    }

    /** The body `sleep` and `wake` share. */
    method Switch(sleeping: bool, source: AppliedState, target: AppliedState) returns (status: Err)
      requires Valid()
      requires source == if sleeping then APPLIED_ACTIVE else APPLIED_SLEEPING
      requires target == if sleeping then APPLIED_SLEEPING else APPLIED_ACTIVE
      modifies this`appliedState, this`configFault, this`seen, wire, wire.reg, wire.ch
      ensures Valid() && (Abs(), status) == Engine.SleepOrWake(wire.script, old(Abs()), sleeping)
    {
      hide Accepted, ProgramLength, Positioned, Contents, BuildConfigRegister, Written, ObserveTransfer;
      if !bound {
        return NOT_BOUND;
      }
      if progress.active {
        return BUSY;
      }
      if appliedState == target {
        return OK;
      }
      if appliedState != source {
        return CONFIG_DIRTY;
      }
      status := WriteRegister(REG_CONFIG, BuildConfigRegister(config, sleeping), config.i2cTimeoutMs, false);
      if status != OK {
        if FailureMayHaveReachedDevice(status) {
          appliedState := DIRTY;
          RecordConfigFault(status, Place(WRITE_FINAL_CONFIG, REG_CONFIG, NO_CHANNEL),
                            NO_EFFECTS.(indeterminate := true));
        }
        return;
      }
      appliedState := target;
    }

    method WriteRegister16(register: uint8, value: bv16) returns (status: Err)
      requires Valid()
      modifies this`appliedState, this`configFault, this`seen, wire, wire.reg, wire.ch
      ensures Valid() && (Abs(), status) == Engine.WriteRegister16(wire.script, old(Abs()), register, value)
    {
      hide Accepted, ProgramLength, Positioned, Contents, Written, ObserveTransfer, IsConfigurationRegister,
        IsLdc1614OnlyRegister, RawWritten;
      if !bound {
        return NOT_BOUND;
      }
      if progress.active {
        return BUSY;
      }
      if !IsConfigurationRegister(register) {
        return INVALID_PARAM;
      }
      if config.variant == LDC1612 && IsLdc1614OnlyRegister(register) {
        return INVALID_PARAM;
      }
      status := WriteRegister(register, value, config.i2cTimeoutMs, false);
      AccountRawWrite(register, status);
    }

    /** A raw write that may have reached the device withdraws trust. */
    method AccountRawWrite(register: uint8, status: Err)
      requires Valid() && !progress.active
      modifies this`appliedState, this`configFault
      ensures Valid() && DriverOf(State()) == RawWritten(DriverOf(old(State())), register, status)
    {
      hide Accepted, ProgramLength, Contents, PhaseForRegister, ChannelForRegister;
      var mutationPossible := status == OK || FailureMayHaveReachedDevice(status);
      if mutationPossible {
        appliedState := if register == REG_RESET_DEV || appliedState == UNKNOWN then UNKNOWN else DIRTY;
        RecordConfigFault(
          if status == OK then CONFIG_DIRTY else status,
          Place(PhaseForRegister(register), register, ChannelForRegister(register)),
          if status == OK then NO_EFFECTS.(partial := true) else NO_EFFECTS.(indeterminate := true));
      }
    }

    method ReadRegister16(register: uint8) returns (status: Err, value: bv16)
      requires Valid()
      modifies this`seen, wire, wire.ch
      ensures Valid() && (Abs(), status, value) == Engine.ReadRegister16(wire.script, old(Abs()), register)
    {
      hide Accepted, ProgramLength, Positioned, Contents, AfterRead, ReadValue, ObserveTransfer, IsValidRegister,
        IsLdc1614OnlyRegister;
      value := 0;
      if !bound {
        return NOT_BOUND, value;
      }
      if progress.active {
        return BUSY, value;
      }
      if !IsValidRegister(register) {
        return INVALID_PARAM, value;
      }
      if config.variant == LDC1612 && IsLdc1614OnlyRegister(register) {
        return INVALID_PARAM, value;
      }
      status, value := ReadRegister(register, config.i2cTimeoutMs, false);
    }

    /** `readDeviceStatus` is the raw read of STATUS, decoded. */
    method ReadDeviceStatus() returns (status: Err, observed: DeviceStatus)
      requires Valid()
      modifies this`seen, wire, wire.ch
      ensures Valid()
      ensures var (after, code, raw) := Engine.ReadRegister16(wire.script, old(Abs()), REG_STATUS);
        && Abs() == after && status == code
        && observed == if status == OK then DecodeDeviceStatus(raw) else NO_STATUS
    {
      hide Accepted, ProgramLength, Positioned, Contents, AfterRead, ReadValue, ObserveTransfer, DecodeDeviceStatus;
      observed := NO_STATUS;
      if !bound {
        return NOT_BOUND, observed;
      }
      if progress.active {
        return BUSY, observed;
      }
      var raw;
      status, raw := ReadRegister(REG_STATUS, config.i2cTimeoutMs, false);
      if status == OK {
        observed := DecodeDeviceStatus(raw);
      }
    }
  }

  lemma LogGrows(o: Observer, device: Device, byJob: bool, write: bool, register: int, value: bv16, status: Err,
                 timeout: nat)
    ensures |ObserveTransfer(o, device, byJob, write, register, value, status, timeout).log| == |o.log| + 1
  {
  }

  lemma StepsFrom(f: Fields)
    requires Sound(f) && f.progress.active && Positioned(f)
    ensures DriverOf(f).job.Some? && JobInProgram(DriverOf(f))
    ensures CurrentAction(DriverOf(f))
      == ProgramAction(f.progress.kind, f.config, f.progress.requestedChannels, f.progress.completedTransfers)
  {
    hide Accepted, ProgramAction, ProgramLength, Contents;
  }

  lemma ResetStands(f: Fields)
    requires Sound(f) && f.progress.active && Positioned(f)
    requires f.progress.kind == RESET_AND_REAPPLY && f.progress.completedTransfers == 0
    ensures DriverOf(f).job.Some? && JobInProgram(DriverOf(f)) && CurrentAction(DriverOf(f)) == RESET_ACTION
  {
    hide Accepted, ProgramLength, Contents;
    StepsFrom(f);
  }

  lemma IdentityStands(f: Fields, index: int)
    requires Sound(f) && f.progress.active && Positioned(f) && AtIdentity(f.progress)
    requires index == f.progress.completedTransfers - (ApplyOffset(f.progress.kind) - 2)
    ensures DriverOf(f).job.Some? && JobInProgram(DriverOf(f)) && CurrentAction(DriverOf(f)) == IdentityAction(index)
  {
    hide Accepted, ProgramLength, Contents;
    StepsFrom(f);
  }

  lemma ReplayStands(f: Fields, write: ConfigWrite)
    requires Sound(f) && f.progress.active && Positioned(f) && AtReplay(f, write)
    ensures DriverOf(f).job.Some? && JobInProgram(DriverOf(f)) && CurrentAction(DriverOf(f)) == ActionOf(write)
  {
    hide Accepted, ProgramLength, ProgramAction, Contents, ConfigWriteAt;
    StepsFrom(f);
    AtReplayFacts(f, write);
  }

  lemma AcquireStands(f: Fields, action: Action)
    requires Sound(f) && f.progress.active && Positioned(f) && AtAcquire(f, action)
    ensures DriverOf(f).job.Some? && JobInProgram(DriverOf(f)) && CurrentAction(DriverOf(f)) == action && !action.write
  {
    hide Accepted, ProgramLength, Contents, AcquireAction;
    StepsFrom(f);
    AcquireNames(f, action);
  }

  lemma ActiveJob(f: Fields)
    requires Sound(f) && f.progress.active && Positioned(f)
    ensures DriverOf(f).job.Some? && JobInProgram(DriverOf(f)) && DriverOf(f).job.value.kind == f.progress.kind
  {
    hide Accepted, ProgramLength, Contents, ProgramAction;
  }

  lemma StepFacts(script: Script, s: System, now: uint64, timeout: nat)
    requires CanStep(s)
    ensures var after := TransferStep(script, s, now, timeout).driver;
      JobInProgram(after) && (after.job.Some? ==> after.job.value.kind == s.driver.job.value.kind)
  {
    hide TransferStep, MaxTransfers;
    StepKeepsProgram(script, s, now, timeout);
    WriteEffects.JobGoesOn(script, s, now, timeout);
  }

  lemma TransfersUnfold(script: Script, s: System, now: uint64, timeout: nat, remaining: nat)
    requires CanStep(s) && JobInProgram(TransferStep(script, s, now, timeout).driver)
    ensures Transfers(script, s, now, timeout, remaining + 1)
      == Transfers(script, TransferStep(script, s, now, timeout), now, timeout, remaining)
  {
    hide TransferStep, MaxTransfers;
  }

  lemma TransfersIdle(script: Script, s: System, now: uint64, timeout: nat, remaining: nat)
    requires JobInProgram(s.driver) && (remaining == 0 || s.driver.job.None?)
    ensures Transfers(script, s, now, timeout, remaining) == s
  {
    hide TransferStep, MaxTransfers;
  }

  lemma InProgram(f: Fields)
    requires ValidFields(f)
    ensures JobInProgram(DriverOf(f))
  {
    hide Accepted, ProgramLength, Contents, ProgramAction;
  }

  /** The counters `poll` budgets with are the job's. */
  lemma ActiveBudget(f: Fields)
    requires Sound(f) && f.progress.active && Positioned(f)
    ensures DriverOf(f).job.Some? && JobInProgram(DriverOf(f))
    ensures f.progress.completedTransfers == DriverOf(f).job.value.done
    ensures f.progress.maximumTransfers == MaxTransfers(DriverOf(f), DriverOf(f).job.value)
    ensures f.progress.completedTransfers < f.progress.maximumTransfers <= 26
  {
    hide Accepted, Contents, ProgramAction, Selected;
    ProgramLengths(f.progress.kind, f.config, f.progress.requestedChannels);
    SelectedAscends(f.progress.requestedChannels);
  }

  lemma KindCases(f: Fields)
    requires Sound(f) && f.progress.active && Positioned(f)
    ensures f.progress.kind == ACQUIRE || Trust.IsConfigKind(f.progress.kind)
  {
    hide Accepted, Contents, ProgramLength, ProgramAction;
  }
}
