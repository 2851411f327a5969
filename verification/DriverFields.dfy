/** The driver's fields as one value, what they stand for in the abstract
    machine, and the effect of accounting for each kind of transfer. */
module DriverFields {
  import opened CommandTable
  import opened Profile
  import opened DriverTypes
  import opened Registers
  import opened Validation
  import opened Decoding
  import opened Chip
  import opened Machine
  import opened Engine
  import opened ResultRing
  import Trust

  /** The scalar working fields of the active job: `_jobStep`, `_jobChannel`,
      the three `_lastWrite` fields and the `_scratch` words. */
  datatype Scratch = Scratch(
    jobStep: uint8, jobChannel: Channel, lastWrite: Place, msb: bv16,
    statusBefore: DeviceStatus, statusAfter: DeviceStatus, completed: ChannelMask)
  const NO_SCRATCH := Scratch(0, NO_CHANNEL, NO_PLACE, 0, NO_STATUS, NO_STATUS, 0)

  /** The driver's fields at one moment, arrays as sequences. */
  datatype Fields = Fields(
    bound: bool, config: Config, applied: AppliedState, revision: uint32, fault: ConfigFault,
    progress: JobProgress, scratch: Scratch, samples: Samples,
    slots: seq<OperationResult>, head: uint8, count: uint8)

  ghost predicate RingShape(f: Fields) {
    |f.slots| == RESULT_CAPACITY && f.head < RESULT_CAPACITY && f.count <= RESULT_CAPACITY
  }

  ghost function JobOf(f: Fields): Job {
    Job(f.progress.operationId, f.progress.kind, f.progress.deadlineMs, f.progress.requestedChannels,
        f.progress.configRevision, f.progress.completedTransfers, f.scratch.completed, f.progress.effects,
        f.scratch.lastWrite, f.scratch.msb, f.scratch.statusBefore, f.samples)
  }

  ghost function DriverOf(f: Fields): Driver
    requires RingShape(f)
  {
    Driver(f.bound, f.config, f.applied, f.revision, f.fault, if f.progress.active then Some(JobOf(f)) else None,
           Contents(f.slots, f.head, f.count))
  }

  /** The progress snapshot names `action`. */
  ghost predicate Names(progress: JobProgress, action: Action) {
    progress.phase == action.phase && progress.register == action.register && progress.channel == action.channel
  }

  /** Counters of the active job agree with its program. */
  ghost predicate Bookkept(f: Fields) {
    && f.progress.maximumTransfers == ProgramLength(f.progress.kind, f.config, f.progress.requestedChannels)
    && f.progress.completedChannels == f.scratch.completed
    && f.count < RESULT_CAPACITY
  }

  /** The active job stands before the transfer its progress snapshot names. */
  ghost predicate Positioned(f: Fields) {
    && Bookkept(f) && f.progress.kind != NO_JOB
    && f.progress.completedTransfers < f.progress.maximumTransfers
    && Names(f.progress, ProgramAction(f.progress.kind, f.config, f.progress.requestedChannels,
                                       f.progress.completedTransfers))
    && (if f.progress.kind == ACQUIRE
        then
          && f.scratch.jobChannel == f.progress.channel
          && (f.progress.completedTransfers > 0 ==> f.progress.effects.read)
        else f.scratch.jobStep == f.progress.completedTransfers)
  }

  ghost predicate Sound(f: Fields) {
    && RingShape(f)
    && (f.bound ==> Accepted(f.config))
    && (!f.bound ==> !f.progress.active && f.count == 0)
    && (!f.progress.active ==> f.progress.kind == NO_JOB)
  }

  ghost predicate ValidFields(f: Fields) {
    Sound(f) && (f.progress.active ==> Positioned(f))
  }

  /** A driver just bound or just ended. */
  ghost function Rebound(isBound: bool, config: Config, revision: uint32, slots: seq<OperationResult>): Fields {
    Fields(isBound, config, UNKNOWN, revision, NO_FAULT, NO_PROGRESS, NO_SCRATCH, NO_SAMPLES, slots, 0, 0)
  }

  lemma ReboundMeans(isBound: bool, config: Config, revision: uint32, slots: seq<OperationResult>)
    requires |slots| == RESULT_CAPACITY && (isBound ==> Accepted(config))
    ensures var f := Rebound(isBound, config, revision, slots);
      ValidFields(f) && DriverOf(f) == Driver(isBound, config, UNKNOWN, revision, NO_FAULT, None, [])
  {
    hide Accepted;
  }

  /** What a poll answers once the job has ended. */
  function EndStatus(d: Driver): Err {
    if d.queue == [] then OK
    else if d.queue[|d.queue| - 1].outcome == SUCCESS then OK else d.queue[|d.queue| - 1].status
  }

  /** What one step of a poll answers. */
  function StepStatus(d: Driver): Err {
    if d.job.Some? then IN_PROGRESS else EndStatus(d)
  }

  function ActionOf(write: ConfigWrite): Action {
    Action(true, write.register, write.value, write.phase, write.channel)
  }

  /** The action the active job stands before. */
  ghost function Current(f: Fields): Action
    requires f.progress.completedTransfers < ProgramLength(f.progress.kind, f.config, f.progress.requestedChannels)
  {
    ProgramAction(f.progress.kind, f.config, f.progress.requestedChannels, f.progress.completedTransfers)
  }

  lemma ReplayCurrent(f: Fields)
    requires Trust.IsConfigKind(f.progress.kind) && f.progress.completedTransfers >= ApplyOffset(f.progress.kind)
    requires f.progress.completedTransfers < ProgramLength(f.progress.kind, f.config, f.progress.requestedChannels)
    ensures var write := ConfigWriteAt(f.config, ChannelCountFor(f.config.variant),
                                       f.progress.completedTransfers - ApplyOffset(f.progress.kind));
      write.Some? && Current(f) == ActionOf(write.value) && write.value.register != REG_RESET_DEV
    ensures f.progress.completedTransfers - ApplyOffset(f.progress.kind)
      < ConfigurationTransferCount(ChannelCountFor(f.config.variant))
    ensures ProgramLength(f.progress.kind, f.config, f.progress.requestedChannels)
      == ApplyOffset(f.progress.kind) + ConfigurationTransferCount(ChannelCountFor(f.config.variant))
  {
    hide BuildConfigRegister, BuildMuxConfigRegister, EncodeErrorReporting, ClockDividers, DriveCurrent, Selected,
      AcquireAction;
    ReplayActionShape(f.config, f.progress.completedTransfers - ApplyOffset(f.progress.kind));
  }

  // ----- accounting as functions of the fields ------------------------------

  /** One more transfer attempted. */
  ghost function Counted(f: Fields): Fields {
    f.(progress := f.progress.(completedTransfers := f.progress.completedTransfers + 1))
  }

  /** Fault and trust after a failed write. */
  ghost function WriteFailed(f: Fields, place: Place, distrust: AppliedState, status: Err): Fields {
    var reached := FailureMayHaveReachedDevice(status);
    var effects := if reached then f.progress.effects.(indeterminate := true) else f.progress.effects;
    var marked := f.(progress := f.progress.(effects := effects));
    if reached || effects.partial
    then marked.(applied := distrust, fault := RecordFault(status, f.progress.kind, place, effects)) else marked
  }

  lemma WriteFailedMeans(f: Fields, action: Action, status: Err, now: uint64)
    requires Sound(f) && f.progress.active && Bookkept(f) && Names(f.progress, action)
    ensures var failed := WriteFailed(f, PlaceOf(action), DistrustAfter(action), status);
      && Sound(failed) && Bookkept(failed) && Names(failed.progress, action)
      && Finish(DriverOf(failed), FAILED, status, now, action, None) == FailWrite(DriverOf(f), action, status, now)
  {
    hide Accepted, ProgramLength, Contents;
  }

  lemma CountedFails(f: Fields, action: Action, status: Err, value: bv16, now: uint64)
    requires Sound(f) && f.progress.active && Bookkept(f) && Names(f.progress, action) && status != OK
    ensures Sound(Counted(f)) && Bookkept(Counted(f)) && Names(Counted(f).progress, action)
    ensures Complete(DriverOf(f), action, status, value, now) == Fail(DriverOf(Counted(f)), action, status, now)
  {
    hide Accepted, ProgramLength, Contents, Fail, SucceedWrite, SucceedAcquire, SucceedIdentity;
  }

  lemma CountedWriteFails(f: Fields, action: Action, status: Err, now: uint64)
    requires Sound(f) && f.progress.active && Bookkept(f) && Names(f.progress, action) && action.write && status != OK
    ensures Sound(Counted(f)) && Bookkept(Counted(f)) && Names(Counted(f).progress, action)
    ensures Complete(DriverOf(f), action, status, action.value, now)
      == FailWrite(DriverOf(Counted(f)), action, status, now)
  {
    hide Accepted, ProgramLength, Contents, FailWrite, Complete;
    CountedFails(f, action, status, action.value, now);
  }

  ghost function ResetDone(f: Fields): Fields
    requires f.scratch.jobStep < 0xFF
  {
    Counted(f).(
      progress := Counted(f).progress.(effects := f.progress.effects.(partial := true),
                                       phase := VERIFY_MANUFACTURER, register := REG_MANUFACTURER_ID),
      applied := UNKNOWN,
      scratch := f.scratch.(lastWrite := PlaceOf(RESET_ACTION), jobStep := f.scratch.jobStep + 1))
  }

  lemma ResetDoneMeans(f: Fields, now: uint64)
    requires Sound(f) && f.progress.active && Positioned(f)
    requires f.progress.kind == RESET_AND_REAPPLY && f.progress.completedTransfers == 0
    ensures f.scratch.jobStep == 0 && Names(f.progress, RESET_ACTION)
    ensures ValidFields(ResetDone(f)) && ResetDone(f).progress.active
    ensures DriverOf(ResetDone(f)) == Complete(DriverOf(f), RESET_ACTION, OK, MASK_RESET_DEV, now)
  {
    hide Accepted, Contents, ReplayAction, AcquireAction, Selected, ReplayLength;
    Trust.ReplayFirst(f.config);
  }

  ghost function IdentityFailed(f: Fields, place: Place, status: Err): Fields {
    f.(applied := UNKNOWN, fault := RecordFault(status, f.progress.kind, place, f.progress.effects))
  }

  lemma IdentityFailedMeans(f: Fields, action: Action, status: Err, now: uint64)
    requires Sound(f) && f.progress.active && Bookkept(f) && Names(f.progress, action)
    ensures var failed := IdentityFailed(f, PlaceOf(action), status);
      && Sound(failed) && Bookkept(failed) && Names(failed.progress, action)
      && Finish(DriverOf(failed), FAILED, status, now, action, None) == FailIdentity(DriverOf(f), action, status, now)
  {
    hide Accepted, ProgramLength, Contents;
  }

  /** Which identity register a step before the replay reads. */
  function IdentityAction(index: int): Action { if index == 0 then MANUFACTURER_ACTION else DEVICE_ACTION }

  predicate AtIdentity(progress: JobProgress) {
    && Trust.IsConfigKind(progress.kind) && ApplyOffset(progress.kind) >= 2
    && ApplyOffset(progress.kind) - 2 <= progress.completedTransfers < ApplyOffset(progress.kind)
  }

  ghost function IdentityDone(f: Fields, index: int): Fields
    requires f.scratch.jobStep < 0xFF
  {
    Counted(f).(
      progress := Counted(f).progress.(phase := if index == 0 then VERIFY_DEVICE else FORCE_SLEEP,
                                       register := if index == 0 then REG_DEVICE_ID else REG_CONFIG),
      applied := if index == 1 && f.applied == UNKNOWN then DIRTY else f.applied,
      scratch := f.scratch.(jobStep := f.scratch.jobStep + 1))
  }

  lemma IdentityDoneMeans(f: Fields, index: int, now: uint64)
    requires Sound(f) && f.progress.active && Positioned(f) && AtIdentity(f.progress)
    requires index == f.progress.completedTransfers - (ApplyOffset(f.progress.kind) - 2)
    ensures f.scratch.jobStep < 3 && Names(f.progress, IdentityAction(index))
    ensures ValidFields(IdentityDone(f, index)) && IdentityDone(f, index).progress.active
    ensures DriverOf(IdentityDone(f, index))
      == Complete(DriverOf(f), IdentityAction(index), OK, IdentityAction(index).value, now)
  {
    hide Accepted, Contents, ReplayAction, AcquireAction, Selected, ReplayLength, BuildConfigRegister, Complete;
    Trust.ReplayFirst(f.config);
    CountedSucceeds(f, IdentityAction(index), IdentityAction(index).value, now);
  }

  lemma CountedSucceeds(f: Fields, action: Action, value: bv16, now: uint64)
    requires Sound(f) && f.progress.active && Bookkept(f) && Names(f.progress, action)
    ensures Sound(Counted(f)) && Bookkept(Counted(f)) && Names(Counted(f).progress, action)
    ensures Complete(DriverOf(f), action, OK, value, now)
      == (if action.write then SucceedWrite(DriverOf(Counted(f)), action, now)
          else if f.progress.kind == ACQUIRE then SucceedAcquire(DriverOf(Counted(f)), action, value, now)
          else SucceedIdentity(DriverOf(Counted(f)), action, value, now))
  {
    hide Accepted, ProgramLength, Contents, Fail, SucceedWrite, SucceedAcquire, SucceedIdentity;
  }

  /** The replay step a configuration job stands before. */
  ghost predicate AtReplay(f: Fields, write: ConfigWrite) {
    && Trust.IsConfigKind(f.progress.kind) && f.progress.completedTransfers >= ApplyOffset(f.progress.kind)
    && ConfigWriteAt(f.config, ChannelCountFor(f.config.variant),
                     f.progress.completedTransfers - ApplyOffset(f.progress.kind))
       == Some(write)
  }

  /** A confirmed replay write, before the next step is chosen. */
  ghost function WriteConfirmed(f: Fields, write: ConfigWrite, applied: AppliedState): Fields
    requires f.scratch.jobStep < 0xFF
  {
    Counted(f).(
      progress := Counted(f).progress.(effects := f.progress.effects.(partial := true)),
      applied := applied,
      scratch := f.scratch.(lastWrite := PlaceOf(ActionOf(write)), jobStep := f.scratch.jobStep + 1))
  }

  lemma AtReplayFacts(f: Fields, write: ConfigWrite)
    requires Sound(f) && f.progress.active && Positioned(f) && AtReplay(f, write)
    ensures Current(f) == ActionOf(write) && Names(f.progress, ActionOf(write)) && write.register != REG_RESET_DEV
    ensures ApplyOffset(f.progress.kind) <= f.scratch.jobStep == f.progress.completedTransfers < 26
    ensures f.progress.kind != ACQUIRE
    ensures f.progress.maximumTransfers
      == ApplyOffset(f.progress.kind) + ConfigurationTransferCount(ChannelCountFor(f.config.variant))
  {
    hide Accepted, ConfigWriteAt, ProgramAction, ProgramLength;
    ReplayCurrent(f);
  }

  lemma NextWriteExists(f: Fields, write: ConfigWrite)
    requires Sound(f) && f.progress.active && Positioned(f) && AtReplay(f, write)
    requires f.progress.completedTransfers + 1 < f.progress.maximumTransfers
    ensures var step := f.progress.completedTransfers - ApplyOffset(f.progress.kind) + 1;
      ConfigWriteAt(f.config, ChannelCountFor(f.config.variant), step).Some?
      && AtReplay(Counted(f), ConfigWriteAt(f.config, ChannelCountFor(f.config.variant), step).value)
  {
    hide Accepted, ConfigWriteAt, ProgramAction, ProgramLength;
    AtReplayFacts(f, write);
    ReplayCurrent(Counted(f));
  }

  /** The last replay write completes the job. */
  lemma ReplayDoneMeans(f: Fields, write: ConfigWrite, now: uint64)
    requires Sound(f) && f.progress.active && Positioned(f) && AtReplay(f, write) && f.scratch.jobStep < 0xFF
    requires Current(f) == ActionOf(write) && write.register != REG_RESET_DEV
    requires f.progress.completedTransfers + 1 == f.progress.maximumTransfers
    ensures var done := WriteConfirmed(f, write, APPLIED_SLEEPING).(fault := NO_FAULT);
      && Sound(done) && Bookkept(done) && Names(done.progress, ActionOf(write))
      && Finish(DriverOf(done), SUCCESS, OK, now, ActionOf(write), None)
         == Complete(DriverOf(f), ActionOf(write), OK, write.value, now)
  {
    hide Accepted, Contents, ProgramAction, ProgramLength, ConfigWriteAt, Complete, Finish;
    AtReplayFacts(f, write);
    CountedSucceeds(f, ActionOf(write), write.value, now);
  }

  /** Any other replay write moves on to the next one. */
  lemma ReplayNextMeans(f: Fields, write: ConfigWrite, next: ConfigWrite, now: uint64)
    requires Sound(f) && f.progress.active && Positioned(f) && AtReplay(f, write) && f.scratch.jobStep < 0xFF
    requires f.progress.completedTransfers + 1 < f.progress.maximumTransfers
    requires AtReplay(Counted(f), next)
    ensures var moved := WriteConfirmed(f, write, APPLYING);
      var placed := moved.(progress := moved.progress.(phase := next.phase, register := next.register,
                                                       channel := next.channel));
      && ValidFields(placed) && placed.progress.active
      && DriverOf(placed) == Complete(DriverOf(f), ActionOf(write), OK, write.value, now)
  {
    hide Accepted, Contents, ProgramAction, ProgramLength, ConfigWriteAt;
    AtReplayFacts(f, write);
    ReplayCurrent(Counted(f));
  }

  // ----- acquisition --------------------------------------------------------

  /** The next selected channel is the next one in ascending order. */
  lemma NextIsSelected(mask: ChannelMask, after: Channel, next: Channel, i: nat)
    requires i <= |Selected(mask)| && after == (if i == 0 then NO_CHANNEL else Selected(mask)[i - 1])
    requires next < MAX_CHANNELS || next == NO_CHANNEL
    requires next != NO_CHANNEL ==> Has(mask, next) && (after == NO_CHANNEL || after < next)
    requires forall ch :: 0 <= ch < MAX_CHANNELS && Has(mask, ch) && (after == NO_CHANNEL || after < ch) ==> next <= ch
    ensures next == if i < |Selected(mask)| then Selected(mask)[i] else NO_CHANNEL
  {
    hide Selected, Has;
    SelectedAscends(mask);
    forall j | 0 <= j < |Selected(mask)|
      ensures j < i ==> Selected(mask)[j] <= Selected(mask)[i - 1]
      ensures j > i ==> Selected(mask)[j] > Selected(mask)[i]
    {
    }
    if i < |Selected(mask)| {
      assert i > 0 ==> Selected(mask)[i - 1] < Selected(mask)[i];
      assert next <= Selected(mask)[i];
      var j :| 0 <= j < |Selected(mask)| && Selected(mask)[j] == next;
      assert j == i;
    }
  }

  /** What the program reads after `i` channels are done. */
  lemma AcquireAfter(mask: ChannelMask, i: nat)
    requires i <= |Selected(mask)|
    ensures i < |Selected(mask)| ==> 0 <= Selected(mask)[i] < MAX_CHANNELS
    ensures AcquireAction(mask, 1 + 2 * i)
      == if i < |Selected(mask)| then MsbAction(Selected(mask)[i]) else STATUS_AFTER_ACTION
    ensures i < |Selected(mask)| ==> AcquireAction(mask, 2 + 2 * i) == LsbAction(Selected(mask)[i])
  {
    hide Selected;
    SelectedAscends(mask);
  }

  ghost function AcquireFailed(f: Fields, status: Err): Fields {
    if f.progress.phase == READ_STATUS_BEFORE && FailureMayHaveReachedDevice(status)
    then f.(progress := f.progress.(effects := f.progress.effects.(read := true))) else f
  }

  lemma AcquireFailedMeans(f: Fields, action: Action, status: Err, now: uint64)
    requires Sound(f) && f.progress.active && Bookkept(f) && Names(f.progress, action)
    ensures var failed := AcquireFailed(f, status);
      && Sound(failed) && Bookkept(failed) && Names(failed.progress, action)
      && Finish(DriverOf(failed), FAILED, status, now, action, None) == FailAcquire(DriverOf(f), action, status, now)
  {
    hide Accepted, ProgramLength, Contents;
  }

  /** The job stands before the transfer for which `i` channels are done. */
  ghost predicate AtAcquire(f: Fields, action: Action) {
    && f.progress.kind == ACQUIRE && f.progress.completedTransfers < 2 + 2 * |Selected(f.progress.requestedChannels)|
    && AcquireAction(f.progress.requestedChannels, f.progress.completedTransfers) == action
  }

  lemma AtAcquireFacts(f: Fields)
    requires Sound(f) && f.progress.active && Positioned(f) && f.progress.kind == ACQUIRE
    ensures f.progress.completedTransfers < ProgramLength(f.progress.kind, f.config, f.progress.requestedChannels)
    ensures AtAcquire(f, Current(f)) && Names(f.progress, Current(f)) && Current(f) == CurrentAction(DriverOf(f))
    ensures f.progress.maximumTransfers == 2 + 2 * |Selected(f.progress.requestedChannels)|
  {
    hide Accepted, Selected, AcquireAction, Contents;
  }

  lemma AcquireNames(f: Fields, action: Action)
    requires Sound(f) && f.progress.active && Positioned(f) && AtAcquire(f, action)
    ensures Names(f.progress, action) && Bookkept(f) && f.progress.kind == ACQUIRE && !action.write
  {
    hide Accepted, Selected, AcquireAction, Contents, ProgramLength;
    AcquireActionShape(f.progress.requestedChannels, f.progress.completedTransfers);
    AtAcquireFacts(f);
  }

  lemma CountedAcquireFails(f: Fields, action: Action, status: Err, value: bv16, now: uint64)
    requires Sound(f) && f.progress.active && Bookkept(f) && Names(f.progress, action)
    requires f.progress.kind == ACQUIRE && !action.write && status != OK
    ensures Sound(Counted(f)) && Bookkept(Counted(f)) && Names(Counted(f).progress, action)
    ensures Complete(DriverOf(f), action, status, value, now) == FailAcquire(DriverOf(Counted(f)), action, status, now)
  {
    hide Accepted, Contents, ProgramLength, FailAcquire, Complete;
    CountedFails(f, action, status, value, now);
  }

  /** Cursor and snapshot moved on to the `i`-th selected channel. */
  ghost function Advanced(f: Fields, next: Channel): Fields {
    f.(progress := f.progress.(
         phase := if next == NO_CHANNEL then READ_STATUS_AFTER else READ_DATA_MSB,
         register := if next == NO_CHANNEL then REG_STATUS else RegDataMsb(next), channel := next),
       scratch := f.scratch.(jobChannel := next))
  }

  lemma AdvancedNames(f: Fields, next: Channel, i: nat)
    requires f.progress.kind == ACQUIRE && i <= |Selected(f.progress.requestedChannels)|
    requires f.progress.completedTransfers == 1 + 2 * i
    requires next
      == if i < |Selected(f.progress.requestedChannels)| then Selected(f.progress.requestedChannels)[i] else NO_CHANNEL
    requires Sound(f) && f.progress.active && Bookkept(f) && f.progress.effects.read
    ensures ValidFields(Advanced(f, next)) && DriverOf(Advanced(f, next)) == DriverOf(f)
  {
    hide Accepted, Selected, AcquireAction, Contents;
    AcquireAfter(f.progress.requestedChannels, i);
  }

  ghost function StatusBeforeRead(f: Fields, raw: bv16): Fields {
    Counted(f).(progress := Counted(f).progress.(effects := f.progress.effects.(read := true)),
                scratch := f.scratch.(statusBefore := DecodeDeviceStatus(raw)))
  }

  ghost function MsbRead(f: Fields, value: bv16): Fields {
    Counted(f).(
      progress := Counted(f).progress.(effects := f.progress.effects.(read := true), phase := READ_DATA_LSB,
                                       register := RegDataLsb(f.scratch.jobChannel)),
      scratch := f.scratch.(msb := value))
  }

  ghost function LsbRead(f: Fields, value: bv16): Fields
    requires f.scratch.jobChannel < MAX_CHANNELS
  {
    var completed := WithBit(f.scratch.completed, f.scratch.jobChannel);
    Counted(f).(
      progress := Counted(f).progress.(completedChannels := completed),
      scratch := f.scratch.(completed := completed),
      samples := f.samples[f.scratch.jobChannel := DecodeChannelSample(f.scratch.msb, value)])
  }

  ghost function StatusAfterRead(f: Fields, raw: bv16): Fields {
    Counted(f).(progress := Counted(f).progress.(effects := f.progress.effects.(read := true)),
                scratch := f.scratch.(statusAfter := DecodeDeviceStatus(raw)))
  }

  lemma StatusBeforeMeans(f: Fields, raw: bv16, now: uint64)
    requires Sound(f) && f.progress.active && Positioned(f) && AtAcquire(f, STATUS_BEFORE_ACTION)
    ensures f.progress.completedTransfers == 0
    ensures var read := StatusBeforeRead(f, raw);
      && Sound(read) && Bookkept(read)
      && DriverOf(read) == Complete(DriverOf(f), STATUS_BEFORE_ACTION, OK, raw, now)
  {
    hide Accepted, Selected, Contents, DecodeDeviceStatus, ProgramLength, AcquireAction, Complete, ProgramAction;
    AcquireActionShape(f.progress.requestedChannels, f.progress.completedTransfers);
    AcquireNames(f, STATUS_BEFORE_ACTION);
    CountedSucceeds(f, STATUS_BEFORE_ACTION, raw, now);
  }

  lemma MsbMeans(f: Fields, value: bv16, now: uint64)
    requires Sound(f) && f.progress.active && Positioned(f) && f.scratch.jobChannel < MAX_CHANNELS
    requires f.progress.kind == ACQUIRE
    ensures MsbRead(f, value).progress.active && Sound(MsbRead(f, value))
    ensures DriverOf(MsbRead(f, value)) == Complete(DriverOf(f), MsbAction(f.scratch.jobChannel), OK, value, now)
  {
    hide Accepted, Contents, ProgramLength, Positioned;
  }

  /** Where in the program an MSB read of the current channel stands. */
  lemma MsbIndex(f: Fields) returns (i: nat)
    requires AtAcquire(f, MsbAction(f.scratch.jobChannel))
    ensures f.progress.completedTransfers == 1 + 2 * i && i < |Selected(f.progress.requestedChannels)|
    ensures Selected(f.progress.requestedChannels)[i] == f.scratch.jobChannel
  {
    hide Selected, AcquireAction;
    AcquireActionShape(f.progress.requestedChannels, f.progress.completedTransfers);
    i := (f.progress.completedTransfers - 1) / 2;
  }

  lemma MsbPlaced(f: Fields, value: bv16)
    requires Sound(f) && f.progress.active && Positioned(f) && f.scratch.jobChannel < MAX_CHANNELS
    requires AtAcquire(f, MsbAction(f.scratch.jobChannel))
    ensures Positioned(MsbRead(f, value))
  {
    hide Accepted, Selected, Contents, AcquireAction, ReplayAction;
    var i := MsbIndex(f);
    AcquireAfter(f.progress.requestedChannels, i);
  }

  /** Where in the program an LSB read of the current channel stands. */
  lemma LsbIndex(f: Fields)
    requires Sound(f) && f.progress.active && Positioned(f)
    requires AtAcquire(f, LsbAction(f.scratch.jobChannel))
    ensures var i := f.progress.completedTransfers / 2;
      && f.progress.completedTransfers == 2 * i && 0 < i <= |Selected(f.progress.requestedChannels)|
      && Selected(f.progress.requestedChannels)[i - 1] == f.scratch.jobChannel && f.progress.effects.read
  {
    hide Accepted, Selected, Contents, AcquireAction, ProgramLength, ProgramAction;
    AcquireActionShape(f.progress.requestedChannels, f.progress.completedTransfers);
  }

  lemma LsbMeans(f: Fields, value: bv16, now: uint64)
    requires Sound(f) && f.progress.active && Bookkept(f) && Names(f.progress, LsbAction(f.scratch.jobChannel))
    requires f.progress.kind == ACQUIRE && f.progress.effects.read && f.scratch.jobChannel < MAX_CHANNELS
    ensures var read := LsbRead(f, value);
      && Sound(read) && Bookkept(read)
      && DriverOf(read) == Complete(DriverOf(f), LsbAction(f.scratch.jobChannel), OK, value, now)
  {
    hide Accepted, Contents, DecodeChannelSample, ProgramLength, WithBit, Complete;
    CountedSucceeds(f, LsbAction(f.scratch.jobChannel), value, now);
  }

  lemma StatusAfterMeans(f: Fields, raw: bv16, now: uint64)
    requires Sound(f) && f.progress.active && Positioned(f) && AtAcquire(f, STATUS_AFTER_ACTION)
    ensures var read := StatusAfterRead(f, raw);
      && Sound(read) && Bookkept(read) && Names(read.progress, STATUS_AFTER_ACTION)
      && Finish(DriverOf(read), SUCCESS, OK, now, STATUS_AFTER_ACTION, Some(BatchOf(read, now)))
         == Complete(DriverOf(f), STATUS_AFTER_ACTION, OK, raw, now)
  {
    hide Accepted, Selected, Contents, DecodeDeviceStatus, ProgramLength, AcquireAction, BuildBatch, Complete, Finish,
      ProgramAction;
    AcquireNames(f, STATUS_AFTER_ACTION);
    CountedSucceeds(f, STATUS_AFTER_ACTION, raw, now);
  }

  /** The terminal result `_finishJob` records. */
  function TerminalResult(progress: JobProgress, fault: ConfigFault, outcome: Outcome, status: Err, now: uint64,
                          batch: Option<SampleBatch>): OperationResult
  {
    OperationResult(progress.operationId, progress.kind, outcome, status, progress.effects, fault,
                    progress.configRevision,
                    now, progress.(active := false), batch)
  }

  /** The batch an acquisition that succeeds publishes. */
  ghost function BatchOf(f: Fields, now: uint64): SampleBatch {
    BuildBatch(f.progress.requestedChannels, f.samples, f.scratch.statusBefore, f.scratch.statusAfter,
               ChannelCountFor(f.config.variant), now, f.revision)
  }

  /** Clearing the job and appending its result is what finishing means. */
  lemma FinishedFields(f: Fields, after: Fields, outcome: Outcome, status: Err, now: uint64, action: Action,
                       batch: Option<SampleBatch>)
    requires RingShape(f) && f.progress.active && Bookkept(f) && Names(f.progress, action)
    requires after == Cleared(f).(slots := after.slots, count := f.count + 1)
    requires after.slots
      == f.slots[Tail(f.head, f.count) := TerminalResult(f.progress, f.fault, outcome, status, now, batch)]
    ensures RingShape(after) && DriverOf(after) == Finish(DriverOf(f), outcome, status, now, action, batch)
  {
    hide ProgramLength, Contents;
    PushAppends(f.slots, f.head, f.count, TerminalResult(f.progress, f.fault, outcome, status, now, batch));
  }

  /** No job, and no trace of the last one. */
  ghost function Cleared(f: Fields): Fields {
    f.(progress := NO_PROGRESS, scratch := NO_SCRATCH, samples := NO_SAMPLES)
  }

  // ----- one whole transfer -------------------------------------------------

  /** A job that has a transfer left to attempt. */
  predicate CanStep(s: System) {
    s.driver.job.Some? && JobInProgram(s.driver)
  }

  /** The parts of one transfer, put together, are a step of the machine. */
  lemma Assembled(script: Script, s: System, now: uint64, timeout: nat, action: Action, status: Err, value: bv16,
                  after: System)
    requires CanStep(s) && action == CurrentAction(s.driver)
    requires status == script(|s.seen.log|).status
    requires value == if action.write then action.value else ReadValue(s.device, action.register)
    requires after.driver == Complete(s.driver, action, status, value, now)
    requires after.device == if action.write then Written(s.device, script(|s.seen.log|), action.register, action.value)
                             else AfterRead(s.device, script(|s.seen.log|), action.register)
    requires after.seen == ObserveResult(
      ObserveTransfer(s.seen, s.device, true, action.write, action.register, value, status, timeout),
      s.device, s.driver, after.driver)
    ensures after == TransferStep(script, s, now, timeout)
  {
    hide Complete, Written, AfterRead, ReadValue, CurrentAction, ObserveTransfer, ObserveResult, MaxTransfers;
  }

  /** A delivered word matters only when the read succeeded. */
  lemma ValueOnlyWhenOk(d: Driver, action: Action, status: Err, delivered: bv16, word: bv16, now: uint64)
    requires d.job.Some? && delivered == if status == OK then word else 0
    ensures Complete(d, action, status, delivered, now) == Complete(d, action, status, word, now)
  {
    hide Fail, SucceedWrite, SucceedAcquire, SucceedIdentity;
  }

  lemma ObservedLog(o: Observer, device: Device, before: Driver, after: Driver)
    ensures ObserveResult(o, device, before, after).log == o.log
  {
    hide PublishedBatch, PublishSelected;
  }

  /** The phase alone tells which read an acquisition stands before; there is
      no fifth phase. */
  lemma PhaseTells(f: Fields)
    requires Sound(f) && f.progress.active && Positioned(f) && f.progress.kind == ACQUIRE
    ensures f.progress.phase == READ_STATUS_BEFORE ==> AtAcquire(f, STATUS_BEFORE_ACTION)
    ensures f.progress.phase == READ_DATA_MSB ==>
      f.scratch.jobChannel < MAX_CHANNELS && AtAcquire(f, MsbAction(f.scratch.jobChannel))
    ensures f.progress.phase == READ_DATA_LSB ==>
      f.scratch.jobChannel < MAX_CHANNELS && AtAcquire(f, LsbAction(f.scratch.jobChannel))
    ensures f.progress.phase == READ_STATUS_AFTER ==> AtAcquire(f, STATUS_AFTER_ACTION)
    ensures f.progress.phase == READ_STATUS_BEFORE || f.progress.phase == READ_DATA_MSB
      || f.progress.phase == READ_DATA_LSB || f.progress.phase == READ_STATUS_AFTER
  {
    hide Accepted, Selected, Contents, AcquireAction;
    AtAcquireFacts(f);
    var mask, k := f.progress.requestedChannels, f.progress.completedTransfers;
    AcquireActionShape(mask, k);
    AcquireAfter(mask, if k == 0 then 0 else (k - 1) / 2);
    FirstRead(mask);
  }

  lemma FirstRead(mask: ChannelMask)
    ensures AcquireAction(mask, 0) == STATUS_BEFORE_ACTION
  {
    hide Selected;
  }

  /** Which part of its program a configuration job stands in. */
  lemma StepTells(f: Fields)
    requires Sound(f) && f.progress.active && Positioned(f) && Trust.IsConfigKind(f.progress.kind)
    ensures f.scratch.jobStep == f.progress.completedTransfers
    ensures f.progress.kind == RESET_AND_REAPPLY || f.progress.kind == APPLY_CONFIG
      || f.scratch.jobStep > 0 || AtIdentity(f.progress)
    ensures f.scratch.jobStep >= ApplyOffset(f.progress.kind) ==>
      var write := ConfigWriteAt(f.config, ChannelCountFor(f.config.variant),
                                 f.scratch.jobStep - ApplyOffset(f.progress.kind));
      write.Some? && AtReplay(f, write.value)
  {
    hide Accepted, Selected, Contents, ConfigWriteAt, ProgramAction, ProgramLength;
    if f.scratch.jobStep >= ApplyOffset(f.progress.kind) {
      ReplayCurrent(f);
    }
  }

  // ----- cancellation and expiry --------------------------------------------

  /** Trust and fault when the job is given up between transfers. */
  ghost function Abandoned(f: Fields, status: Err): Fields {
    if f.progress.kind != ACQUIRE && f.progress.effects.partial then
      f.(applied := if f.applied == UNKNOWN then UNKNOWN else DIRTY,
         fault := RecordFault(status, f.progress.kind, f.scratch.lastWrite, f.progress.effects))
    else f
  }

  lemma AbandonedMeans(f: Fields, outcome: Outcome, status: Err, now: uint64)
    requires Sound(f) && f.progress.active && Positioned(f) && outcome != SUCCESS
    ensures DriverOf(f).job.Some? && JobInProgram(DriverOf(f))
    ensures var voided := Abandoned(f, status);
      && Sound(voided) && Bookkept(voided) && voided.progress.active
      && Names(voided.progress, CurrentAction(DriverOf(f)))
      && Finish(DriverOf(voided), outcome, status, now, CurrentAction(DriverOf(f)), None)
         == Abandon(DriverOf(f), outcome, status, now)
  {
    hide Accepted, ProgramLength, Contents, ProgramAction;
  }

  predicate LastResult(d: Driver, outcome: Outcome, status: Err) {
    d.queue != [] && d.queue[|d.queue| - 1].outcome == outcome && d.queue[|d.queue| - 1].status == status
  }

  lemma FinishedLast(d: Driver, outcome: Outcome, status: Err, now: uint64, action: Action)
    requires d.job.Some?
    ensures LastResult(Finish(d, outcome, status, now, action, None), outcome, status)
  {
    hide MaxTransfers;
  }

  // ----- admission ----------------------------------------------------------

  /** Fields right after an admission. */
  ghost function Started(f: Fields, kind: JobKind, channels: ChannelMask, id: uint64, deadlineMs: uint64,
                         maximum: uint8): Fields {
    var first := if kind == INITIALIZE then MANUFACTURER_ACTION
                 else if kind == APPLY_CONFIG then Action(true, REG_CONFIG, 0, FORCE_SLEEP, NO_CHANNEL)
                 else if kind == RESET_AND_REAPPLY then RESET_ACTION else STATUS_BEFORE_ACTION;
    Cleared(f).(progress := NO_PROGRESS.(
      active := true, operationId := id, kind := kind, phase := first.phase, register := first.register,
      deadlineMs := deadlineMs, maximumTransfers := maximum, requestedChannels := channels,
      configRevision := f.revision))
  }

  lemma StartedMeans(f: Fields, kind: JobKind, channels: ChannelMask, id: uint64, deadlineMs: uint64, maximum: uint8)
    requires Sound(f) && f.bound && f.count < RESULT_CAPACITY && !f.progress.active && kind != NO_JOB
    requires maximum == ProgramLength(kind, f.config, channels) && (kind != ACQUIRE ==> channels == 0)
    ensures var started := Started(f, kind, channels, id, deadlineMs, maximum);
      && Sound(started) && Bookkept(started) && started.progress.active && ValidFields(started)
      && DriverOf(started) == DriverOf(f).(job := Some(NewJob(DriverOf(f), kind, channels, id, deadlineMs)))
  {
    hide Accepted, Contents, Selected, BuildConfigRegister;
    Trust.ReplayFirst(f.config);
    FirstRead(channels);
  }

  lemma ProgramLengths(kind: JobKind, config: Config, channels: ChannelMask)
    ensures kind == INITIALIZE ==>
      ProgramLength(kind, config, channels) == 2 + ConfigurationTransferCount(ChannelCountFor(config.variant))
    ensures kind == APPLY_CONFIG ==>
      ProgramLength(kind, config, channels) == ConfigurationTransferCount(ChannelCountFor(config.variant))
    ensures kind == RESET_AND_REAPPLY ==>
      ProgramLength(kind, config, channels) == 3 + ConfigurationTransferCount(ChannelCountFor(config.variant))
    ensures kind == ACQUIRE ==> ProgramLength(kind, config, channels) == 2 + 2 * |Selected(channels)|
    ensures ConfigurationTransferCount(ChannelCountFor(config.variant)) <= 23
  {
    hide Selected;
  }

  /** The answer of an admission in terms of the fields, for a kind whose own
      gate has already passed. */
  lemma StartAnswers(f: Fields, kind: JobKind, channels: ChannelMask, id: uint64)
    requires Sound(f) && kind != NO_JOB
    requires kind == ACQUIRE ==>
      f.bound && f.applied == APPLIED_ACTIVE && channels != 0 && channels & !f.config.channels == 0
    requires kind == APPLY_CONFIG ==> !(f.bound && f.applied == UNKNOWN)
    ensures StartStatus(DriverOf(f), kind, channels, id) ==
      (if !f.bound then NOT_BOUND else if id == 0 then INVALID_PARAM
       else if IdInUse(DriverOf(f), id) then DUPLICATE_OPERATION_ID
       else if f.progress.active then BUSY
       else if f.count >= RESULT_CAPACITY then RESULT_QUEUE_FULL else IN_PROGRESS)
  {
    hide Accepted, IdInUse;
  }

  lemma StartSplits(s: System, kind: JobKind, channels: ChannelMask, id: uint64, deadlineMs: uint64)
    requires kind != NO_JOB && (kind != ACQUIRE ==> channels == 0)
    ensures StartStatus(s.driver, kind, channels, id) != IN_PROGRESS ==>
      Start(s, kind, channels, id, deadlineMs) == (s, StartStatus(s.driver, kind, channels, id))
    ensures StartStatus(s.driver, kind, channels, id) == IN_PROGRESS ==>
      Start(s, kind, channels, id, deadlineMs) == (AdmittedJob(s, kind, channels, id, deadlineMs), IN_PROGRESS)
  {
    hide StartStatus;
  }

  function AdmittedJob(s: System, kind: JobKind, channels: ChannelMask, id: uint64, deadlineMs: uint64): System {
    s.(driver := s.driver.(job := Some(NewJob(s.driver, kind, channels, id, deadlineMs))),
       seen := s.seen.(admitted := s.seen.admitted +
         [Admission(id, kind, s.driver.config, channels, deadlineMs, s.driver.revision, s.device.regs,
                    s.driver.applied, [])]))
  }
}
