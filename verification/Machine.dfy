/** The abstract job engine: a driver that runs one program of transfers per
    job, the device it drives, and an observer of the run. The driver class is
    proved to refine these functions; the theorems about runs are about them. */
module Machine {
  import opened CommandTable
  import opened Profile
  import opened DriverTypes
  import opened Registers
  import opened Validation
  import opened Decoding
  import opened Chip

  // ----- programs -----------------------------------------------------------

  /** One transfer of a job's program. */
  datatype Action = Action(write: bool, register: int, value: bv16, phase: JobPhase, channel: Channel)

  const RESET_ACTION := Action(true, REG_RESET_DEV, MASK_RESET_DEV, SOFTWARE_RESET, NO_CHANNEL)
  const MANUFACTURER_ACTION := Action(false, REG_MANUFACTURER_ID, MANUFACTURER_ID_VALUE, VERIFY_MANUFACTURER,
                                      NO_CHANNEL)
  const DEVICE_ACTION := Action(false, REG_DEVICE_ID, DEVICE_ID_VALUE, VERIFY_DEVICE, NO_CHANNEL)
  const STATUS_BEFORE_ACTION := Action(false, REG_STATUS, 0, READ_STATUS_BEFORE, NO_CHANNEL)
  const STATUS_AFTER_ACTION := Action(false, REG_STATUS, 0, READ_STATUS_AFTER, NO_CHANNEL)

  function MsbAction(ch: Channel): Action { Action(false, RegDataMsb(ch), 0, READ_DATA_MSB, ch) }
  function LsbAction(ch: Channel): Action { Action(false, RegDataLsb(ch), 0, READ_DATA_LSB, ch) }

  /** Transfers before the replay: identity reads, preceded by the reset. */
  function ApplyOffset(kind: JobKind): nat {
    match kind
    case INITIALIZE => 2
    case RESET_AND_REAPPLY => 3
    case _ => 0
  }

  function ReplayLength(config: Config): nat {
    ConfigurationTransferCount(ChannelCountFor(config.variant))
  }

  function ProgramLength(kind: JobKind, config: Config, mask: ChannelMask): nat {
    if kind == ACQUIRE then 2 + 2 * |Selected(mask)| else ApplyOffset(kind) + ReplayLength(config)
  }

  function ReplayAction(config: Config, step: nat): Action
    requires step < ReplayLength(config)
  {
    var write := ConfigWriteAt(config, ChannelCountFor(config.variant), step).value;
    Action(true, write.register, write.value, write.phase, write.channel)
  }

  function AcquireAction(mask: ChannelMask, k: nat): Action
    requires k < 2 + 2 * |Selected(mask)|
  {
    SelectedAscends(mask);
    if k == 0 then STATUS_BEFORE_ACTION
    else if k == 1 + 2 * |Selected(mask)| then STATUS_AFTER_ACTION
    else if k % 2 == 1 then MsbAction(Selected(mask)[(k - 1) / 2])
    else LsbAction(Selected(mask)[(k - 1) / 2])
  }

  /** The pure program of a job: a function of kind, profile and mask alone. */
  function ProgramAction(kind: JobKind, config: Config, mask: ChannelMask, k: nat): Action
    requires k < ProgramLength(kind, config, mask)
  {
    if kind == ACQUIRE then AcquireAction(mask, k)
    else if k >= ApplyOffset(kind) then ReplayAction(config, k - ApplyOffset(kind))
    else if k == ApplyOffset(kind) - 1 then DEVICE_ACTION
    else if k == ApplyOffset(kind) - 2 then MANUFACTURER_ACTION
    else RESET_ACTION
  }

  function Program(kind: JobKind, config: Config, mask: ChannelMask): seq<Action> {
    seq(ProgramLength(kind, config, mask),
        k requires 0 <= k < ProgramLength(kind, config, mask) => ProgramAction(kind, config, mask, k))
  }

  // ----- driver state -------------------------------------------------------

  /** Where a write went, for fault provenance. */
  datatype Place = Place(phase: JobPhase, register: int, channel: Channel)
  const NO_PLACE := Place(NO_PHASE, INVALID_REGISTER, NO_CHANNEL)

  function PlaceOf(action: Action): Place { Place(action.phase, action.register, action.channel) }

  /** An admitted job. `done` transfers of its program have been attempted. */
  datatype Job = Job(
    id: uint64, kind: JobKind, deadlineMs: uint64, mask: ChannelMask, revision: uint32,
    done: nat, completed: ChannelMask, effects: Effects, lastWrite: Place,
    msb: bv16, before: DeviceStatus, samples: Samples)

  datatype Driver = Driver(
    bound: bool, config: Config, applied: AppliedState, revision: uint32, fault: ConfigFault,
    job: Option<Job>, queue: seq<OperationResult>)

  const UNBOUND := Driver(false, UNSPECIFIED_CONFIG, UNKNOWN, 0, NO_FAULT, None, [])

  function MaxTransfers(d: Driver, job: Job): nat {
    ProgramLength(job.kind, d.config, job.mask)
  }

  /** Progress snapshot naming `action`. */
  function ProgressAt(d: Driver, job: Job, action: Action, active: bool): JobProgress {
    JobProgress(active, job.id, job.kind, action.phase, action.register, action.channel, job.deadlineMs,
                job.done, MaxTransfers(d, job), job.mask, job.completed, job.effects, job.revision)
  }

  function CurrentAction(d: Driver): Action
    requires d.job.Some? && d.job.value.done < MaxTransfers(d, d.job.value)
  {
    var job := d.job.value;
    ProgramAction(job.kind, d.config, job.mask, job.done)
  }

  function RecordFault(cause: Err, kind: JobKind, place: Place, effects: Effects): ConfigFault {
    ConfigFault(true, cause, kind, place.phase, place.register, place.channel, effects)
  }

  // ----- terminal results ---------------------------------------------------

  /** Exactly one result, carrying the job's id, was appended, and the driver is idle. */
  predicate Ended(d: Driver, after: Driver)
    requires d.job.Some?
  {
    && after.job.None? && after.bound == d.bound && after.config == d.config && after.revision == d.revision
    && |after.queue| == |d.queue| + 1 && after.queue[..|d.queue|] == d.queue
    && var r := after.queue[|d.queue|];
    && r.operationId == d.job.value.id && r.kind == d.job.value.kind
    && r.finalProgress.completedTransfers == d.job.value.done
    && r.finalProgress.maximumTransfers == MaxTransfers(d, d.job.value)
  }

  predicate EndedWith(d: Driver, after: Driver, outcome: Outcome, status: Err)
    requires d.job.Some?
  {
    Ended(d, after) && after.queue[|d.queue|].outcome == outcome && after.queue[|d.queue|].status == status
  }

  predicate EndedPlain(d: Driver, after: Driver, outcome: Outcome, status: Err)
    requires d.job.Some?
  {
    EndedWith(d, after, outcome, status) && after.queue[|d.queue|].sampleBatch == None
  }

  /** `_finishJob`: publish one terminal result and go idle. */
  function Finish(d: Driver, outcome: Outcome, status: Err, now: uint64, action: Action, batch: Option<SampleBatch>)
    : (after: Driver)
    requires d.job.Some?
    ensures EndedWith(d, after, outcome, status) && after.queue[|d.queue|].sampleBatch == batch
  {
    var job := d.job.value;
    var result := OperationResult(job.id, job.kind, outcome, status, job.effects, d.fault, job.revision, now,
                                  ProgressAt(d, job, action, false), batch);
    d.(job := None, queue := d.queue + [result])
  }

  /** Cancellation or expiry between transfers. */
  function Abandon(d: Driver, outcome: Outcome, status: Err, now: uint64): Driver
    requires d.job.Some? && d.job.value.done < MaxTransfers(d, d.job.value)
  {
    var job := d.job.value;
    var voided :=
      if job.kind != ACQUIRE && job.effects.partial then
        d.(applied := if d.applied == UNKNOWN then UNKNOWN else DIRTY,
           fault := RecordFault(status, job.kind, job.lastWrite, job.effects))
      else d;
    Finish(voided, outcome, status, now, CurrentAction(d), None)
  }

  // ----- one transfer -------------------------------------------------------

  function WithJob(d: Driver, job: Job): Driver { d.(job := Some(job)) }

  /** Trust after a write that may have reached the device: a reset leaves
      nothing known, a profile write leaves a dirty profile. */
  function DistrustAfter(action: Action): AppliedState {
    if action.register == REG_RESET_DEV then UNKNOWN else DIRTY
  }

  function FailWrite(d: Driver, action: Action, status: Err, now: uint64): (after: Driver)
    requires d.job.Some?
    ensures EndedPlain(d, after, FAILED, status)
  {
    var job := d.job.value;
    var reached := FailureMayHaveReachedDevice(status);
    var effects := if reached then job.effects.(indeterminate := true) else job.effects;
    var marked := WithJob(d, job.(effects := effects));
    var voided :=
      if reached || effects.partial then
        marked.(applied := DistrustAfter(action), fault := RecordFault(status, job.kind, PlaceOf(action), effects))
      else marked;
    Finish(voided, FAILED, status, now, action, None)
  }

  function FailIdentity(d: Driver, action: Action, status: Err, now: uint64): (after: Driver)
    requires d.job.Some?
    ensures EndedPlain(d, after, FAILED, status)
  {
    var job := d.job.value;
    Finish(d.(applied := UNKNOWN, fault := RecordFault(status, job.kind, PlaceOf(action), job.effects)),
           FAILED, status, now, action, None)
  }

  function FailAcquire(d: Driver, action: Action, status: Err, now: uint64): (after: Driver)
    requires d.job.Some?
    ensures EndedPlain(d, after, FAILED, status)
  {
    var job := d.job.value;
    var effects :=
      if action.phase == READ_STATUS_BEFORE && FailureMayHaveReachedDevice(status)
      then job.effects.(read := true) else job.effects;
    Finish(WithJob(d, job.(effects := effects)), FAILED, status, now, action, None)
  }

  function Fail(d: Driver, action: Action, status: Err, now: uint64): (after: Driver)
    requires d.job.Some?
    ensures EndedPlain(d, after, FAILED, status)
  {
    if action.write then FailWrite(d, action, status, now)
    else if d.job.value.kind == ACQUIRE then FailAcquire(d, action, status, now)
    else FailIdentity(d, action, status, now)
  }

  function SucceedWrite(d: Driver, action: Action, now: uint64): Driver
    requires d.job.Some?
  {
    var job := d.job.value;
    var wrote := job.(effects := job.effects.(partial := true), lastWrite := PlaceOf(action));
    if action.register == REG_RESET_DEV then WithJob(d, wrote).(applied := UNKNOWN)
    else if job.done < MaxTransfers(d, job) then WithJob(d, wrote).(applied := APPLYING)
    else Finish(WithJob(d, wrote).(applied := APPLIED_SLEEPING, fault := NO_FAULT), SUCCESS, OK, now, action, None)
  }

  function SucceedIdentity(d: Driver, action: Action, value: bv16, now: uint64): Driver
    requires d.job.Some?
  {
    if value != action.value then FailIdentity(d, action, DEVICE_NOT_FOUND, now)
    else if action.register == REG_DEVICE_ID && d.applied == UNKNOWN then d.(applied := DIRTY)
    else d
  }

  /** The batch published when STATUS-after reads `value`. */
  function FinalBatch(d: Driver, value: bv16, now: uint64): SampleBatch
    requires d.job.Some?
  {
    var job := d.job.value;
    BuildBatch(job.mask, job.samples, job.before, DecodeDeviceStatus(value), ChannelCountFor(d.config.variant), now,
               d.revision)
  }

  function SucceedAcquire(d: Driver, action: Action, value: bv16, now: uint64): Driver
    requires d.job.Some?
  {
    var job := d.job.value.(effects := d.job.value.effects.(read := true));
    match action.phase
    case READ_STATUS_BEFORE => WithJob(d, job.(before := DecodeDeviceStatus(value)))
    case READ_DATA_MSB => WithJob(d, job.(msb := value))
    case READ_DATA_LSB =>
      if action.channel < MAX_CHANNELS
      then WithJob(d, job.(samples := job.samples[action.channel := DecodeChannelSample(job.msb, value)],
                           completed := WithBit(job.completed, action.channel)))
      else WithJob(d, job)
    case _ =>
      Finish(WithJob(d, job), SUCCESS, OK, now, action, Some(FinalBatch(d, value, now)))
  }

  /** The driver after `action` was attempted and reported `status`, `value`. */
  function Complete(d: Driver, action: Action, status: Err, value: bv16, now: uint64): Driver
    requires d.job.Some?
  {
    var counted := WithJob(d, d.job.value.(done := d.job.value.done + 1));
    if status != OK then Fail(counted, action, status, now)
    else if action.write then SucceedWrite(counted, action, now)
    else if d.job.value.kind == ACQUIRE then SucceedAcquire(counted, action, value, now)
    else SucceedIdentity(counted, action, value, now)
  }

  // ----- observer -----------------------------------------------------------

  /** One callback on the wire. `fenced`: both identity registers had been read
      and matched since trust was last void when the callback was issued. */
  datatype Transfer = Transfer(write: bool, register: int, value: bv16, status: Err, byJob: bool, fenced: bool)

  /** One admission with the call's arguments, the registers and trust at that
      moment, and the transfers made for it. */
  datatype Admission = Admission(
    id: uint64, kind: JobKind, config: Config, mask: ChannelMask, deadlineMs: uint64, revision: uint32,
    regs: RegisterFile, applied: AppliedState, wire: seq<Transfer>)

  /** Conversions a channel had made when its unread mark was last cleared
      before a good STATUS read, and at that read. */
  datatype Counts = Counts(cleared: nat, made: nat)

  /** One published sample with the conversions behind it. `serial` numbers the
      conversion its MSB read latched; the counts are the conversions the channel
      had made when it was last cleared before STATUS-before, at STATUS-before,
      at its MSB read and at STATUS-after. */
  datatype Publication = Publication(
    channel: int, sample: ChannelSample, isFresh: bool, isOverrun: bool,
    serial: nat, cleared: nat, atStatus: nat, atMsb: nat, atEnd: nat)

  type StatusCounts = s: seq<Counts> | |s| == MAX_CHANNELS witness NO_COUNTS
  const NO_COUNTS: seq<Counts> := [Counts(0, 0), Counts(0, 0), Counts(0, 0), Counts(0, 0)]

  datatype Observer = Observer(
    log: seq<Transfer>, timeouts: seq<nat>,
    manufacturerSeen: bool, deviceSeen: bool,
    admitted: seq<Admission>, delivered: seq<OperationResult>,
    latched: seq<nat>, converted: seq<nat>, counts: StatusCounts, priorCounts: StatusCounts,
    published: seq<Publication>)

  const NO_OBSERVATIONS := Observer(
    [], [], false, false, [], [], [0, 0, 0, 0], [0, 0, 0, 0], NO_COUNTS, NO_COUNTS, [])

  datatype System = System(driver: Driver, device: Device, seen: Observer)

  type Script = nat -> Choice

  function Voided(o: Observer): Observer { o.(manufacturerSeen := false, deviceSeen := false) }

  /** Identity evidence after one callback, from the wire alone. */
  function ObserveIdentity(o: Observer, byJob: bool, write: bool, register: int, status: Err, value: bv16): Observer {
    if write && register == REG_RESET_DEV && status != I2C_NACK_ADDR then Voided(o)
    else if write || !byJob then o
    else if register == REG_MANUFACTURER_ID then
      if status == OK && value == MANUFACTURER_ID_VALUE then o.(manufacturerSeen := true) else Voided(o)
    else if register == REG_DEVICE_ID then
      if status == OK && value == DEVICE_ID_VALUE then o.(deviceSeen := true) else Voided(o)
    else o
  }

  /** A completed read of a DATA MSB register latches one conversion. */
  predicate LatchesSample(write: bool, register: int, status: Err) {
    !write && status == OK && IsDataMsb(register)
  }

  /** Serial of the conversion each channel's last good MSB read latched. */
  function LatchedAfter(latched: seq<nat>, device: Device, write: bool, register: int, status: Err): seq<nat> {
    if LatchesSample(write, register, status) && |latched| == MAX_CHANNELS
    then latched[register / 2 := device.ch[register / 2].liveSerial] else latched
  }

  /** Conversions each channel had made at its last good MSB read. */
  function ConvertedAfter(converted: seq<nat>, device: Device, write: bool, register: int, status: Err): seq<nat> {
    if LatchesSample(write, register, status) && |converted| == MAX_CHANNELS
    then converted[register / 2 := |device.ch[register / 2].history|] else converted
  }

  /** A good STATUS read, which shows and clears the unread marks. */
  predicate ShowsStatus(write: bool, register: int, status: Err) {
    !write && status == OK && register == REG_STATUS
  }

  function CountsOf(device: Device): StatusCounts {
    seq(MAX_CHANNELS, c requires 0 <= c < MAX_CHANNELS => Counts(device.ch[c].clearedAt, |device.ch[c].history|))
  }

  function ObserveTransfer(o: Observer, device: Device, byJob: bool, write: bool, register: int, value: bv16,
                           status: Err, timeout: nat): Observer
  {
    var transfer := Transfer(write, register, value, status, byJob, o.manufacturerSeen && o.deviceSeen);
    var logged := o.(
      log := o.log + [transfer], timeouts := o.timeouts + [timeout],
      latched := LatchedAfter(o.latched, device, write, register, status),
      converted := ConvertedAfter(o.converted, device, write, register, status),
      counts := if ShowsStatus(write, register, status) then CountsOf(device) else o.counts,
      priorCounts := if ShowsStatus(write, register, status) then o.counts else o.priorCounts,
      admitted := if byJob && o.admitted != [] then
          o.admitted[|o.admitted| - 1 := o.admitted[|o.admitted| - 1]
            .(wire := o.admitted[|o.admitted| - 1].wire + [transfer])]
        else o.admitted);
    ObserveIdentity(logged, byJob, write, register, status, value)
  }

  function Publish(batch: SampleBatch, device: Device, latched: seq<nat>, converted: seq<nat>, counts: StatusCounts,
                   ch: int): Publication
    requires |latched| == MAX_CHANNELS && |converted| == MAX_CHANNELS && 0 <= ch < MAX_CHANNELS
  {
    Publication(ch, batch.channel[ch], Has(batch.freshChannels, ch), Has(batch.overrunChannels, ch),
                latched[ch], counts[ch].cleared, counts[ch].made, converted[ch], |device.ch[ch].history|)
  }

  function PublishSelected(batch: SampleBatch, device: Device, latched: seq<nat>, converted: seq<nat>,
                           counts: StatusCounts): seq<Publication>
    requires |latched| == MAX_CHANNELS && |converted| == MAX_CHANNELS
  {
    SelectedAscends(batch.selectedChannels);
    seq(|Selected(batch.selectedChannels)|, i requires 0 <= i < |Selected(batch.selectedChannels)| =>
      Publish(batch, device, latched, converted, counts, Selected(batch.selectedChannels)[i]))
  }

  /** The batch a job's end published, if it published one. */
  function PublishedBatch(before: Driver, after: Driver): Option<SampleBatch> {
    if before.job.Some? && after.job.None? && after.queue != []
    then after.queue[|after.queue| - 1].sampleBatch else None
  }

  /** Publications a terminal result adds. */
  function ObserveResult(o: Observer, device: Device, before: Driver, after: Driver): Observer {
    if PublishedBatch(before, after).Some? && |o.latched| == MAX_CHANNELS && |o.converted| == MAX_CHANNELS
    then o.(published := o.published
      + PublishSelected(PublishedBatch(before, after).value, device, o.latched, o.converted, o.priorCounts))
    else o
  }

  // ----- transfers over the wire --------------------------------------------

  /** Attempt the next transfer of the active job. Conversions the adversary
      schedules after the transfer land in the device, not in this result. */
  function TransferStep(script: Script, s: System, now: uint64, timeout: nat): System
    requires s.driver.job.Some? && s.driver.job.value.done < MaxTransfers(s.driver, s.driver.job.value)
  {
    var action := CurrentAction(s.driver);
    var choice := script(|s.seen.log|);
    var value := if action.write then action.value else ReadValue(s.device, action.register);
    var device := if action.write then Written(s.device, choice, action.register, action.value)
                  else AfterRead(s.device, choice, action.register);
    var driver := Complete(s.driver, action, choice.status, value, now);
    var seen := ObserveTransfer(s.seen, s.device, true, action.write, action.register, value, choice.status, timeout);
    System(driver, device, ObserveResult(seen, s.device, s.driver, driver))
  }

  function Transfers(script: Script, s: System, now: uint64, timeout: nat, remaining: nat): System
    requires JobInProgram(s.driver)
    decreases remaining
  {
    if remaining == 0 || s.driver.job.None? then s
    else
      StepKeepsProgram(script, s, now, timeout);
      Transfers(script, TransferStep(script, s, now, timeout), now, timeout, remaining - 1)
  }

  /** An active job has an attempt left. */
  predicate JobInProgram(d: Driver) {
    d.job.Some? ==> d.job.value.done < MaxTransfers(d, d.job.value) && d.job.value.kind != NO_JOB
  }

  /** Replay writes are profile writes: never a reset, CONFIG only at step 0. */
  lemma ReplayActionShape(config: Config, step: nat)
    requires step < ReplayLength(config)
    ensures var action := ReplayAction(config, step);
      && action.write && 0x08 <= action.register <= 0x21
      && action.register != REG_RESET_DEV && action.register != REG_STATUS
      && (action.register == REG_CONFIG <==> step == 0)
  {
    hide BuildConfigRegister, BuildMuxConfigRegister, EncodeErrorReporting, ChannelWrite;
    ReplayRegistersDistinct(config, ChannelCountFor(config.variant), step);
  }

  lemma AcquireActionShape(mask: ChannelMask, k: nat)
    requires k < 2 + 2 * |Selected(mask)|
    ensures var action := AcquireAction(mask, k);
      && !action.write
      && (action.phase == READ_STATUS_BEFORE <==> k == 0)
      && (action.phase == READ_STATUS_AFTER <==> k == 1 + 2 * |Selected(mask)|)
      && (k == 0 || k == 1 + 2 * |Selected(mask)| ==> action.register == REG_STATUS && action.channel == NO_CHANNEL)
      && (0 < k < 1 + 2 * |Selected(mask)| ==>
           && 0 <= action.channel < MAX_CHANNELS && action.channel == Selected(mask)[(k - 1) / 2]
           && Has(mask, action.channel)
           && action.phase == (if k % 2 == 1 then READ_DATA_MSB else READ_DATA_LSB)
           && action.register == (if k % 2 == 1 then RegDataMsb(action.channel) else RegDataLsb(action.channel)))
  {
    hide Selected, Has;
    SelectedAscends(mask);
  }

  /** The job goes on: nothing but its own progress, data and trust changed. */
  predicate Continues(d: Driver, after: Driver)
    requires d.job.Some?
  {
    && after.job.Some? && after.bound == d.bound && after.config == d.config && after.revision == d.revision
    && after.queue == d.queue
    && var old_, new_ := d.job.value, after.job.value;
    && new_.done == old_.done && new_.id == old_.id && new_.kind == old_.kind && new_.mask == old_.mask
    && new_.deadlineMs == old_.deadlineMs && new_.revision == old_.revision
  }

  predicate IsMiddleOfAcquisition(action: Action) {
    action.phase == READ_STATUS_BEFORE || action.phase == READ_DATA_MSB || action.phase == READ_DATA_LSB
  }

  lemma WriteGoesOn(d: Driver, action: Action, now: uint64)
    requires d.job.Some?
    ensures var after := SucceedWrite(d, action, now);
      if action.register == REG_RESET_DEV || d.job.value.done < MaxTransfers(d, d.job.value)
      then Continues(d, after) else EndedPlain(d, after, SUCCESS, OK)
  {
    hide ProgramLength, ProgressAt, Finish;
  }

  lemma ReadGoesOn(d: Driver, action: Action, value: bv16, now: uint64)
    requires d.job.Some?
    ensures var after := SucceedAcquire(d, action, value, now);
      if IsMiddleOfAcquisition(action) then Continues(d, after)
      else EndedWith(d, after, SUCCESS, OK) && after.queue[|d.queue|].sampleBatch == Some(FinalBatch(d, value, now))
  {
    hide BuildBatch, DecodeDeviceStatus, DecodeChannelSample, ProgramLength, ProgressAt, Finish, WithBit;
  }

  lemma IdentityGoesOn(d: Driver, action: Action, value: bv16, now: uint64)
    requires d.job.Some?
    ensures var after := SucceedIdentity(d, action, value, now);
      if value == action.value then Continues(d, after) else EndedPlain(d, after, FAILED, DEVICE_NOT_FOUND)
  {
    hide ProgramLength, ProgressAt, FailIdentity;
  }

  /** One attempt either ends the job or advances it by exactly one transfer,
      and which of the two depends on status, action and progress alone. */
  lemma CompleteAdvances(d: Driver, action: Action, status: Err, value: bv16, now: uint64)
    requires d.job.Some?
    ensures var counted := WithJob(d, d.job.value.(done := d.job.value.done + 1));
      var after := Complete(d, action, status, value, now);
      if status != OK then EndedPlain(counted, after, FAILED, status)
      else if action.write then
        (if action.register == REG_RESET_DEV || d.job.value.done + 1 < MaxTransfers(d, d.job.value)
         then Continues(counted, after) else EndedPlain(counted, after, SUCCESS, OK))
      else if d.job.value.kind == ACQUIRE then
        (if IsMiddleOfAcquisition(action) then Continues(counted, after)
         else
           && EndedWith(counted, after, SUCCESS, OK)
           && after.queue[|d.queue|].sampleBatch == Some(FinalBatch(d, value, now)))
      else
        (if value == action.value then Continues(counted, after)
         else EndedPlain(counted, after, FAILED, DEVICE_NOT_FOUND))
  {
    hide ProgramLength, Fail, SucceedWrite, SucceedIdentity, SucceedAcquire, EndedPlain, EndedWith, Ended, Continues,
      BuildBatch, DecodeDeviceStatus;
    var counted := WithJob(d, d.job.value.(done := d.job.value.done + 1));
    WriteGoesOn(counted, action, now);
    ReadGoesOn(counted, action, value, now);
    IdentityGoesOn(counted, action, value, now);
  }

  lemma StepKeepsProgram(script: Script, s: System, now: uint64, timeout: nat)
    requires s.driver.job.Some? && JobInProgram(s.driver)
    ensures JobInProgram(TransferStep(script, s, now, timeout).driver)
  {
    hide Complete, ReplayAction, AcquireAction, ObserveResult, ObserveTransfer, Written, AfterRead, ReadValue, Selected;
    var job := s.driver.job.value;
    var action := CurrentAction(s.driver);
    var choice := script(|s.seen.log|);
    var value := if action.write then action.value else ReadValue(s.device, action.register);
    CompleteAdvances(s.driver, action, choice.status, value, now);
    if job.kind == ACQUIRE {
      AcquireActionShape(job.mask, job.done);
    } else if job.done >= ApplyOffset(job.kind) {
      ReplayActionShape(s.driver.config, job.done - ApplyOffset(job.kind));
    }
  }

  // ----- deadlines ----------------------------------------------------------

  function WrappedDifference(a: uint64, b: uint64): uint64 {
    (a - b) % TWO_TO_THE_64
  }

  /** `dueOrPast`: unsigned 64-bit subtraction compared with 2^63. */
  predicate DueOrPast(nowMs: uint64, deadlineMs: uint64) {
    WrappedDifference(nowMs, deadlineMs) < TWO_TO_THE_63
  }

  function Min(a: nat, b: nat): nat { if a < b then a else b }

  function PollBudget(d: Driver, now: uint64, maxTransfers: uint8): nat
    requires d.job.Some? && JobInProgram(d)
  {
    var job := d.job.value;
    Min(Min(maxTransfers, MaxTransfers(d, job) - job.done), WrappedDifference(job.deadlineMs, now))
  }

  function PollTimeout(d: Driver, now: uint64, maxTransfers: uint8): nat
    requires d.job.Some? && JobInProgram(d)
    requires PollBudget(d, now, maxTransfers) > 0
  {
    Min(WrappedDifference(d.job.value.deadlineMs, now) / PollBudget(d, now, maxTransfers), d.config.i2cTimeoutMs)
  }
}
