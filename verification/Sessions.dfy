/** The diagnostic sessions of the CLI: their records, what their counters and
    reports mean, and why every step keeps that meaning. */
module DiagnosticSessions {
  import opened CommandTable
  import opened Profile
  import opened DriverTypes
  import opened Registers
  import opened Validation
  import opened Decoding
  import opened Chip
  import opened Machine
  import opened Engine
  import opened Trust
  import opened CliDevice
  import opened Readback
  import opened RegisterLists

  // ----- records ------------------------------------------------------------

  datatype OperationOwner = NO_OWNER | COMMAND | SESSION

  datatype PendingOperation = PendingOperation(owner: OperationOwner, id: uint64, kind: JobKind)
  const NO_PENDING := PendingOperation(NO_OWNER, 0, NO_JOB)

  datatype SessionKind =
    | NO_SESSION_KIND | PROBE | DISCOVER | DUMP_CONFIG | DUMP_ALL | VERIFY | WATCH | SAMPLE_RATE
    | STRESS | STRESS_MIX | STRESS_ID | STRESS_RESET | STRESS_BUS_FREQ | SOAK | SELF_TEST

  datatype SessionPhase =
    | NO_SESSION_PHASE | WAIT_INTERVAL | SAMPLE_READY | WAIT_ACQUIRE | PROBE_MANUFACTURER | PROBE_DEVICE
    | DISCOVER_MANUFACTURER | DISCOVER_DEVICE | DUMP_REGISTER | VERIFY_REGISTER
    | MIX_STATUS | MIX_READY | MIX_INTB | MIX_INIT_DRIVE | MIX_ACQUIRE
    | SELF_PURE | SELF_MANUFACTURER | SELF_DEVICE | SELF_STATUS | SELF_READY | SELF_INTB | SELF_INIT_DRIVE
    | SELF_VERIFY | SELF_ACQUIRE | STRESS_ID_MANUFACTURER | STRESS_ID_DEVICE
    | STRESS_RESET_SCHEDULE | STRESS_BUS_FREQ_SWITCH | STRESS_BUS_FREQ_RESTORE

  datatype SessionStats = SessionStats(requested: nat, completed: nat, passed: nat, failed: nat, skipped: nat,
                                       startedMs: uint64)

  datatype Session = Session(
    kind: SessionKind, phase: SessionPhase, channels: ChannelMask, count: nat, index: nat, periodMs: nat,
    nextDueMs: uint64, readyDeadlineMs: uint64, channel: nat, physicalChannel: nat,
    discoveryAddress: uint8, discoveryMatched: nat, registerIndex: nat, iterationFailed: bool, stopRequested: bool,
    manufacturerId: bv16, deviceId: bv16, initialFrequencyHz: nat, stats: SessionStats)
  const NO_STATS := SessionStats(0, 0, 0, 0, 0, 0)
  const NO_SESSION := Session(
    NO_SESSION_KIND, NO_SESSION_PHASE, 0, 0, 0, 0, 0, 0, 0, 0, FIRST_LDC_ADDRESS, 0, 0, false, false, 0, 0, 0, NO_STATS)

  /** Items of the running session that went well and that did not: samples,
      resets, switches, reads and compared registers. */
  datatype Tally = Tally(good: nat, bad: nat) {
    ghost function More(well: bool): Tally {
      if well then Tally(good + 1, bad) else Tally(good, bad + 1)
    }
  }

  datatype BusInfo = BusInfo(isOpen: bool, frequencyHz: nat)

  datatype PromptAction = PROMPT_NONE | PROMPT_PRINT

  /** A parsed command line, by what it asks the scheduler to do. */
  datatype Command =
    | LocalCommand(allowedWhileBusy: bool)
    | JobCommand(kind: JobKind, channels: ChannelMask, deadlineMs: nat)
    | SessionCommand(session: SessionKind, count: nat, mask: ChannelMask, periodMs: nat, channel: nat)
    | CancelCommand
    | BindCommand(profile: Config)
    | EndCommand
    | UpdateCommand(desired: Config)
    | SleepCommand
    | WakeCommand
    | StatusCommand
    | ReadyCommand
    | InitDriveCommand(index: nat)
    | RegisterReadCommand(register: uint8)
    | RegisterWriteCommand(target: uint8, value: bv16)
    | InvalidateCommand
    | FrequencyCommand(requestedHz: nat)

  datatype SessionOutcome = SESSION_SUCCESS | SESSION_FAILED | SESSION_CANCELLED

  /** What `finishSession` reports, with the world as it was at that moment. */
  datatype Report = Report(
    kind: SessionKind, outcome: SessionOutcome, stats: SessionStats, initialFrequencyHz: nat, discoveryMatched: nat,
    bus: BusInfo, applied: AppliedState, part: Option<DeviceVariant>, tally: Tally)

  const JOB_DEADLINE_MS := 2000
  const FIRST_LDC_ADDRESS := 0x2A
  const LAST_LDC_ADDRESS := 0x2B
  const STRESS_LOW_I2C_FREQUENCY_HZ := 100_000
  const MAX_I2C_FREQUENCY_HZ := 400_000

  /** What the platform answers during one call: clock readings, what a
      frequency change does, what discovery and INTB callbacks return, and the
      frequency arithmetic of a sample. */
  datatype World = World(
    now: uint64, later: uint64, setStatus: Err, busAfter: BusInfo,
    canDiscover: bool, discoverStatus: Err, discoverValue: bv16,
    intbConfigured: bool, intbStatus: Err, intbAsserted: bool,
    frequencyOk: bool, withinBounds: bool)

  ghost function ReportOf(s: Session, outcome: SessionOutcome, bus: BusInfo, d: Driver, tally: Tally): Report {
    Report(s.kind, outcome, s.stats, s.initialFrequencyHz, s.discoveryMatched, bus, d.applied, PartOf(d), tally)
  }

  // ----- what the session counters mean -------------------------------------

  predicate IsSampling(kind: SessionKind) {
    kind == WATCH || kind == SAMPLE_RATE || kind == STRESS || kind == STRESS_MIX || kind == SOAK
  }

  /** Sessions that run a requested number of iterations. */
  predicate IsCounted(kind: SessionKind) {
    kind == WATCH || kind == SAMPLE_RATE || kind == STRESS || kind == STRESS_MIX
    || kind == STRESS_ID || kind == STRESS_RESET || kind == STRESS_BUS_FREQ
  }

  /** Sessions whose every completed item passed or failed. */
  predicate IsAccounted(kind: SessionKind) {
    IsCounted(kind) || kind == SOAK || kind == DUMP_CONFIG || kind == DUMP_ALL
  }

  predicate StatsBalance(kind: SessionKind, s: SessionStats) {
    && (IsAccounted(kind) ==> s.completed == s.passed + s.failed)
    && (kind == VERIFY ==> s.completed == s.passed + s.failed + s.skipped)
    && (IsCounted(kind) ==> s.completed <= s.requested)
  }

  /** Items the counters do not call passed. */
  function Unclean(kind: SessionKind, s: SessionStats): nat { s.failed + (if kind == VERIFY then s.skipped else 0) }

  /** The counters tell how many items went well and how many did not. */
  predicate Tallied(kind: SessionKind, s: SessionStats, t: Tally) { s.passed == t.good && Unclean(kind, s) == t.bad }

  /** A failed restore of the bus frequency is no iteration, but still an item
      that went wrong. */
  predicate ReportTallied(r: Report) {
    && r.stats.passed == r.tally.good && Unclean(r.kind, r.stats) <= r.tally.bad
    && (r.kind != STRESS_BUS_FREQ ==> Tallied(r.kind, r.stats, r.tally))
    && (r.outcome == SESSION_SUCCESS ==> r.tally.bad == 0)
    && (r.outcome == SESSION_FAILED && r.kind != DISCOVER ==> r.tally.bad > 0)
    && (r.outcome == SESSION_SUCCESS && r.kind == DISCOVER ==> r.discoveryMatched > 0)
  }

  predicate ReportOk(r: Report) {
    && StatsBalance(r.kind, r.stats) && ReportTallied(r)
    && (r.outcome == SESSION_SUCCESS ==> r.stats.failed == 0)
    && (r.outcome == SESSION_SUCCESS && IsCounted(r.kind) ==> r.stats.completed == r.stats.requested)
    && (r.outcome == SESSION_SUCCESS && r.kind == STRESS_BUS_FREQ ==>
         r.bus.isOpen && r.bus.frequencyHz == r.initialFrequencyHz && r.applied == APPLIED_SLEEPING)
    && (r.outcome == SESSION_SUCCESS && r.kind == VERIFY ==>
         && r.part.Some? && r.stats.skipped == 0
         && r.stats.passed == ConfigurationTransferCount(ChannelCountFor(r.part.value)))
    && (r.outcome == SESSION_SUCCESS && (r.kind == DUMP_CONFIG || r.kind == DUMP_ALL) ==>
         && r.part.Some?
         && r.stats.passed == AvailableBefore(r.part.value, WalkList(r.kind), |WalkList(r.kind)|))
  }

  /** The driver job a session of `kind` waits for. */
  function AwaitedJob(kind: SessionKind): JobKind {
    if kind == STRESS_RESET then RESET_AND_REAPPLY else if kind == STRESS_BUS_FREQ then INITIALIZE else ACQUIRE
  }

  /** Sessions that walk a list of registers, one read a step. */
  predicate IsWalk(kind: SessionKind) { kind == VERIFY || kind == DUMP_CONFIG || kind == DUMP_ALL }

  function WalkList(kind: SessionKind): seq<uint8> { if kind == DUMP_ALL then ALL_REGISTERS else CONFIG_REGISTERS }

  /** Each register the part has was counted once, as far as the walk got. */
  predicate WalkInv(s: Session, variant: DeviceVariant) {
    && variant != VARIANT_UNSPECIFIED && s.registerIndex <= |WalkList(s.kind)|
    && s.stats.completed == AvailableBefore(variant, WalkList(s.kind), s.registerIndex)
  }

  /** One more item, failed. */
  function OneMoreFailed(s: Session): Session {
    s.(stats := s.stats.(completed := s.stats.completed + 1, failed := s.stats.failed + 1))
  }

  // Observations of the idle device: what each leaves behind and answers.

  /** `readDataReady`: an unasserted INTB answers without a transfer. */
  ghost function ReadyObservation(script: Script, device: System, world: World): (System, Err) {
    var d := device.driver;
    if !d.bound then (device, NOT_BOUND)
    else if !d.config.errorReporting.dataReady then (device, INVALID_CONFIG)
    else if d.applied != APPLIED_ACTIVE then (device, CONFIG_DIRTY)
    else if world.intbConfigured && !d.config.intbDisabled && world.intbStatus != OK then (device, world.intbStatus)
    else if world.intbConfigured && !d.config.intbDisabled && !world.intbAsserted then (device, OK)
    else
      var (after, status, value) := Engine.ReadRegister16(script, device, REG_STATUS);
      (after, status)
  }

  function IntbObservation(d: Driver, world: World): Err {
    if !d.bound then NOT_BOUND
    else if !world.intbConfigured || d.config.intbDisabled then INVALID_CONFIG
    else world.intbStatus
  }

  ghost function InitDriveObservation(script: Script, device: System, channel: nat): (System, Err) {
    if !device.driver.bound then (device, NOT_BOUND)
    else if channel >= ChannelCountFor(device.driver.config.variant) then (device, INVALID_PARAM)
    else
      var (after, status, value) := Engine.ReadRegister16(script, device, RegDriveCurrent(channel));
      (after, status)
  }

  function AfterMix(phase: SessionPhase): SessionPhase {
    match phase
    case MIX_STATUS => MIX_READY
    case MIX_READY => MIX_INTB
    case MIX_INTB => MIX_INIT_DRIVE
    case MIX_INIT_DRIVE => MIX_ACQUIRE
    case _ => phase
  }

  /** One more item in the counters. */
  ghost function OneMore(s: Session, well: bool): Session {
    s.(stats := s.stats.(completed := s.stats.completed + 1,
                         passed := s.stats.passed + (if well then 1 else 0),
                         failed := s.stats.failed + (if well then 0 else 1)))
  }

  /** A missing INTB is skipped; any other trouble fails the iteration. */
  function Mixed(s: Session, status: Err): Session {
    var skip := s.phase == MIX_INTB && status == INVALID_CONFIG;
    s.(stats := s.stats.(skipped := s.stats.skipped + (if skip then 1 else 0)),
       iterationFailed := s.iterationFailed || (status != OK && !skip), phase := AfterMix(s.phase))
  }

  lemma MixedBalances(s: Session, status: Err, part: Option<DeviceVariant>, bus: BusInfo)
    requires SessionInv(s, false, part, bus) && s.kind == STRESS_MIX
    ensures SessionInv(Mixed(s, status), false, part, bus)
  {
  }

  lemma MixFailedBalances(s: Session, part: Option<DeviceVariant>, bus: BusInfo)
    requires SessionInv(s, false, part, bus) && s.kind == STRESS_MIX && s.stats.completed < s.stats.requested
    ensures SessionInv(MixFailed(s), false, part, bus)
  {
  }

  /** A refused acquisition fails its iteration; the next one starts. */
  function MixFailed(s: Session): Session {
    OneMoreFailed(s).(iterationFailed := false, index := s.index + 1, phase := MIX_STATUS)
  }

  /** Where a result of the bus-frequency stress takes the session. */
  function FrequencyCounted(s: Session, success: bool): Session {
    if success then
      s.(stats := s.stats.(completed := s.stats.completed + 1, passed := s.stats.passed + 1), index := s.index + 1,
         phase := if s.index + 1 >= s.count then STRESS_BUS_FREQ_RESTORE else STRESS_BUS_FREQ_SWITCH)
    else OneMoreFailed(s).(phase := STRESS_BUS_FREQ_RESTORE)
  }

  lemma FrequencyBalances(s: Session, success: bool, part: Option<DeviceVariant>, bus: BusInfo)
    requires s.kind == STRESS_BUS_FREQ && SessionInv(s, true, part, bus) && s.phase == STRESS_BUS_FREQ_SWITCH
    ensures SessionInv(FrequencyCounted(s, success), false, part, bus)
  {
    hide StressFrequency;
  }

  /** A restored run with no failure has run every requested iteration. */
  lemma FrequencyReport(s: Session, part: Option<DeviceVariant>, bus: BusInfo, d: Driver, tally: Tally)
    requires s.kind == STRESS_BUS_FREQ && SessionInv(s, true, part, bus) && s.phase == STRESS_BUS_FREQ_RESTORE
    requires s.stats.failed == 0 && d.applied == APPLIED_SLEEPING && Tallied(s.kind, s.stats, tally)
    ensures ReportOk(ReportOf(s, SESSION_SUCCESS, bus, d, tally))
  {
    hide WalkInv, AvailableBefore;
  }

  /** One more item may still be counted. */
  predicate HasRoom(s: Session) { IsCounted(s.kind) ==> s.stats.completed < s.stats.requested }

  lemma AcquireBalances(s: Session, part: Option<DeviceVariant>, bus: BusInfo)
    requires SessionInv(s, false, part, bus) && IsSampling(s.kind) && HasRoom(s)
    ensures SessionInv(s, true, part, bus) && AwaitedJob(s.kind) == ACQUIRE
  {
    hide StatsBalance;
  }

  /** Counting the result of a busy session keeps the accounting, unless the
      first failure ends it. */
  lemma CountedBalances(s: Session, next: Session, well: bool, part: Option<DeviceVariant>, bus: BusInfo)
    requires SessionInv(s, true, part, bus) && (IsSampling(s.kind) || s.kind == STRESS_RESET)
    requires next.kind == s.kind && next.count == s.count && next.stats == OneMore(s, well).stats
    requires StopsAtFailure(s.kind) ==> well
    requires s.kind == STRESS_RESET ==> next.index == s.index + 1
    ensures SessionInv(next, false, part, bus)
  {
    hide WalkInv, StressFrequency;
  }

  lemma TalliedMore(s: Session, t: Tally, well: bool)
    requires Tallied(s.kind, s.stats, t)
    ensures Tallied(s.kind, OneMore(s, well).stats, t.More(well))
  {
  }

  /** A failure that ends a counted session reports balanced counters. */
  lemma FailureReports(s: Session, t: Tally, busy: bool, part: Option<DeviceVariant>, bus: BusInfo, d: Driver)
    requires SessionInv(s, busy, part, bus) && (IsSampling(s.kind) || IsCounted(s.kind)) && HasRoom(s)
    requires Tallied(s.kind, s.stats, t)
    ensures var failed := OneMore(s, false);
      && StatsBalance(s.kind, failed.stats)
      && ReportTallied(ReportOf(failed, SESSION_FAILED, bus, d, t.More(false)))
  {
    hide WalkInv, StressFrequency;
  }

  lemma BusyRoom(s: Session, part: Option<DeviceVariant>, bus: BusInfo)
    requires SessionInv(s, true, part, bus) && IsCounted(s.kind) && s.kind != STRESS_BUS_FREQ
    ensures HasRoom(s)
  {
    hide WalkInv, StressFrequency, StatsBalance;
  }

  /** A report reads the counters of a session and not its progress. */
  lemma ReportCounts(s: Session, other: Session, bus: BusInfo, d: Driver, tally: Tally)
    requires other == s.(index := other.index, phase := other.phase, readyDeadlineMs := other.readyDeadlineMs,
                         stopRequested := other.stopRequested)
    ensures ReportOf(other, SESSION_FAILED, bus, d, tally) == ReportOf(s, SESSION_FAILED, bus, d, tally)
    ensures ReportOf(other, SESSION_CANCELLED, bus, d, tally) == ReportOf(s, SESSION_CANCELLED, bus, d, tally)
  {
  }

  lemma FailureCounts(s: Session, other: Session, bus: BusInfo, d: Driver, tally: Tally)
    requires other == s.(phase := other.phase, readyDeadlineMs := other.readyDeadlineMs)
    ensures ReportOf(OneMore(other, false), SESSION_FAILED, bus, d, tally)
      == ReportOf(OneMore(s, false), SESSION_FAILED, bus, d, tally)
  {
  }

  lemma RetryBalances(s: Session, part: Option<DeviceVariant>, bus: BusInfo)
    requires s.kind == SAMPLE_RATE && SessionInv(s, true, part, bus)
    ensures SessionInv(s.(phase := SAMPLE_READY), false, part, bus)
  {
    hide StatsBalance;
  }

  lemma MixFailedCounts(s: Session, t: Tally)
    requires Tallied(s.kind, s.stats, t)
    ensures MixFailed(s) == OneMore(s, false).(iterationFailed := false, index := s.index + 1, phase := MIX_STATUS)
    ensures MixFailed(s).kind == s.kind && Tallied(s.kind, MixFailed(s).stats, t.More(false))
  {
  }

  lemma MixedTallies(s: Session, status: Err, t: Tally)
    requires s.kind == STRESS_MIX && Tallied(s.kind, s.stats, t)
    ensures Tallied(s.kind, Mixed(s, status).stats, t)
  {
  }

  /** The one item of a probe is the identity. */
  lemma ProbeReports(s: Session, t: Tally, passed: bool, completed: nat, part: Option<DeviceVariant>, bus: BusInfo,
                     d: Driver)
    requires s.kind == PROBE && SessionInv(s, false, part, bus) && Tallied(s.kind, s.stats, t)
    ensures var ended := s.(stats := s.stats.(completed := completed,
                                              passed := s.stats.passed + (if passed then 1 else 0),
                                              failed := s.stats.failed + (if passed then 0 else 1)));
      && StatsBalance(s.kind, ended.stats) && Tallied(s.kind, ended.stats, t.More(passed))
      && (passed ==> SessionInv(ended, false, part, bus)
                     && ReportOk(ReportOf(ended, SESSION_SUCCESS, bus, d, t.More(true))))
      && (!passed ==> ReportTallied(ReportOf(ended, SESSION_FAILED, bus, d, t.More(false))))
  {
    hide WalkInv, StressFrequency;
  }

  /** A reset stress that came through every iteration never failed. */
  lemma ResetReports(s: Session, t: Tally, part: Option<DeviceVariant>, bus: BusInfo, d: Driver)
    requires s.kind == STRESS_RESET && SessionInv(s, false, part, bus) && Tallied(s.kind, s.stats, t)
    requires s.index >= s.count
    ensures ReportOk(ReportOf(s, SESSION_SUCCESS, bus, d, t))
  {
    hide WalkInv, StressFrequency, AvailableBefore;
  }

  lemma ResetBalances(s: Session, part: Option<DeviceVariant>, bus: BusInfo)
    requires s.kind == STRESS_RESET && SessionInv(s, false, part, bus) && s.index < s.count
    ensures SessionInv(s, true, part, bus) && HasRoom(s)
  {
    hide WalkInv, StressFrequency, StatsBalance;
  }

  lemma NotBusy(s: Session, part: Option<DeviceVariant>, bus: BusInfo)
    requires SessionInv(s, true, part, bus)
    ensures SessionInv(s, false, part, bus) && StatsBalance(s.kind, s.stats)
  {
    hide WalkInv, StressFrequency, StatsBalance;
  }

  /** Only sessions with operations of their own are ever busy. */
  lemma BusyKinds(s: Session, part: Option<DeviceVariant>, bus: BusInfo)
    requires SessionInv(s, true, part, bus) && s.kind != NO_SESSION_KIND
    ensures IsSampling(s.kind) || s.kind == STRESS_RESET || s.kind == STRESS_BUS_FREQ || s.kind == SELF_TEST
  {
    hide WalkInv, StressFrequency, StatsBalance;
  }

  /** Asking a session to stop changes nothing it counts. */
  lemma StopBalances(s: Session, busy: bool, part: Option<DeviceVariant>, bus: BusInfo)
    requires SessionInv(s, busy, part, bus)
    ensures SessionInv(s.(stopRequested := true), busy, part, bus)
  {
    hide AvailableBefore, StatsBalance;
  }

  /** Only a busy session looks at the bus. */
  lemma FrequencyReady(s: Session, part: Option<DeviceVariant>, bus: BusInfo, after: BusInfo)
    requires s.kind == STRESS_BUS_FREQ && SessionInv(s, false, part, bus)
    requires s.phase == STRESS_BUS_FREQ_SWITCH ==> s.index < s.count
    ensures SessionInv(s, false, part, after)
    ensures after.isOpen && after.frequencyHz == StressFrequency(s) ==> SessionInv(s, true, part, after)
  {
    hide StressFrequency;
  }

  lemma FrequencyPhase(s: Session, busy: bool, part: Option<DeviceVariant>, bus: BusInfo)
    requires s.kind == STRESS_BUS_FREQ && SessionInv(s, busy, part, bus)
    ensures s.phase == STRESS_BUS_FREQ_SWITCH || s.phase == STRESS_BUS_FREQ_RESTORE
  {
    hide StressFrequency, StatsBalance;
  }

  /** An identity iteration still to count leaves room for it. */
  lemma IdentityRoom(s: Session, part: Option<DeviceVariant>, bus: BusInfo)
    requires s.kind == STRESS_ID && SessionInv(s, false, part, bus)
    ensures s.index < s.count <==> HasRoom(s)
    ensures s.index < s.count <==> s.stats.completed < s.stats.requested
  {
    hide StatsBalance;
  }

  /** A dumped register counts as passed or failed. */
  function Dumped(s: Session, index: nat, read: bool): Session {
    s.(registerIndex := index + 1,
       stats := s.stats.(completed := s.stats.completed + 1,
                         passed := s.stats.passed + (if read then 1 else 0),
                         failed := s.stats.failed + (if read then 0 else 1)))
  }

  /** A compared register counts as passed or failed, an unread one as skipped. */
  function Verified(s: Session, index: nat, read: bool, match_: bool): Session {
    s.(registerIndex := index + 1,
       stats := s.stats.(completed := s.stats.completed + 1,
                         skipped := s.stats.skipped + (if read then 0 else 1),
                         passed := s.stats.passed + (if read && match_ then 1 else 0),
                         failed := s.stats.failed + (if read && !match_ then 1 else 0)))
  }

  /** The register a walk reads next, or the end of its list. */
  function NextOfWalk(s: Session, variant: DeviceVariant): (next: nat)
    requires s.registerIndex <= |WalkList(s.kind)|
    ensures next <= |WalkList(s.kind)|
  {
    NextAvailable(variant, WalkList(s.kind), s.registerIndex)
  }

  lemma WalkAdvances(s: Session, variant: DeviceVariant)
    requires WalkInv(s, variant)
    ensures var next := NextOfWalk(s, variant);
      && AvailableBefore(variant, WalkList(s.kind), next) == s.stats.completed
      && (next < |WalkList(s.kind)| ==> AvailableBefore(variant, WalkList(s.kind), next + 1) == s.stats.completed + 1)
  {
    hide WalkList, Available;
    SkippedCount(variant, WalkList(s.kind), s.registerIndex, NextOfWalk(s, variant));
  }

  /** `word` is what the replay of the profile leaves in `register`, under its
      comparison mask. */
  ghost predicate RegisterMatches(config: Config, register: uint8, word: bv16) {
    exists step :: WritesAt(config, step, register) && Matches(config, step, word)
  }

  /** The frequency an iteration of the bus-frequency stress runs at: the two
      extremes in turn, then the initial one again. */
  function StressFrequency(s: Session): nat {
    var low := s.initialFrequencyHz == STRESS_LOW_I2C_FREQUENCY_HZ;
    if s.phase == STRESS_BUS_FREQ_RESTORE then s.initialFrequencyHz
    else if (s.index % 2 == 0) != low then STRESS_LOW_I2C_FREQUENCY_HZ else MAX_I2C_FREQUENCY_HZ
  }

  /** Sessions the first failure ends. */
  predicate StopsAtFailure(kind: SessionKind) {
    kind == PROBE || kind == DISCOVER || kind == SAMPLE_RATE || kind == STRESS_ID || kind == STRESS_RESET
  }

  /** Accounting of the running session; `busy` when its operation is live. */
  predicate SessionInv(s: Session, busy: bool, part: Option<DeviceVariant>, bus: BusInfo) {
    && StatsBalance(s.kind, s.stats) && s.stats.requested == s.count
    && (busy && IsCounted(s.kind) && !(s.kind == STRESS_BUS_FREQ && s.phase == STRESS_BUS_FREQ_RESTORE) ==>
         s.stats.completed < s.stats.requested)
    && (IsWalk(s.kind) ==> part.Some? && !busy && WalkInv(s, part.value))
    && (s.kind == PROBE || s.kind == DISCOVER || s.kind == STRESS_ID ==> !busy)
    && (StopsAtFailure(s.kind) ==> s.stats.failed == 0)
    && (s.kind == SELF_TEST ==> s.registerIndex <= |CONFIG_REGISTERS|)
    && (s.kind == STRESS_ID || s.kind == STRESS_RESET ==> s.index == s.stats.completed)
    && (s.kind == STRESS_BUS_FREQ ==>
         && (s.phase == STRESS_BUS_FREQ_SWITCH || s.phase == STRESS_BUS_FREQ_RESTORE)
         && s.index == s.stats.passed
         && (s.phase == STRESS_BUS_FREQ_SWITCH ==> s.stats.failed == 0)
         && (s.phase == STRESS_BUS_FREQ_RESTORE && s.stats.failed == 0 ==> s.index >= s.count)
         && (busy ==> bus.isOpen && bus.frequencyHz == StressFrequency(s)))
  }

  lemma WalkShape(s: Session, busy: bool, part: Option<DeviceVariant>, bus: BusInfo)
    requires SessionInv(s, busy, part, bus) && IsWalk(s.kind)
    ensures part.Some? && WalkInv(s, part.value)
  {
    hide AvailableBefore, StatsBalance;
  }

  lemma DumpedBalances(s: Session, part: Option<DeviceVariant>, bus: BusInfo, read: bool)
    requires SessionInv(s, false, part, bus) && (s.kind == DUMP_CONFIG || s.kind == DUMP_ALL)
    ensures part.Some? && WalkInv(s, part.value)
    ensures NextOfWalk(s, part.value) < |WalkList(s.kind)| ==>
      SessionInv(Dumped(s, NextOfWalk(s, part.value), read), false, part, bus)
  {
    hide AvailableBefore, NextAvailable, WalkList, StressFrequency;
    WalkAdvances(s, part.value);
  }

  lemma VerifiedBalances(s: Session, part: Option<DeviceVariant>, bus: BusInfo, read: bool, match_: bool)
    requires SessionInv(s, false, part, bus) && s.kind == VERIFY
    ensures part.Some? && WalkInv(s, part.value)
    ensures NextOfWalk(s, part.value) < |WalkList(s.kind)| ==>
      SessionInv(Verified(s, NextOfWalk(s, part.value), read, match_), false, part, bus)
  {
    hide AvailableBefore, NextAvailable, WalkList, StressFrequency;
    WalkAdvances(s, part.value);
  }

  /** The record `startSession` sets up. */
  function NewSession(kind: SessionKind, phase: SessionPhase, channels: ChannelMask, count: nat, periodMs: nat,
                      channel: nat, now: uint64, frequencyHz: nat): Session
  {
    NO_SESSION.(
      kind := kind, phase := phase, channels := channels, count := count, periodMs := periodMs, channel := channel,
      nextDueMs := if phase == WAIT_INTERVAL then now else 0,
      initialFrequencyHz := if kind == STRESS_BUS_FREQ then frequencyHz else 0,
      stats := NO_STATS.(requested := count, startedMs := now))
  }

  lemma NewSessionBalances(kind: SessionKind, phase: SessionPhase, channels: ChannelMask, count: nat, periodMs: nat,
                           channel: nat, now: uint64, part: Option<DeviceVariant>, bus: BusInfo)
    requires kind == STRESS_BUS_FREQ ==> phase == STRESS_BUS_FREQ_SWITCH
    requires IsWalk(kind) ==> part.Some? && part.value != VARIANT_UNSPECIFIED
    ensures SessionInv(NewSession(kind, phase, channels, count, periodMs, channel, now, bus.frequencyHz), false, part,
                       bus)
  {
  }

  lemma InitialQuiet(s: System)
    requires Initial(s)
    ensures Quiet(s.driver)
  {
  }

  /** Going busy with an acquisition moves the phase only. */
  lemma AcquiringPhase(s: Session, part: Option<DeviceVariant>, bus: BusInfo)
    requires SessionInv(s, true, part, bus) && AwaitedJob(s.kind) == ACQUIRE
    ensures SessionInv(s.(phase := WAIT_ACQUIRE), true, part, bus)
  {
  }

  /** A self test counts its checks, busy or not. */
  predicate SelfTestInv(s: Session) { s.stats.requested == s.count && s.registerIndex <= |CONFIG_REGISTERS| }

  lemma SelfTestFree(s: Session, part: Option<DeviceVariant>, bus: BusInfo)
    requires s.kind == SELF_TEST
    ensures SessionInv(s, true, part, bus) <==> SelfTestInv(s)
    ensures SessionInv(s, false, part, bus) <==> SelfTestInv(s)
    ensures StatsBalance(s.kind, s.stats)
  {
  }

  /** One more check of a self test. */
  function Check(s: Session, passed: bool): Session {
    s.(stats := s.stats.(passed := s.stats.passed + (if passed then 1 else 0),
                         failed := s.stats.failed + (if passed then 0 else 1)))
  }

  /** The last two checks of a self test. */
  lemma SelfTestAcquired(s: Session, t: Tally, success: bool, healthy: bool, next: Session, after: Tally,
                         part: Option<DeviceVariant>, bus: BusInfo)
    requires s.kind == SELF_TEST && SessionInv(s, true, part, bus) && Tallied(s.kind, s.stats, t)
    requires healthy ==> success
    requires next == s.(stats := s.stats.(
      passed := s.stats.passed + (if !success then 0 else if healthy then 2 else 1),
      failed := s.stats.failed + (if success then 0 else 1), skipped := next.stats.skipped))
    requires after == if healthy then t.More(true).More(true) else t.More(success)
    ensures SessionInv(next, false, part, bus) && Tallied(next.kind, next.stats, after)
  {
    hide SessionInv;
    SelfTestFree(s, part, bus);
    SelfTestFree(next, part, bus);
  }

  /** A pending operation exists exactly when the driver has a live one, and
      it is that one. */
  predicate Correlated(d: Driver, p: PendingOperation) {
    if p.owner == NO_OWNER then Quiet(d) else Live(d, p.id, p.kind)
  }

  /** Who waits for the pending operation. */
  predicate Owned(p: PendingOperation, s: Session) {
    && (p.owner == SESSION ==> s.kind != NO_SESSION_KIND && p.kind == AwaitedJob(s.kind))
    && (p.owner == COMMAND ==> s.kind == NO_SESSION_KIND)
  }

  ghost predicate Consistent(device: System, p: PendingOperation, s: Session, bus: BusInfo) {
    && Trusted(device) && Correlated(device.driver, p) && Owned(p, s)
    && (s.kind != NO_SESSION_KIND ==> SessionInv(s, p.owner == SESSION, PartOf(device.driver), bus))
  }

  predicate DeadlineReached(now: uint64, deadline: uint64) { DueOrPast(now, deadline) }

  function Plus(a: uint64, b: nat): uint64 { (a + b) % TWO_TO_THE_64 }

  /** The driver's expectation of a register is what its replay step writes. */
  lemma ExpectationMeans(config: Config, register: uint8, expected: bv16)
    requires InProfile(config, register)
    requires forall step :: WritesAt(config, step, register) ==>
      expected == ConfigWriteAt(config, ChannelCountFor(config.variant), step).value.value
    ensures forall word ::
      EqualUnder(ConfigurationComparisonMask(register), word, expected) <==> RegisterMatches(config, register, word)
  {
    hide ConfigurationComparisonMask, ConfigWriteAt, EqualUnder;
    var step :| WritesAt(config, step, register);
    StepExists(config, step);
    forall other | WritesAt(config, other, register)
      ensures other == step
    {
      WriterUnique(config, step, other, register);
    }
  }
}
