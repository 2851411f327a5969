/** What one step of a diagnostic session does, told by the CLI's moments before
    and after it. Nothing here names the step's own code. */
module SessionSteps {
  import opened CommandTable
  import opened Profile
  import opened DriverTypes
  import opened Validation
  import opened Chip
  import opened Machine
  import opened Engine
  import opened CliDevice
  import opened RegisterLists
  import opened DiagnosticSessions

  /** The CLI at one moment, for contracts that compare two. */
  datatype Moment = Moment(
    device: System, pending: PendingOperation, session: Session, tally: Tally, bus: BusInfo, reports: seq<Report>,
    nextOperationId: uint64)

  /** The operation did all it was asked for: an acquisition also brought its
      batch. */
  ghost predicate Succeeded(r: OperationResult) {
    r.outcome == SUCCESS && r.status == OK && (r.kind == ACQUIRE ==> r.sampleBatch.Some?)
  }

  /** Nothing new and nothing wrong: a sample-rate session tries again. */
  ghost predicate Stale(b: SampleBatch, channel: nat)
    requires channel < MAX_CHANNELS
  {
    && !Has(b.freshChannels, channel) && !Has(b.errorChannels, channel)
    && !b.statusBefore.HasError() && !b.statusAfter.HasError()
  }

  /** A sample that counts as passed. */
  ghost predicate Acceptable(b: SampleBatch, channel: nat, world: World)
    requires channel < MAX_CHANNELS
  {
    && Has(b.selectedChannels, channel) && Has(b.validChannels, channel) && Has(b.freshChannels, channel)
    && !Has(b.errorChannels, channel) && !Has(b.overrunChannels, channel)
    && world.frequencyOk && world.withinBounds
  }

  /** Every selected channel is valid and none shows an error. */
  ghost predicate Clean(b: SampleBatch) { b.validChannels == b.selectedChannels && b.errorChannels == 0 }

  /** The session goes on as `next`. */
  ghost predicate Goes(told: seq<Report>, n: Moment, next: Session, t: Tally) {
    n.session == next && n.tally == t && n.reports == told && n.pending.owner == NO_OWNER
  }

  /** The session ends and reports the counters of `counted`. */
  ghost predicate Ends(told: seq<Report>, n: Moment, counted: Session, outcome: SessionOutcome, t: Tally) {
    && n.session == NO_SESSION && n.reports == told + [ReportOf(counted, outcome, n.bus, n.device.driver, t)]
    && n.pending.owner == NO_OWNER
  }

  /** By the counters: SUCCESS exactly when nothing failed. */
  ghost predicate EndsByCount(told: seq<Report>, n: Moment, counted: Session, t: Tally) {
    Ends(told, n, counted, if counted.stats.failed == 0 then SESSION_SUCCESS else SESSION_FAILED, t)
  }

  /** Operation ids count up and skip zero. */
  ghost function NextId(id: uint64): uint64 {
    if id == 0xFFFF_FFFF_FFFF_FFFF then 1 else id + 1
  }

  /** The driver, as `was`, is asked for a job of the session: the driver, the
      pending operation and the next id afterwards. */
  ghost function Asked(was: System, p: PendingOperation, id: uint64, kind: JobKind, mask: ChannelMask,
                       deadlineMs: uint64): (System, PendingOperation, uint64)
    requires kind != NO_JOB
  {
    var (after, answer) := Start(was, kind, mask, id, deadlineMs);
    (after, if answer == IN_PROGRESS then PendingOperation(SESSION, id, kind) else p, NextId(id))
  }

  ghost predicate Asks(m: Moment, n: Moment, was: System, kind: JobKind, mask: ChannelMask, deadlineMs: uint64)
    requires kind != NO_JOB
  {
    (n.device, n.pending, n.nextOperationId) == Asked(was, m.pending, m.nextOperationId, kind, mask, deadlineMs)
  }

  /** What a result does to the session that waited for it: cancelled work ends
      it, and every other result is judged. */
  ghost predicate ResultCounted(n: Moment, s: Session, t: Tally, told: seq<Report>, result: OperationResult,
                                world: World) {
    if s.stopRequested || result.outcome == CANCELLED then Ends(told, n, s, SESSION_CANCELLED, t)
    else VerdictCounted(n, s, t, told, Succeeded(result), result.sampleBatch, world)
  }

  /** The verdict goes into counters and tally, and the session goes on or
      ends, each kind in its own way. */
  ghost predicate VerdictCounted(n: Moment, s: Session, t: Tally, told: seq<Report>, well: bool,
                                 batch: Option<SampleBatch>, world: World) {
    match s.kind
    case STRESS_RESET => ResetCounted(n, s, t, told, well)
    case STRESS_BUS_FREQ => FrequencyCountedBy(n, s, t, told, well)
    case SELF_TEST => SelfTestCounted(n, s, t, told, well, well && batch.Some? && Clean(batch.value))
    case STRESS_MIX => MixCounted(n, s, t, told, well)
    case SAMPLE_RATE => SampleRateCounted(n, s, t, told, well, batch, world)
    case _ => SampleCounted(n, s, t, told, well, world)
  }

  /** `watch`, `stress` and `soak` count every sample and take the next one
      a period later. */
  ghost predicate SampleCounted(n: Moment, s: Session, t: Tally, told: seq<Report>, well: bool, world: World) {
    && n.pending == NO_PENDING && n.reports == told && n.tally == t.More(well)
    && n.session == OneMore(s, well).(index := s.index + 1, phase := WAIT_INTERVAL,
                                    nextDueMs := (world.later + s.periodMs) % TWO_TO_THE_64)
  }

  ghost predicate ResetCounted(n: Moment, s: Session, t: Tally, told: seq<Report>, well: bool) {
    if well then
      && n.pending == NO_PENDING && n.reports == told && n.tally == t.More(true)
      && n.session == OneMore(s, true).(index := s.index + 1, phase := STRESS_RESET_SCHEDULE)
    else
      Ends(told, n, OneMore(s, false), SESSION_FAILED, t.More(false))
  }

  ghost predicate FrequencyCountedBy(n: Moment, s: Session, t: Tally, told: seq<Report>, well: bool) {
    if s.phase == STRESS_BUS_FREQ_RESTORE then
      if well then EndsByCount(told, n, s, t) else Ends(told, n, s, SESSION_FAILED, t.More(false))
    else
      && n.pending == NO_PENDING && n.reports == told && n.tally == t.More(well)
      && n.session == OneMore(s, well).(
           index := s.index + (if well then 1 else 0),
           phase := if well && s.index + 1 < s.count then STRESS_BUS_FREQ_SWITCH else STRESS_BUS_FREQ_RESTORE)
  }

  /** Transport and sensor quality are two checks; quality is only skipped. */
  ghost predicate SelfTestCounted(n: Moment, s: Session, t: Tally, told: seq<Report>, well: bool, clean: bool) {
    var tested := s.(stats := s.stats.(
      passed := s.stats.passed + (if clean then 2 else if well then 1 else 0),
      failed := s.stats.failed + (if well then 0 else 1),
      skipped := s.stats.skipped + (if clean then 0 else 1)));
    EndsByCount(told, n, tested, if clean then t.More(true).More(true) else t.More(well))
  }

  /** A mixed iteration passes if its observations and its acquisition did. */
  ghost predicate MixCounted(n: Moment, s: Session, t: Tally, told: seq<Report>, well: bool) {
    && n.pending == NO_PENDING && n.reports == told && n.tally == t.More(well && !s.iterationFailed)
    && n.session == OneMore(s, well && !s.iterationFailed).(index := s.index + 1, iterationFailed := false,
                                                          phase := MIX_STATUS)
  }

  /** A stale but faultless batch asks for another try within the deadline;
      anything else is accepted or ends the session. */
  ghost predicate SampleRateCounted(n: Moment, s: Session, t: Tally, told: seq<Report>, well: bool,
                                    batch: Option<SampleBatch>, world: World) {
    var channel := if s.channel < MAX_CHANNELS then s.channel else 0;
    if well && batch.Some? && Stale(batch.value, channel) then
      n.pending == NO_PENDING && n.reports == told && n.tally == t && n.session == s.(phase := SAMPLE_READY)
    else if well && batch.Some? && Acceptable(batch.value, channel, world) then
      && n.pending == NO_PENDING && n.reports == told && n.tally == t.More(true)
      && n.session == OneMore(s, true).(index := s.index + 1, phase := WAIT_INTERVAL, nextDueMs := world.later)
    else
      Ends(told, n, OneMore(s, false), SESSION_FAILED, t.More(false))
  }

  /** The pass took the only queued result, the pending operation's, and
      handed it to its owner. */
  ghost predicate ResultDelivered(m: Moment, n: Moment, world: World)
    requires m.device.driver.queue != []
  {
    && n.device == TakeResult(m.device).0 && n.pending == NO_PENDING
    && m.device.driver.queue[0].operationId == m.pending.id && m.device.driver.queue[0].kind == m.pending.kind
    && (if m.pending.owner == SESSION then
          ResultCounted(n, m.session, m.tally, m.reports, m.device.driver.queue[0], world)
        else n.session == m.session && n.tally == m.tally && n.reports == m.reports)
  }

  /** A sampling session ends when it is stopped or over, fails closed when a
      sample is too late, asks for an acquisition when one is due, and else
      waits. */
  ghost predicate SamplingStepped(m: Moment, n: Moment, world: World) {
    var s, now := m.session, world.now;
    if s.stopRequested then n.device == m.device && Ends(m.reports, n, s, SESSION_CANCELLED, m.tally)
    else if IsOver(s, now) then n.device == m.device && EndsByCount(m.reports, n, s, m.tally)
    else SampledWhenDue(m, n, world)
  }

  ghost predicate IsOver(s: Session, now: uint64) {
    if s.kind == SOAK then (now - s.stats.startedMs) % TWO_TO_THE_64 >= s.count * 1000
    else s.stats.completed >= s.stats.requested
  }

  ghost predicate SampledWhenDue(m: Moment, n: Moment, world: World) {
    var s, now := m.session, world.now;
    var due := s.phase == WAIT_INTERVAL && DueOrPast(now, s.nextDueMs);
    var ready := s.kind == SAMPLE_RATE && s.phase == SAMPLE_READY;
    if ready && DueOrPast(now, s.readyDeadlineMs) then
      n.device == m.device && Ends(m.reports, n, OneMore(s, false), SESSION_FAILED, m.tally.More(false))
    else if ready then Acquires(m, n, s, s.readyDeadlineMs)
    else if due && s.kind == SAMPLE_RATE then
      Acquires(m, n, s.(readyDeadlineMs := (now + 2000) % TWO_TO_THE_64), (now + 2000) % TWO_TO_THE_64)
    else if due then Acquires(m, n, s, (now + 2000) % TWO_TO_THE_64)
    else n == m
  }

  /** An acquisition is asked for; a refusal is the session's last failure. */
  ghost predicate Acquires(m: Moment, n: Moment, asking: Session, deadlineMs: uint64) {
    && Asks(m, n, m.device, ACQUIRE, m.session.channels, deadlineMs)
    && if n.pending.owner != NO_OWNER then
         n.session == asking.(phase := WAIT_ACQUIRE) && n.tally == m.tally && n.reports == m.reports
       else
         Ends(m.reports, n, OneMore(m.session, false), SESSION_FAILED, m.tally.More(false))
  }

  /** Opening the readiness window first makes no other difference. */
  lemma AcquiresOpened(m: Moment, ready: Moment, n: Moment, deadlineMs: uint64)
    requires ready == m.(session := m.session.(phase := SAMPLE_READY, readyDeadlineMs := deadlineMs))
    requires Acquires(ready, n, ready.session, deadlineMs)
    ensures Acquires(m, n, m.session.(readyDeadlineMs := deadlineMs), deadlineMs)
  {
    hide Asked;
    FailureCounts(m.session, ready.session, n.bus, n.device.driver, m.tally.More(false));
  }

  /** A mixed iteration makes its four observations, one a step and in order,
      then its acquisition. A missing INTB is skipped, any other trouble or a
      refused acquisition fails the iteration, and the session goes on. */
  ghost predicate MixedStepped(script: Script, m: Moment, n: Moment, world: World) {
    var s := m.session;
    if s.stopRequested then n.device == m.device && Ends(m.reports, n, s, SESSION_CANCELLED, m.tally)
    else if s.stats.completed >= s.stats.requested then n.device == m.device && EndsByCount(m.reports, n, s, m.tally)
    else if s.phase == MIX_ACQUIRE then MixedAcquires(m, n, world)
    else
      var (after, status) := Observed(script, m.device, world, s.phase, s.index);
      var skipped := s.phase == MIX_INTB && status == INVALID_CONFIG;
      && n.device == after
      && Goes(m.reports, n, s.(stats := s.stats.(skipped := s.stats.skipped + (if skipped then 1 else 0)),
                               iterationFailed := s.iterationFailed || (status != OK && !skipped),
                               phase := NextObservation(s.phase)), m.tally)
  }

  /** The observation of each phase: STATUS, readiness, INTB, and the drive
      current of one channel, iterations going round the part's channels. */
  ghost function Observed(script: Script, device: System, world: World, phase: SessionPhase, index: nat)
    : (System, Err)
  {
    var d := device.driver;
    match phase
    case MIX_STATUS =>
      var (after, status, value) := Engine.ReadRegister16(script, device, 0x18);
      (after, status)
    case MIX_READY => ReadyObservation(script, device, world)
    case MIX_INTB =>
      (device, if !d.bound then NOT_BOUND
               else if !world.intbConfigured || d.config.intbDisabled then INVALID_CONFIG
               else world.intbStatus)
    case MIX_INIT_DRIVE =>
      InitDriveObservation(script, device, match d.config.variant
                                           case LDC1612 => index % 2
                                           case LDC1614 => index % 4
                                           case _ => 0)
    case _ => (device, OK)
  }

  ghost function NextObservation(phase: SessionPhase): SessionPhase {
    if phase == MIX_STATUS then MIX_READY
    else if phase == MIX_READY then MIX_INTB
    else if phase == MIX_INTB then MIX_INIT_DRIVE
    else if phase == MIX_INIT_DRIVE then MIX_ACQUIRE
    else phase
  }

  ghost predicate MixedAcquires(m: Moment, n: Moment, world: World) {
    var s := m.session;
    && Asks(m, n, m.device, ACQUIRE, s.channels, (world.now + 2000) % TWO_TO_THE_64)
    && if n.pending.owner != NO_OWNER then
         n.session == s.(phase := WAIT_ACQUIRE) && n.tally == m.tally && n.reports == m.reports
       else
         Goes(m.reports, n, OneMore(s, false).(iterationFailed := false, index := s.index + 1, phase := MIX_STATUS),
              m.tally.More(false))
  }

  /** A probe passes when both identity registers answer with the words of
      the part. */
  ghost predicate ProbeStepped(script: Script, m: Moment, n: Moment) {
    var s := m.session;
    if s.phase == PROBE_MANUFACTURER then
      var (after, status, value) := Engine.ReadRegister16(script, m.device, 0x7E);
      && n.device == after
      && if status == OK then Goes(m.reports, n, s.(manufacturerId := value, phase := PROBE_DEVICE), m.tally)
         else Ends(m.reports, n, s.(stats := s.stats.(failed := s.stats.failed + 1)), SESSION_FAILED,
                   m.tally.More(false))
    else if s.phase == PROBE_DEVICE then
      var (after, status, value) := Engine.ReadRegister16(script, m.device, 0x7F);
      var found := status == OK && value == 0x3055 && s.manufacturerId == 0x5449;
      && n.device == after
      && Ends(m.reports, n, s.(stats := s.stats.(completed := 2, passed := s.stats.passed + (if found then 1 else 0),
                                                 failed := s.stats.failed + (if found then 0 else 1))),
              if found then SESSION_SUCCESS else SESSION_FAILED, m.tally.More(found))
    else n == m
  }

  /** Discovery reads the two identity words at both addresses, one read a
      step, and succeeds if some address answered with both. */
  ghost predicate DiscoverStepped(m: Moment, n: Moment, world: World) {
    var s := m.session;
    n.device == m.device &&
    if s.stopRequested then Ends(m.reports, n, s, SESSION_CANCELLED, m.tally)
    else if !world.canDiscover then Ends(m.reports, n, s, SESSION_FAILED, m.tally)
    else Discovers(m, n, world.discoverStatus == OK, world.discoverValue)
  }

  /** One discovery read answered with `word`, or did not answer. */
  ghost predicate Discovers(m: Moment, n: Moment, answered: bool, word: bv16) {
    var s := m.session;
    var counted := s.(stats := s.stats.(completed := s.stats.completed + 1));
    if s.phase == DISCOVER_MANUFACTURER && answered then
      Goes(m.reports, n, counted.(manufacturerId := word, phase := DISCOVER_DEVICE), m.tally)
    else
      var found := s.phase != DISCOVER_MANUFACTURER && answered && s.manufacturerId == 0x5449 && word == 0x3055;
      var looked := counted.(discoveryMatched := s.discoveryMatched + (if found then 1 else 0));
      if s.discoveryAddress == 0x2B then
        Ends(m.reports, n, looked, if looked.discoveryMatched > 0 then SESSION_SUCCESS else SESSION_FAILED, m.tally)
      else if s.phase == DISCOVER_MANUFACTURER then
        Goes(m.reports, n, looked.(discoveryAddress := 0x2B), m.tally)
      else
        Goes(m.reports, n,
             looked.(discoveryAddress := 0x2B, manufacturerId := 0, phase := DISCOVER_MANUFACTURER), m.tally)
  }

  /** The read of identity register `register` answers with its constant. */
  ghost predicate Identifies(script: Script, device: System, register: uint8, expected: bv16) {
    var (after, status, value) := Engine.ReadRegister16(script, device, register);
    status == OK && value == expected
  }

  /** An iteration passes only when both identity registers answered right;
      the first wrong answer ends the session. */
  ghost predicate IdentityStepped(script: Script, m: Moment, n: Moment) {
    var s := m.session;
    var manufacturer := s.phase == STRESS_ID_MANUFACTURER;
    if s.index >= s.count then n.device == m.device && EndsByCount(m.reports, n, s, m.tally)
    else
      && n.device == Engine.ReadRegister16(script, m.device, if manufacturer then 0x7E else 0x7F).0
      && if manufacturer && Identifies(script, m.device, 0x7E, 0x5449) then
           Goes(m.reports, n, s.(phase := STRESS_ID_DEVICE), m.tally)
         else if !manufacturer && Identifies(script, m.device, 0x7F, 0x3055) then
           Goes(m.reports, n, OneMore(s, true).(index := s.index + 1, phase := STRESS_ID_MANUFACTURER),
                m.tally.More(true))
         else Ends(m.reports, n, OneMore(s, false), SESSION_FAILED, m.tally.More(false))
  }

  /** Each iteration asks for one reset-and-reapply. */
  ghost predicate ResetStepped(m: Moment, n: Moment, world: World) {
    var s, deadlineMs := m.session, (world.now + 2000) % TWO_TO_THE_64;
    if s.index >= s.count then n.device == m.device && Ends(m.reports, n, s, SESSION_SUCCESS, m.tally)
    else
      && Asks(m, n, m.device, RESET_AND_REAPPLY, s.channels, deadlineMs)
      && if n.pending.owner != NO_OWNER then
           n.session == s && n.tally == m.tally && n.reports == m.reports
         else Ends(m.reports, n, OneMore(s, false), SESSION_FAILED, m.tally.More(false))
  }

  /** The switch at `frequencyHz` went through: the bus shows it. */
  ghost predicate Switched(frequencyHz: nat, world: World) {
    world.setStatus == OK && world.busAfter.isOpen && world.busAfter.frequencyHz == frequencyHz
  }

  /** The bus was asked for `frequencyHz`; if it got there the device was
      invalidated and the driver asked for INITIALIZE. */
  ghost predicate Initializes(m: Moment, n: Moment, frequencyHz: nat, world: World)
    requires JobInProgram(m.device.driver)
  {
    && n.bus == world.busAfter
    && if Switched(frequencyHz, world) then
         Asks(m, n, Engine.Invalidate(m.device, CONFIG_DIRTY), INITIALIZE, m.session.channels,
              (world.now + 2000) % TWO_TO_THE_64)
       else
         n.device == m.device && n.pending == m.pending
  }

  /** An iteration switches between 100 and 400 kHz and reinitializes; the
      last one restores the initial frequency. Any refusal is counted and
      answered by the restore, a refused restore by failure. */
  ghost predicate FrequencyStepped(m: Moment, n: Moment, world: World)
    requires JobInProgram(m.device.driver)
  {
    var s := m.session;
    var even := s.index % 2 == 0;
    if s.phase == STRESS_BUS_FREQ_RESTORE then
      && Initializes(m, n, s.initialFrequencyHz, world)
      && if n.pending.owner != NO_OWNER then n.session == s && n.tally == m.tally && n.reports == m.reports
         else Ends(m.reports, n, s, SESSION_FAILED, m.tally.More(false))
    else if s.index >= s.count then
      n.device == m.device && n.bus == m.bus && Goes(m.reports, n, s.(phase := STRESS_BUS_FREQ_RESTORE), m.tally)
    else
      var frequencyHz := if (s.initialFrequencyHz == 100_000) == even then 400_000 else 100_000;
      && Initializes(m, n, frequencyHz, world) && n.reports == m.reports
      && if n.pending.owner != NO_OWNER then n.session == s && n.tally == m.tally
         else n.session == OneMore(s, false).(phase := STRESS_BUS_FREQ_RESTORE) && n.tally == m.tally.More(false)
  }

  /** A dump reads the next register of its list that the part has, and counts
      it; past the last one it reports. */
  ghost predicate DumpStepped(script: Script, m: Moment, n: Moment)
    requires m.session.registerIndex <= |WalkList(m.session.kind)|
  {
    var s, list := m.session, WalkList(m.session.kind);
    var next := NextOfWalk(s, m.device.driver.config.variant);
    if next == |list| then n.device == m.device && EndsByCount(m.reports, n, s, m.tally)
    else
      var (after, status, value) := Engine.ReadRegister16(script, m.device, list[next]);
      && n.device == after
      && Goes(m.reports, n, OneMore(s, status == OK).(registerIndex := next + 1), m.tally.More(status == OK))
  }

  /** A verification compares the next register of the profile with what the
      replay leaves there: equal passes, different fails, unreadable is skipped,
      and only an all-equal walk succeeds. */
  ghost predicate VerifyStepped(script: Script, m: Moment, n: Moment)
    requires m.session.kind == VERIFY && m.session.registerIndex <= |CONFIG_REGISTERS|
  {
    var s, stats := m.session, m.session.stats;
    var next := NextOfWalk(s, m.device.driver.config.variant);
    if next == |CONFIG_REGISTERS| then
      && n.device == m.device
      && Ends(m.reports, n, s, if stats.failed == 0 && stats.skipped == 0 then SESSION_SUCCESS else SESSION_FAILED,
              m.tally)
    else
      var (after, status, value) := Engine.ReadRegister16(script, m.device, CONFIG_REGISTERS[next]);
      var read, equal := status == OK, RegisterMatches(m.device.driver.config, CONFIG_REGISTERS[next], value);
      && n.device == after
      && Goes(m.reports, n, s.(registerIndex := next + 1, stats := stats.(
                completed := stats.completed + 1,
                passed := stats.passed + (if read && equal then 1 else 0),
                failed := stats.failed + (if read && !equal then 1 else 0),
                skipped := stats.skipped + (if read then 0 else 1))), m.tally.More(read && equal))
  }

  /** One more check of a self test. */
  ghost function Checked(s: Session, well: bool): Session {
    s.(stats := s.stats.(passed := s.stats.passed + (if well then 1 else 0),
                         failed := s.stats.failed + (if well then 0 else 1)))
  }

  /** A self test runs its checks in order: the helpers, the identity words,
      STATUS, readiness, INTB, every drive current, every register of the
      profile, and last one acquisition. */
  ghost predicate SelfTestStepped(script: Script, m: Moment, n: Moment, world: World)
    requires m.session.registerIndex <= |CONFIG_REGISTERS| && m.session.kind == SELF_TEST
  {
    if m.session.stopRequested then n.device == m.device && Ends(m.reports, n, m.session, SESSION_CANCELLED, m.tally)
    else match m.session.phase
      case SELF_PURE => HelpersChecked(m, n)
      case SELF_READY => ReadyChecked(script, m, n, world)
      case SELF_INTB => IntbChecked(m, n, world)
      case SELF_INIT_DRIVE => DriveChecked(script, m, n)
      case SELF_VERIFY => ProfileChecked(script, m, n)
      case SELF_ACQUIRE => TransportChecked(m, n, world)
      case _ => WordChecked(script, m, n)
  }

  /** Without a device to bind, validation and timing fail. */
  ghost predicate HelpersChecked(m: Moment, n: Moment) {
    var s, bound := m.session, m.device.driver.bound;
    var well, wrong := if bound then 5 else 3, if bound then 0 else 2;
    && n.device == m.device
    && Goes(m.reports, n, s.(stats := s.stats.(passed := s.stats.passed + well, failed := s.stats.failed + wrong),
                             phase := SELF_MANUFACTURER), Tally(m.tally.good + well, m.tally.bad + wrong))
  }

  ghost predicate WordChecked(script: Script, m: Moment, n: Moment) {
    var s := m.session;
    if s.phase == SELF_MANUFACTURER then
      var (after, status, value) := Engine.ReadRegister16(script, m.device, 0x7E);
      ChecksOne(m, n, after, s.(manufacturerId := value, phase := SELF_DEVICE), status == OK && value == 0x5449)
    else if s.phase == SELF_DEVICE then
      var (after, status, value) := Engine.ReadRegister16(script, m.device, 0x7F);
      ChecksOne(m, n, after, s.(deviceId := value, phase := SELF_STATUS), status == OK && value == 0x3055)
    else if s.phase == SELF_STATUS then
      var (after, status, value) := Engine.ReadRegister16(script, m.device, 0x18);
      ChecksOne(m, n, after, s.(phase := SELF_READY), status == OK)
    else n == m
  }

  ghost predicate ReadyChecked(script: Script, m: Moment, n: Moment, world: World) {
    var (after, status) := ReadyObservation(script, m.device, world);
    ChecksOne(m, n, after, m.session.(phase := SELF_INTB), status == OK)
  }

  /** An INTB that is not wired is skipped. */
  ghost predicate IntbChecked(m: Moment, n: Moment, world: World) {
    var s, d := m.session, m.device.driver;
    var next := s.(physicalChannel := 0, phase := SELF_INIT_DRIVE);
    if d.bound && (!world.intbConfigured || d.config.intbDisabled || world.intbStatus == INVALID_CONFIG) then
      n.device == m.device && Goes(m.reports, n, next.(stats := s.stats.(skipped := s.stats.skipped + 1)), m.tally)
    else
      ChecksOne(m, n, m.device, next, d.bound && world.intbStatus == OK)
  }

  ghost predicate DriveChecked(script: Script, m: Moment, n: Moment) {
    var s := m.session;
    if s.physicalChannel >= ChannelCountFor(m.device.driver.config.variant) then
      n.device == m.device && Goes(m.reports, n, s.(registerIndex := 0, phase := SELF_VERIFY), m.tally)
    else
      var (after, status) := InitDriveObservation(script, m.device, s.physicalChannel);
      ChecksOne(m, n, after, s.(physicalChannel := s.physicalChannel + 1), status == OK)
  }

  /** Without an awake device the acquisition is skipped. */
  ghost predicate TransportChecked(m: Moment, n: Moment, world: World) {
    var s, d := m.session, m.device.driver;
    if d.applied != APPLIED_ACTIVE then
      && n.device == m.device
      && EndsByCount(m.reports, n, s.(stats := s.stats.(skipped := s.stats.skipped + 2)), m.tally)
    else
      SelfTestAsked(m.(session := s.(channels := d.config.channels)), n, (world.now + 2000) % TWO_TO_THE_64)
  }

  ghost predicate SelfTestAsked(m: Moment, n: Moment, deadlineMs: uint64) {
    var s := m.session;
    && Asks(m, n, m.device, ACQUIRE, s.channels, deadlineMs)
    && if n.pending.owner != NO_OWNER then
         n.session == s.(phase := WAIT_ACQUIRE) && n.tally == m.tally && n.reports == m.reports
       else
         Ends(m.reports, n, Missed(s), SESSION_FAILED, m.tally.More(false))
  }

  /** A refused acquisition fails one check and leaves the next untried. */
  ghost function Missed(s: Session): Session {
    s.(stats := s.stats.(failed := s.stats.failed + 1, skipped := s.stats.skipped + 1))
  }

  ghost predicate ChecksOne(m: Moment, n: Moment, after: System, next: Session, well: bool) {
    n.device == after && Goes(m.reports, n, Checked(next, well), m.tally.More(well))
  }

  ghost predicate ProfileChecked(script: Script, m: Moment, n: Moment)
    requires m.session.registerIndex <= |CONFIG_REGISTERS|
  {
    var s, config := m.session, m.device.driver.config;
    var next := NextAvailable(config.variant, CONFIG_REGISTERS, s.registerIndex);
    if s.registerIndex < |CONFIG_REGISTERS| && !Accepted(config) then
      n.device == m.device && Ends(m.reports, n, Checked(s, false), SESSION_FAILED, m.tally.More(false))
    else if s.registerIndex == |CONFIG_REGISTERS| || next == |CONFIG_REGISTERS| then
      n.device == m.device && Goes(m.reports, n, s.(phase := SELF_ACQUIRE), m.tally)
    else
      var (after, status, value) := Engine.ReadRegister16(script, m.device, CONFIG_REGISTERS[next]);
      ChecksOne(m, n, after, s.(registerIndex := next + 1, stats := s.stats.(completed := s.stats.completed + 1)),
                status == OK && RegisterMatches(config, CONFIG_REGISTERS[next], value))
  }

  /** One step of the running session, whatever its kind. */
  ghost predicate SessionStepped(script: Script, m: Moment, n: Moment, world: World) {
    var s := m.session;
    match s.kind
    case PROBE => ProbeStepped(script, m, n)
    case DISCOVER => DiscoverStepped(m, n, world)
    case DUMP_CONFIG => s.registerIndex <= |WalkList(s.kind)| && DumpStepped(script, m, n)
    case DUMP_ALL => s.registerIndex <= |WalkList(s.kind)| && DumpStepped(script, m, n)
    case VERIFY => s.registerIndex <= |CONFIG_REGISTERS| && VerifyStepped(script, m, n)
    case STRESS_MIX => MixedStepped(script, m, n, world)
    case STRESS_ID => IdentityStepped(script, m, n)
    case STRESS_RESET => ResetStepped(m, n, world)
    case STRESS_BUS_FREQ => JobInProgram(m.device.driver) && FrequencyStepped(m, n, world)
    case SELF_TEST => s.registerIndex <= |CONFIG_REGISTERS| && SelfTestStepped(script, m, n, world)
    case NO_SESSION_KIND => n == m
    case _ => SamplingStepped(m, n, world)
  }

  lemma NoSessionStepped(script: Script, m: Moment, world: World)
    ensures m.session.kind == NO_SESSION_KIND ==> SessionStepped(script, m, m, world)
  {
  }

  // ----- passes and commands ------------------------------------------------

  /** Work in progress. */
  ghost predicate Active(m: Moment) {
    m.pending.owner != NO_OWNER || m.session.kind != NO_SESSION_KIND || m.device.driver.job.Some?
  }

  /** A pass polls the active job for one transfer and hands over its result,
      or hands over the result of a cancelled one, or takes one step of the
      session. */
  ghost predicate Passed(script: Script, m: Moment, n: Moment, world: World)
    requires JobInProgram(m.device.driver)
  {
    if m.device.driver.job.Some? then
      var polled := m.(device := Engine.Poll(script, m.device, world.now, 1));
      if polled.device.driver.queue == [] then n == polled else ResultDelivered(polled, n, world)
    else if m.device.driver.queue != [] then ResultDelivered(m, n, world)
    else SessionStepped(script, m, n, world)
  }

  ghost function FirstPhaseOf(kind: SessionKind): SessionPhase {
    match kind
    case PROBE => PROBE_MANUFACTURER
    case DISCOVER => DISCOVER_MANUFACTURER
    case DUMP_CONFIG => DUMP_REGISTER
    case DUMP_ALL => DUMP_REGISTER
    case VERIFY => VERIFY_REGISTER
    case STRESS_MIX => MIX_STATUS
    case STRESS_ID => STRESS_ID_MANUFACTURER
    case STRESS_RESET => STRESS_RESET_SCHEDULE
    case STRESS_BUS_FREQ => STRESS_BUS_FREQ_SWITCH
    case SELF_TEST => SELF_PURE
    case _ => WAIT_INTERVAL
  }

  /** Why a session is refused, in the order of the checks. */
  ghost function SessionAnswer(m: Moment, kind: SessionKind, mask: ChannelMask): Err {
    var d := m.device.driver;
    var sampling := kind == WATCH || kind == SAMPLE_RATE || kind == STRESS || kind == STRESS_MIX || kind == SOAK;
    if Active(m) then BUSY
    else if kind != DISCOVER && kind != SELF_TEST && !d.bound then NOT_BOUND
    else if sampling && d.applied != APPLIED_ACTIVE then CONFIG_DIRTY
    else if sampling && (mask == 0 || mask & !d.config.channels != 0) then INVALID_PARAM
    else if kind == STRESS_BUS_FREQ && !(m.bus.isOpen && 10_000 <= m.bus.frequencyHz <= 400_000) then INVALID_CONFIG
    else IN_PROGRESS
  }

  /** A session begins with exactly what was asked for, and nothing counted. */
  ghost predicate SessionBegins(m: Moment, n: Moment, kind: SessionKind, count: nat, mask: ChannelMask, periodMs: nat,
                                channel: nat, now: uint64) {
    && n == m.(session := n.session, tally := Tally(0, 0))
    && n.session == Session(
         kind, FirstPhaseOf(kind), mask, count, 0, periodMs,
         if kind == WATCH || kind == SAMPLE_RATE || kind == STRESS || kind == SOAK then now else 0, 0, channel, 0,
         0x2A, 0, 0, false, false, 0, 0, if kind == STRESS_BUS_FREQ then m.bus.frequencyHz else 0,
         SessionStats(count, 0, 0, 0, 0, now))
  }

  lemma NewSessionBegins(m: Moment, n: Moment, kind: SessionKind, count: nat, mask: ChannelMask, periodMs: nat,
                         channel: nat, now: uint64)
    requires kind != NO_SESSION_KIND
    requires n == m.(session := NewSession(kind, FirstPhaseOf(kind), mask, count, periodMs, channel, now,
                                           m.bus.frequencyHz), tally := Tally(0, 0))
    ensures SessionBegins(m, n, kind, count, mask, periodMs, channel, now)
  {
  }

  /** A stop cancels the driver's job and marks its session; a session between
      two operations ends at once. */
  ghost predicate Stopped(m: Moment, n: Moment)
    requires JobInProgram(m.device.driver)
  {
    var stopping, running := m.session.(stopRequested := true), m.device.driver.job.Some?;
    if m.session.kind == NO_SESSION_KIND then
      n == if m.pending.owner == COMMAND && running then m.(device := Engine.Cancel(m.device)) else m
    else if m.pending.owner == NO_OWNER then
      n.device == m.device && Ends(m.reports, n, stopping, SESSION_CANCELLED, m.tally)
    else
      n == if running then m.(session := stopping, device := Engine.Cancel(m.device)) else m.(session := stopping)
  }

  /** The driver call of each command for the idle driver. */
  ghost predicate DirectDone(script: Script, m: Moment, n: Moment, command: Command, world: World)
    requires JobInProgram(m.device.driver)
  {
    var s := m.device;
    match command
    case BindCommand(profile) => n == m.(device := Engine.Bind(s, profile).0)
    case EndCommand => n == m.(device := Engine.End(s))
    case UpdateCommand(desired) => n == m.(device := Engine.UpdateDesiredConfig(s, desired).0)
    case SleepCommand => n == m.(device := Engine.SleepOrWake(script, s, true).0)
    case WakeCommand => n == m.(device := Engine.SleepOrWake(script, s, false).0)
    case StatusCommand => n == m.(device := Engine.ReadRegister16(script, s, 0x18).0)
    case ReadyCommand => n == m.(device := ReadyObservation(script, s, world).0)
    case InitDriveCommand(index) => n == m.(device := InitDriveObservation(script, s, index).0)
    case RegisterReadCommand(register) => n == m.(device := Engine.ReadRegister16(script, s, register).0)
    case RegisterWriteCommand(target, value) => n == m.(device := Engine.WriteRegister16(script, s, target, value).0)
    case InvalidateCommand => n == m.(device := Engine.Invalidate(s, CONFIG_DIRTY))
    case FrequencyCommand(requestedHz) =>
      var moved := !Switched(requestedHz, world) || world.busAfter.frequencyHz != m.bus.frequencyHz;
      n == m.(bus := world.busAfter,
              device := if s.driver.bound && moved then Engine.Invalidate(s, CONFIG_DIRTY) else s)
    case _ => n == m
  }

  lemma LocalDone(script: Script, m: Moment, command: Command, world: World)
    requires JobInProgram(m.device.driver) && command.LocalCommand?
    ensures DirectDone(script, m, m, command, world)
  {
  }

  /** What a command does: while work is active only a cancel does anything. */
  ghost predicate CommandDone(script: Script, m: Moment, n: Moment, command: Command, world: World)
    requires JobInProgram(m.device.driver)
    requires command.JobCommand? ==> command.kind != NO_JOB
  {
    if command.CancelCommand? then Stopped(m, n)
    else if Active(m) then n == m
    else if command.JobCommand? then
      var (after, status) := Start(m.device, command.kind, command.channels, m.nextOperationId,
                                   (world.now + command.deadlineMs) % TWO_TO_THE_64);
      n == m.(device := after, nextOperationId := NextId(m.nextOperationId),
              pending := if status == IN_PROGRESS then PendingOperation(COMMAND, m.nextOperationId, command.kind)
                         else m.pending)
    else if command.SessionCommand? then
      if SessionAnswer(m, command.session, command.mask) == IN_PROGRESS then
        SessionBegins(m, n, command.session, command.count, command.mask, command.periodMs, command.channel, world.now)
      else n == m
    else DirectDone(script, m, n, command, world)
  }
}
