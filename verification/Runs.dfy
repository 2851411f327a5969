/** Runs of the whole system from power-up of the driver object, and the main
    theorems about every state a run can reach. */
module Runs {
  import opened CommandTable
  import opened Profile
  import opened DriverTypes
  import opened Registers
  import opened RegisterMap
  import opened Validation
  import opened Decoding
  import opened Chip
  import opened Machine
  import opened Engine
  import opened Trust
  import opened Fence
  import opened Ledger
  import opened WriteEffects
  import opened Conversions
  import opened Acquisition
  import opened Sampling
  import opened Freshness
  import opened Outcomes

  ghost predicate SystemInv(s: System) {
    Trusted(s) && FenceInv(s) && LedgerInv(s) && UntouchedInv(s) && AcquisitionInv(s) && FreshnessInv(s)
    && OutcomeInv(s)
  }

  /** Any events in any order, against any transport script. */
  ghost function Run(script: Script, s: System, es: seq<Event>): (after: System)
    requires Trusted(s)
    ensures Trusted(after)
    decreases |es|
  {
    if es == [] then s
    else
      TrustedParts(s);
      ApplyKeepsTrust(script, s, es[0]);
      Run(script, Apply(script, s, es[0]), es[1..])
  }

  lemma InitialTrusted(s: System)
    requires Initial(s)
    ensures Trusted(s)
  {
    hide Accepted, Holds;
  }

  lemma InitialLatch(l: Latch)
    requires l == ClearLatch(l) && l.history == []
    ensures LatchInv(l, 0)
  {
    assert Count28(0, 0) == 0;
  }

  lemma InitialInv(s: System)
    requires Initial(s)
    ensures SystemInv(s)
  {
    hide Trusted, LatchInv;
    InitialTrusted(s);
    forall c | 0 <= c < MAX_CHANNELS
      ensures LatchInv(s.device.ch[c], 0)
    {
      InitialLatch(s.device.ch[c]);
    }
  }

  lemma ApplyKeepsInv(script: Script, s: System, e: Event)
    requires SystemInv(s)
    ensures JobInProgram(s.driver) && SystemInv(Apply(script, s, e))
  {
    hide Trusted, FenceInv, LedgerInv, UntouchedInv, AcquisitionInv, FreshnessInv, OutcomeInv, Apply;
    TrustedParts(s);
    ApplyKeepsTrust(script, s, e);
    ApplyKeepsFence(script, s, e);
    ApplyKeepsLedger(script, s, e);
    ApplyKeepsUntouched(script, s, e);
    ApplyKeepsAcquisition(script, s, e);
    ApplyKeepsFreshness(script, s, e);
    ApplyKeepsOutcomes(script, s, e);
  }

  lemma {:induction false} RunKeepsInv(script: Script, s: System, es: seq<Event>)
    requires SystemInv(s)
    ensures Trusted(s) && SystemInv(Run(script, s, es))
    decreases |es|
  {
    hide Trusted, FenceInv, LedgerInv, UntouchedInv, AcquisitionInv, FreshnessInv, OutcomeInv, Apply;
    if es != [] {
      ApplyKeepsInv(script, s, es[0]);
      RunKeepsInv(script, Apply(script, s, es[0]), es[1..]);
    }
  }

  lemma Reached(script: Script, start: System, es: seq<Event>)
    requires Initial(start)
    ensures Trusted(start) && SystemInv(Run(script, start, es))
  {
    hide Initial, SystemInv;
    InitialInv(start);
    InitialTrusted(start);
    RunKeepsInv(script, start, es);
  }

  // ----- trust --------------------------------------------------------------

  /** Every persistent register of the variant holds its replay word, CONFIG
      with the sleep bit as given. */
  predicate HoldsReplay(regs: RegisterFile, config: Config, sleeping: bool) {
    forall step :: 0 <= step < ConfigurationTransferCount(ChannelCountFor(config.variant)) ==>
      var write := ConfigWriteAt(config, ChannelCountFor(config.variant), step).value;
      && 0 <= write.register < REGISTER_COUNT
      && regs[write.register] == if step == 0 then BuildConfigRegister(config, sleeping) else write.value
  }

  /** Every persistent register of the part holds, at its address, what the
      profile demands there. */
  ghost predicate HoldsProfile(regs: RegisterFile, config: Config, sleeping: bool) {
    forall register :: InMap(ChannelCountFor(config.variant), register) ==>
      WordShows(config, register, regs[register], sleeping)
  }

  /** A replayed device shows the profile, address by address. */
  lemma ReplayShowsProfile(regs: RegisterFile, config: Config, sleeping: bool)
    requires Accepted(config) && HoldsReplay(regs, config, sleeping)
    ensures HoldsProfile(regs, config, sleeping)
  {
    hide BuildConfigRegister, ConfigWriteAt, Accepted, Encodable, WordShows, StepOf;
    AcceptedEncodable(config);
    ConfigShown(config, sleeping);
    forall register | InMap(ChannelCountFor(config.variant), register)
      ensures WordShows(config, register, regs[register], sleeping)
    {
      MapStep(config, register);
      StepShows(config, StepOf(ChannelCountFor(config.variant), register));
    }
  }

  lemma ConfigShown(config: Config, sleeping: bool)
    ensures WordShows(config, 0x1A, BuildConfigRegister(config, sleeping), sleeping)
    ensures forall register, word :: register != 0x1A ==>
      (WordShows(config, register, word, true) <==> WordShows(config, register, word, sleeping))
  {
    hide BuildConfigRegister, ConfigShows, MuxShows, ErrorShows, DividersShow, DriveShows;
    ConfigWordShows(config, sleeping);
  }

  predicate HasConfirmedWrite(wire: seq<Transfer>) {
    exists k :: 0 <= k < |wire| && wire[k].write && wire[k].status == OK
  }

  lemma HoldsIsReplay(regs: RegisterFile, config: Config, sleeping: bool)
    requires Holds(regs, config, sleeping, ReplayLength(config))
    ensures HoldsReplay(regs, config, sleeping)
  {
    hide BuildConfigRegister, ChannelWrite, EncodeErrorReporting, BuildMuxConfigRegister;
    forall step | 0 <= step < ConfigurationTransferCount(ChannelCountFor(config.variant))
      ensures var write := ConfigWriteAt(config, ChannelCountFor(config.variant), step).value;
        && 0 <= write.register < REGISTER_COUNT
        && regs[write.register] == if step == 0 then BuildConfigRegister(config, sleeping) else write.value
    {
      assert ReplayAction(config, step).register
        == ConfigWriteAt(config, ChannelCountFor(config.variant), step).value.register;
    }
  }

  /** What the trust state claims about the device is true in every reachable
      state, whatever the transport did. */
  lemma TrustIsSound(script: Script, start: System, es: seq<Event>)
    requires Initial(start)
    ensures Trusted(start)
    ensures var s := Run(script, start, es);
      && (s.driver.applied == APPLIED_SLEEPING ==>
           && HoldsReplay(s.device.regs, s.driver.config, true) && HoldsProfile(s.device.regs, s.driver.config, true)
           && !s.driver.fault.valid)
      && (s.driver.applied == APPLIED_ACTIVE ==>
           && HoldsReplay(s.device.regs, s.driver.config, false) && HoldsProfile(s.device.regs, s.driver.config, false)
           && !s.driver.fault.valid)
      && (s.driver.applied == APPLYING ==>
           && s.driver.job.Some? && s.seen.admitted != []
           && HasConfirmedWrite(s.seen.admitted[|s.seen.admitted| - 1].wire))
  {
    hide Initial, Run, HoldsReplay, HoldsProfile, FenceInv, UntouchedInv, AcquisitionInv, FreshnessInv, OutcomeInv,
      LedgerInv, HasConfirmedWrite;
    Reached(script, start, es);
    StateIsSound(Run(script, start, es));
  }

  lemma StateIsSound(s: System)
    requires Trusted(s) && LedgerInv(s)
    ensures s.driver.applied == APPLIED_SLEEPING ==>
      && HoldsReplay(s.device.regs, s.driver.config, true) && HoldsProfile(s.device.regs, s.driver.config, true)
      && !s.driver.fault.valid
    ensures s.driver.applied == APPLIED_ACTIVE ==>
      && HoldsReplay(s.device.regs, s.driver.config, false) && HoldsProfile(s.device.regs, s.driver.config, false)
      && !s.driver.fault.valid
    ensures s.driver.applied == APPLYING ==>
      && s.driver.job.Some? && s.seen.admitted != []
      && HasConfirmedWrite(s.seen.admitted[|s.seen.admitted| - 1].wire)
  {
    hide HoldsReplay, HoldsProfile, Holds, Accepted, QueueInv, ReplayAction, ReplayLength, Settles, FollowsProgram,
      AllAcknowledged, ProgramLength;
    if s.driver.applied == APPLIED_SLEEPING || s.driver.applied == APPLIED_ACTIVE {
      HoldsIsReplay(s.device.regs, s.driver.config, s.driver.applied == APPLIED_SLEEPING);
      ReplayShowsProfile(s.device.regs, s.driver.config, s.driver.applied == APPLIED_SLEEPING);
    }
    if s.driver.applied == APPLYING {
      LedgerOpens(s);
      PartialIsConfirmedWrite(s.driver, Latest(s));
      assert IsLastWrite(Latest(s).wire, LastWriteIndex(s.driver.job.value));
    }
  }

  // ----- identity -----------------------------------------------------------

  /** Trust above UNKNOWN, the admission of an apply job and every profile
      write of a job come only after both identity registers were read and
      matched since trust was last void. */
  lemma IdentityIsFenced(script: Script, start: System, es: seq<Event>, id: uint64, deadlineMs: uint64)
    requires Initial(start)
    ensures Trusted(start)
    ensures var s := Run(script, start, es);
      && (s.driver.applied != UNKNOWN ==> Identified(s.seen))
      && (StartStatus(s.driver, APPLY_CONFIG, 0, id) == IN_PROGRESS ==> Identified(s.seen))
      && (forall i :: 0 <= i < |s.seen.log| && IsProfileWrite(s.seen.log[i]) ==> s.seen.log[i].fenced)
  {
    hide Initial, Run, Trusted, UntouchedInv, AcquisitionInv, FreshnessInv, OutcomeInv, LedgerInv;
    Reached(script, start, es);
  }

  // ----- exactly once -------------------------------------------------------

  function ResultIds(results: seq<OperationResult>): seq<uint64> {
    seq(|results|, n requires 0 <= n < |results| => results[n].operationId)
  }

  function AdmittedIds(admitted: seq<Admission>): seq<uint64> {
    seq(|admitted|, n requires 0 <= n < |admitted| => admitted[n].id)
  }

  function ActiveIds(d: Driver): seq<uint64> {
    if d.job.Some? then [d.job.value.id] else []
  }

  predicate EachSettles(admitted: seq<Admission>, results: seq<OperationResult>) {
    |results| <= |admitted| && forall n :: 0 <= n < |results| ==> Settles(admitted[n], results[n])
  }

  predicate AllDistinct(ids: seq<uint64>) {
    forall i, j :: 0 <= i < j < |ids| ==> ids[i] != ids[j]
  }

  /** Between a bind and the next end: the ids admitted, in order, are the ids
      delivered, then the ids queued, then the active id. Live ids are distinct,
      an active job always has a free result slot, and every result settles its
      own admission: its transcript follows the pure program, and it reports
      SUCCESS exactly when the whole program was acknowledged. */
  lemma EveryAdmissionSettlesOnce(script: Script, start: System, es: seq<Event>)
    requires Initial(start)
    ensures Trusted(start)
    ensures var s := Run(script, start, es);
      && AdmittedIds(s.seen.admitted) == ResultIds(s.seen.delivered) + ResultIds(s.driver.queue) + ActiveIds(s.driver)
      && AllDistinct(ResultIds(s.driver.queue) + ActiveIds(s.driver))
      && |s.driver.queue| + |ActiveIds(s.driver)| <= RESULT_CAPACITY
      && EachSettles(s.seen.admitted, s.seen.delivered + s.driver.queue)
      && (s.driver.job.Some? ==> s.seen.admitted != [] && Opens(s.seen.admitted[|s.seen.admitted| - 1], s.driver))
  {
    hide Initial, Run, FenceInv, UntouchedInv, AcquisitionInv, FreshnessInv, OutcomeInv, Settles, Opens, LedgerInv,
      QueueInv, Accepted, Holds, AllDistinct, AdmittedIds, ResultIds, EachSettles;
    Reached(script, start, es);
    var s := Run(script, start, es);
    LedgerIds(s);
    LiveIdsDistinct(s.driver);
    LedgerParts(s);
  }

  lemma LedgerParts(s: System)
    requires LedgerInv(s)
    ensures EachSettles(s.seen.admitted, s.seen.delivered + s.driver.queue)
    ensures s.driver.job.Some? ==> s.seen.admitted != [] && Opens(s.seen.admitted[|s.seen.admitted| - 1], s.driver)
  {
    hide Settles, Opens;
  }

  lemma LedgerIds(s: System)
    requires LedgerInv(s)
    ensures AdmittedIds(s.seen.admitted)
      == ResultIds(s.seen.delivered) + ResultIds(s.driver.queue) + ActiveIds(s.driver)
  {
    hide FollowsProgram, ProgramLength, AllAcknowledged;
    var settled := s.seen.delivered + s.driver.queue;
    forall n | 0 <= n < |settled|
      ensures s.seen.admitted[n].id == settled[n].operationId
    {
      assert Settles(s.seen.admitted[n], settled[n]);
    }
  }

  lemma LiveIdsDistinct(d: Driver)
    requires QueueInv(d)
    ensures AllDistinct(ResultIds(d.queue) + ActiveIds(d)) && |d.queue| + |ActiveIds(d)| <= RESULT_CAPACITY
  {
  }

  /** Over every run: a result repeats the arguments of its own call, and is
      TIMED_OUT exactly when the poll that ended it, not a cancel, found the
      admitted deadline due; a batch comes with every successful acquisition
      and nothing else, stamped with that call's revision and that poll's
      clock; the active job carries the arguments it was admitted with. */
  lemma ResultsRepeatCalls(script: Script, start: System, es: seq<Event>)
    requires Initial(start)
    ensures Trusted(start)
    ensures var s := Run(script, start, es);
      var results := s.seen.delivered + s.driver.queue;
      && |results| <= |s.seen.admitted|
      && (forall n :: 0 <= n < |results| ==>
           var a, r := s.seen.admitted[n], results[n];
           && RepeatsCall(a, r) && BatchReported(a, r)
           && (r.outcome == TIMED_OUT <==>
                r.outcome != CANCELLED && DueOrPast(r.completedUptimeMs, a.deadlineMs))
           && (r.outcome == TIMED_OUT ==> r.status == TIMEOUT)
           && (r.outcome == CANCELLED ==> r.status == CANCELLED_BY_OWNER)
           && (r.effects.read <==> a.kind == ACQUIRE && a.wire != [] && a.wire[0].status != I2C_NACK_ADDR)
           && ChannelsDone(a.mask, r.finalProgress.completedChannels, Acked(a.wire)))
      && (s.driver.job.Some? ==>
           && |s.seen.admitted| > |results|
           && Underway(s.seen.admitted[|results|], s.driver))
  {
    hide Initial, Run, FenceInv, UntouchedInv, AcquisitionInv, FreshnessInv, LedgerInv, Trusted, Underway, ChannelsDone,
      RepeatsCall, BatchReported, DueOrPast;
    Reached(script, start, es);
  }

  /** What a callback asks for: the word of a read is the device's to choose. */
  datatype Request = Request(write: bool, register: int, value: bv16)

  function Asked(t: Transfer): Request { Request(t.write, t.register, if t.write then t.value else 0) }
  function Planned(a: Action): Request { Request(a.write, a.register, if a.write then a.value else 0) }

  function Transcript(wire: seq<Transfer>): seq<Request> {
    seq(|wire|, k requires 0 <= k < |wire| => Asked(wire[k]))
  }

  function Plan(actions: seq<Action>): seq<Request> {
    seq(|actions|, k requires 0 <= k < |actions| => Planned(actions[k]))
  }

  /** However its polls were budgeted and whatever the bus did, the wire
      transcript of every admission is a prefix of one program, a pure function
      of kind, profile and mask; all of it, without a failure, exactly for
      SUCCESS. */
  lemma TranscriptsArePrefixes(script: Script, start: System, es: seq<Event>, n: nat)
    requires Initial(start)
    ensures Trusted(start)
    ensures var s := Run(script, start, es);
      n < |s.seen.admitted| ==>
        var a := s.seen.admitted[n];
        var results := s.seen.delivered + s.driver.queue;
        && Transcript(a.wire) <= Plan(Program(a.kind, a.config, a.mask))
        && (n < |results| ==>
             (results[n].outcome == SUCCESS <==>
               Transcript(a.wire) == Plan(Program(a.kind, a.config, a.mask)) && AllAcknowledged(a.wire)))
  {
    hide Initial, Run, FenceInv, UntouchedInv, AcquisitionInv, FreshnessInv, OutcomeInv, Trusted, FollowsProgram,
      AllAcknowledged, ProgramLength, Program;
    Reached(script, start, es);
    var s := Run(script, start, es);
    if n < |s.seen.admitted| {
      PrefixOfProgram(s.seen.admitted[n]);
    }
  }

  lemma PrefixOfProgram(a: Admission)
    ensures FollowsProgram(a) ==>
      && Transcript(a.wire) <= Plan(Program(a.kind, a.config, a.mask))
      && (|a.wire| == ProgramLength(a.kind, a.config, a.mask)
          <==> Transcript(a.wire) == Plan(Program(a.kind, a.config, a.mask)))
  {
    hide ProgramAction, ProgramLength;
    if FollowsProgram(a) {
      forall k | 0 <= k < |a.wire|
        ensures Asked(a.wire[k]) == Planned(Program(a.kind, a.config, a.mask)[k])
      {
        assert Performs(a.wire[k], ProgramAction(a.kind, a.config, a.mask, k));
      }
    }
  }

  // ----- acquisition --------------------------------------------------------

  /** Over every run, whatever conversions land between transfers: each
      published count is that of one conversion; a sample is FRESH exactly when
      its channel converted after its unread mark was last cleared and before
      STATUS-before; overrun is reported exactly when it converted again between
      its MSB read and STATUS-after; and no two fresh samples of a channel stem
      from the same conversion. */
  lemma SamplesAreUntorn(script: Script, start: System, es: seq<Event>)
    requires Initial(start)
    ensures Trusted(start)
    ensures var s := Run(script, start, es);
      && (forall n :: 0 <= n < |s.seen.published| ==>
           var p := s.seen.published[n];
           && 0 <= p.channel < MAX_CHANNELS
           && p.sample.rawCount28 == CountOf(s.device.ch[p.channel].history, p.serial)
           && p.cleared <= p.atStatus <= p.atMsb <= p.atEnd <= |s.device.ch[p.channel].history|
           && p.serial <= p.atMsb
           && (p.sample.quality & QUALITY_DATA_LOST != 0 <==> p.atEnd > p.atMsb)
           && (p.sample.quality & QUALITY_FRESH != 0 <==> p.atStatus > p.cleared)
           && (p.sample.quality & QUALITY_FRESH != 0 ==> p.serial > 0))
      && (forall m, n :: 0 <= m < n < |s.seen.published|
           && s.seen.published[m].channel == s.seen.published[n].channel && s.seen.published[n].isFresh
           ==> s.seen.published[m].serial < s.seen.published[n].serial)
  {
    hide Initial, Run, FenceInv, UntouchedInv, LedgerInv, OutcomeInv, Trusted, StickyLegal, LatchInv, JobChannels,
      CountOf, StatusKnown, ReadsFollow;
    Reached(script, start, es);
  }
}
