/** When a sample is FRESH: exactly when its channel converted after its unread
    mark was last cleared and before the STATUS read that opens the acquisition. */
module Freshness {
  import opened CommandTable
  import opened Profile
  import opened DriverTypes
  import opened Registers
  import opened Validation
  import opened Decoding
  import opened Chip
  import opened Machine
  import opened Engine
  import opened Trust
  import opened Conversions
  import opened Acquisition
  import opened Sampling

  /** What STATUS-before told an acquisition about channel `c`. */
  predicate StatusTold(before: DeviceStatus, count: Counts, history: seq<bv32>, c: int)
    requires 0 <= c < MAX_CHANNELS
  {
    && (Has(before.unreadChannels, c) <==> count.cleared < count.made)
    && count.cleared <= count.made <= |history|
  }

  predicate StatusKnown(before: DeviceStatus, d: Device, counts: StatusCounts) {
    forall c :: 0 <= c < MAX_CHANNELS ==> StatusTold(before, counts[c], d.ch[c].history, c)
  }

  /** The MSB reads made so far came after STATUS-before. */
  predicate ReadsFollow(job: Job, counts: StatusCounts, converted: seq<nat>)
    requires |converted| == MAX_CHANNELS
  {
    SelectedAscends(job.mask);
    forall i :: 0 <= i < |Selected(job.mask)| && MsbDone(job, i) ==>
      counts[Selected(job.mask)[i]].made <= converted[Selected(job.mask)[i]]
  }

  predicate FreshExactly(p: Publication) {
    (p.isFresh <==> p.cleared < p.atStatus) && p.cleared <= p.atStatus <= p.atMsb
  }

  predicate AllFreshExactly(published: seq<Publication>) {
    forall n :: 0 <= n < |published| ==> FreshExactly(published[n])
  }

  predicate FreshnessInv(s: System) {
    && |s.seen.converted| == MAX_CHANNELS
    && AllFreshExactly(s.seen.published)
    && (s.driver.job.Some? && s.driver.job.value.kind == ACQUIRE && s.driver.job.value.done >= 1 ==>
         && StatusKnown(s.driver.job.value.before, s.device, s.seen.counts)
         && ReadsFollow(s.driver.job.value, s.seen.counts, s.seen.converted))
  }

  // ----- one transfer -------------------------------------------------------

  lemma StepCounts(script: Script, s: System, now: uint64, timeout: nat)
    requires s.driver.job.Some? && JobInProgram(s.driver)
    ensures var action := CurrentAction(s.driver);
      var after := TransferStep(script, s, now, timeout).seen;
      var shows := ShowsStatus(action.write, action.register, script(|s.seen.log|).status);
      && after.counts == (if shows then CountsOf(s.device) else s.seen.counts)
      && after.priorCounts == (if shows then s.seen.counts else s.seen.priorCounts)
  {
    hide Complete, Written, AfterRead, ReadValue, CurrentAction, PublishSelected, PublishedBatch, MaxTransfers,
      LatchedAfter, ConvertedAfter, CountsOf;
  }

  lemma StatusShowsCounts(d: Device, converted: seq<nat>)
    requires |converted| == MAX_CHANNELS && StickyLegal(d)
    requires forall c :: 0 <= c < MAX_CHANNELS ==> LatchInv(d.ch[c], converted[c])
    ensures StatusKnown(DecodeDeviceStatus(StatusValue(d)), d, CountsOf(d))
  {
    hide DecodeDeviceStatus, StatusValue, LiveInv, ShadowInv, Has, StickyLegal;
    forall c | 0 <= c < MAX_CHANNELS
      ensures StatusTold(DecodeDeviceStatus(StatusValue(d)), CountsOf(d)[c], d.ch[c].history, c)
    {
      StatusShowsUnread(d, c);
    }
  }

  lemma StatusStaysKnown(before: DeviceStatus, d: Device, later: Device, counts: StatusCounts)
    requires StatusKnown(before, d, counts)
    requires forall c :: 0 <= c < MAX_CHANNELS ==> d.ch[c].history <= later.ch[c].history
    ensures StatusKnown(before, later, counts)
  {
    hide Has;
  }

  lemma HistoriesGrow(d: Device, later: Device, converted: seq<nat>, after: seq<nat>)
    requires Grows(d, later, converted, after)
    ensures |converted| == MAX_CHANNELS && |after| == MAX_CHANNELS
    ensures forall c :: 0 <= c < MAX_CHANNELS ==> d.ch[c].history <= later.ch[c].history && converted[c] <= after[c]
  {
  }

  /** STATUS-before has just been read. */
  lemma FirstStatusKnown(after: Job, d: Device, later: Device, latched: seq<nat>, converted: seq<nat>, read: seq<nat>)
    requires DeviceInv(d, latched, converted) && |read| == MAX_CHANNELS
    requires forall c :: 0 <= c < MAX_CHANNELS ==> d.ch[c].history <= later.ch[c].history
    requires after.done == 1 && after.before == DecodeDeviceStatus(StatusValue(d))
    ensures StatusKnown(after.before, later, CountsOf(d)) && ReadsFollow(after, CountsOf(d), read)
  {
    hide LatchInv, StickyLegal, StatusKnown, CountsOf, DecodeDeviceStatus, StatusValue, Selected;
    StatusShowsCounts(d, converted);
    StatusStaysKnown(after.before, d, later, CountsOf(d));
  }

  /** A DATA word has just been read; its MSB counts all conversions so far. */
  lemma ReadsStillFollow(job: Job, after: Job, d: Device, counts: StatusCounts, converted: seq<nat>)
    requires |converted| == MAX_CHANNELS && StatusKnown(job.before, d, counts) && ReadsFollow(job, counts, converted)
    requires 1 <= job.done < 1 + 2 * |Selected(job.mask)| && after.done == job.done + 1 && after.mask == job.mask
    requires forall c :: 0 <= c < MAX_CHANNELS ==> converted[c] <= |d.ch[c].history|
    ensures var read := ConvertedAfter(converted, d, false, AcquireAction(job.mask, job.done).register, OK);
      |read| == MAX_CHANNELS && ReadsFollow(after, counts, read)
  {
    hide Selected, AcquireAction, Has;
    SelectedAscends(job.mask);
    DataAction(job.mask, job.done);
    var own := Selected(job.mask)[(job.done - 1) / 2];
    MsbReadFacts(own);
    var read := ConvertedAfter(converted, d, false, AcquireAction(job.mask, job.done).register, OK);
    forall i | 0 <= i < |Selected(job.mask)| && MsbDone(after, i)
      ensures counts[Selected(job.mask)[i]].made <= read[Selected(job.mask)[i]]
    {
      assert StatusTold(job.before, counts[Selected(job.mask)[i]], d.ch[Selected(job.mask)[i]].history,
                        Selected(job.mask)[i]);
      if MsbDone(job, i) {
        assert converted[Selected(job.mask)[i]] <= read[Selected(job.mask)[i]];
      } else {
        assert (job.done - 1) / 2 == i;
      }
    }
  }

  lemma QuietFreshness(script: Script, s: System, now: uint64, timeout: nat)
    requires s.driver.job.Some? && Trusted(s) && AcquisitionInv(s) && FreshnessInv(s)
    requires s.driver.job.value.kind != ACQUIRE || script(|s.seen.log|).status != OK
    ensures FreshnessInv(TransferStep(script, s, now, timeout))
  {
    hide TransferStep, AcquisitionInv, DeviceAfter, LatchedAfter, ConvertedAfter, CurrentAction, MaxTransfers, Accepted,
      Holds, QueueInv, Complete, ReadValue, FreshExactly, StatusKnown, ReadsFollow, DeviceInv, Grows, PublishedInv;
    DeviceShape(s);
    EvidenceKept(s, script, now, timeout);
    StepEvidence(script, s, now, timeout);
    StepDriver(script, s, now, timeout);
    DeviceShape2(TransferStep(script, s, now, timeout));
    var action := CurrentAction(s.driver);
    var value := if action.write then action.value else ReadValue(s.device, action.register);
    NoBatch(s.driver, script(|s.seen.log|).status, value, now);
    assert s.seen.published + [] == s.seen.published;
  }

  /** A good transfer before the last, as far as freshness is concerned. */
  lemma SamplingFacts(script: Script, s: System, now: uint64, timeout: nat)
    requires s.driver.job.Some? && Trusted(s) && AcquisitionInv(s)
    requires s.driver.job.value.kind == ACQUIRE && script(|s.seen.log|).status == OK
    requires s.driver.job.value.done < 1 + 2 * |Selected(s.driver.job.value.mask)|
    ensures JobInProgram(s.driver) && |s.seen.converted| == MAX_CHANNELS
    ensures var job := s.driver.job.value;
      var action := AcquireAction(job.mask, job.done);
      var after := TransferStep(script, s, now, timeout);
      && after.driver.job.Some?
      && AcquireAdvances(job, after.driver.job.value, action, ReadValue(s.device, action.register))
      && after.seen.published == s.seen.published
      && after.seen.converted == ConvertedAfter(s.seen.converted, s.device, false, action.register, OK)
      && after.seen.counts == (if action.register == REG_STATUS then CountsOf(s.device) else s.seen.counts)
      && Grows(s.device, after.device, s.seen.converted, after.seen.converted)
  {
    hide LatchInv, StickyLegal, TransferStep, JobChannels, LatchedAfter, ConvertedAfter, PublishedInv, FreshIsNew,
      MaxTransfers, Accepted, Holds, QueueInv, Complete, ReadValue, DeviceInv, Grows, Selected, AcquireAction,
      CurrentAction, AfterRead, Written, Within, CountsOf, AcquireAdvances;
    DeviceShape(s);
    EvidenceKept(s, script, now, timeout);
    StepEvidence(script, s, now, timeout);
    StepDriver(script, s, now, timeout);
    StepCounts(script, s, now, timeout);
    var job := s.driver.job.value;
    AcquireOk(s.driver, ReadValue(s.device, CurrentAction(s.driver).register), now);
    CurrentOfAcquire(s.driver);
    AcquireActionShape(job.mask, job.done);
    assert s.seen.published + [] == s.seen.published;
  }

  /** A good transfer before the last keeps what STATUS-before told. */
  lemma SamplingFreshness(script: Script, s: System, now: uint64, timeout: nat)
    requires s.driver.job.Some? && Trusted(s) && AcquisitionInv(s) && FreshnessInv(s)
    requires s.driver.job.value.kind == ACQUIRE && script(|s.seen.log|).status == OK
    requires s.driver.job.value.done < 1 + 2 * |Selected(s.driver.job.value.mask)|
    ensures FreshnessInv(TransferStep(script, s, now, timeout))
  {
    hide TransferStep, Trusted, ConvertedAfter, ReadValue, DeviceInv, Grows, Selected, AllFreshExactly, StatusValue,
      AcquireAction, StatusKnown, ReadsFollow, CountsOf, JobChannels, PublishedInv, FreshIsNew, DecodeDeviceStatus,
      DecodeChannelSample;
    SamplingFacts(script, s, now, timeout);
    var job, after := s.driver.job.value, TransferStep(script, s, now, timeout);
    HistoriesGrow(s.device, after.device, s.seen.converted, after.seen.converted);
    AcquireActionShape(job.mask, job.done);
    if job.done == 0 {
      ReadValueFacts(s.device, 0);
      FirstStatusKnown(after.driver.job.value, s.device, after.device, s.seen.latched, s.seen.converted,
                       after.seen.converted);
    } else {
      DataRegisters(job.mask, job.done);
      StatusStaysKnown(job.before, s.device, after.device, s.seen.counts);
      ConvertedWithin(s.device, s.seen.latched, s.seen.converted);
      ReadsStillFollow(job, after.driver.job.value, s.device, s.seen.counts, s.seen.converted);
    }
  }

  lemma DataRegisters(mask: ChannelMask, k: nat)
    requires 0 < k < 1 + 2 * |Selected(mask)|
    ensures AcquireAction(mask, k).register < 8 && AcquireAction(mask, k).phase != READ_STATUS_BEFORE
  {
    hide Selected, AcquireAction;
    AcquireActionShape(mask, k);
  }

  lemma ConvertedWithin(d: Device, latched: seq<nat>, converted: seq<nat>)
    requires DeviceInv(d, latched, converted)
    ensures forall c :: 0 <= c < MAX_CHANNELS ==> converted[c] <= |d.ch[c].history|
  {
    hide LiveInv, ShadowInv, UnreadInv, StickyLegal;
  }

  /** STATUS-after publishes a sample as fresh exactly when STATUS-before
      showed a conversion of its channel. */
  lemma PublishedFreshExactly(d: Driver, device: Device, latched: seq<nat>, converted: seq<nat>, counts: StatusCounts,
                              value: bv16, now: uint64, i: nat)
    requires d.job.Some? && d.job.value.done == 1 + 2 * |Selected(d.job.value.mask)|
    requires |latched| == MAX_CHANNELS && |converted| == MAX_CHANNELS && i < |Selected(d.job.value.mask)|
    requires StatusKnown(d.job.value.before, device, counts) && ReadsFollow(d.job.value, counts, converted)
    ensures 0 <= Selected(d.job.value.mask)[i] < MAX_CHANNELS
    ensures FreshExactly(Publish(FinalBatch(d, value, now), device, latched, converted, counts,
                                 Selected(d.job.value.mask)[i]))
  {
    hide Selected, Has, BuildBatch, DecodeDeviceStatus;
    var job := d.job.value;
    SelectedAscends(job.mask);
    var c := Selected(job.mask)[i];
    assert MsbDone(job, i);
    assert StatusTold(job.before, counts[c], device.ch[c].history, c);
    EvidenceMembership(job.mask, job.samples, job.before, DecodeDeviceStatus(value), ChannelCountFor(d.config.variant),
                       now, d.revision, c);
  }

  lemma PublishedAllFresh(d: Driver, device: Device, latched: seq<nat>, converted: seq<nat>, counts: StatusCounts,
                          value: bv16, now: uint64, published: seq<Publication>)
    requires d.job.Some? && d.job.value.done == 1 + 2 * |Selected(d.job.value.mask)|
    requires |latched| == MAX_CHANNELS && |converted| == MAX_CHANNELS && AllFreshExactly(published)
    requires StatusKnown(d.job.value.before, device, counts) && ReadsFollow(d.job.value, counts, converted)
    ensures AllFreshExactly(published + PublishSelected(FinalBatch(d, value, now), device, latched, converted, counts))
  {
    hide Selected, FinalBatch, StatusKnown, ReadsFollow, FreshExactly, Publish;
    SelectionPublished(d, value, now);
    SelectedAscends(d.job.value.mask);
    forall i | 0 <= i < |Selected(d.job.value.mask)|
      ensures FreshExactly(Publish(FinalBatch(d, value, now), device, latched, converted, counts,
                                   Selected(d.job.value.mask)[i]))
    {
      PublishedFreshExactly(d, device, latched, converted, counts, value, now, i);
    }
  }

  lemma LastFreshness(script: Script, s: System, now: uint64, timeout: nat)
    requires s.driver.job.Some? && Trusted(s) && AcquisitionInv(s) && FreshnessInv(s)
    requires s.driver.job.value.kind == ACQUIRE && script(|s.seen.log|).status == OK
    requires s.driver.job.value.done == 1 + 2 * |Selected(s.driver.job.value.mask)|
    ensures FreshnessInv(TransferStep(script, s, now, timeout))
  {
    hide StickyLegal, LatchInv, TransferStep, JobChannels, PublishedInv, FreshIsNew, StatusValue, AllFreshExactly,
      MaxTransfers, Accepted, Holds, QueueInv, Complete, DeviceInv, Grows, Selected, AcquireAction, FinalBatch,
      PublishSelected, CurrentAction, AfterRead, Written, Within, StatusKnown, ReadsFollow, CountsOf;
    DeviceShape(s);
    EvidenceKept(s, script, now, timeout);
    StepEvidence(script, s, now, timeout);
    StepDriver(script, s, now, timeout);
    StepCounts(script, s, now, timeout);
    var after := TransferStep(script, s, now, timeout);
    DeviceShape2(after);
    var job := s.driver.job.value;
    CurrentOfAcquire(s.driver);
    AcquireActionShape(job.mask, job.done);
    AcquireOk(s.driver, StatusValue(s.device), now);
    PublishedAllFresh(s.driver, s.device, after.seen.latched, s.seen.converted, s.seen.counts, StatusValue(s.device),
                      now, s.seen.published);
  }

  lemma StepKeepsFreshness(script: Script, s: System, now: uint64, timeout: nat)
    requires s.driver.job.Some? && Trusted(s) && AcquisitionInv(s) && FreshnessInv(s)
    ensures FreshnessInv(TransferStep(script, s, now, timeout))
  {
    hide TransferStep, AcquisitionInv, FreshnessInv, Trusted, Selected;
    TrustedParts(s);
    if s.driver.job.value.kind != ACQUIRE || script(|s.seen.log|).status != OK {
      QuietFreshness(script, s, now, timeout);
    } else {
      CurrentOfAcquire(s.driver);
      if s.driver.job.value.done < 1 + 2 * |Selected(s.driver.job.value.mask)| {
        SamplingFreshness(script, s, now, timeout);
      } else {
        LastFreshness(script, s, now, timeout);
      }
    }
  }

  lemma {:induction false} TransfersKeepFreshness(script: Script, s: System, now: uint64, timeout: nat, remaining: nat)
    requires Trusted(s) && AcquisitionInv(s) && FreshnessInv(s)
    ensures FreshnessInv(Transfers(script, s, now, timeout, remaining))
    decreases remaining
  {
    hide TransferStep, Trusted, AcquisitionInv, FreshnessInv;
    TrustedParts(s);
    if remaining > 0 && s.driver.job.Some? {
      StepKeepsTrust(script, s, now, timeout);
      StepKeepsAcquisition(script, s, now, timeout);
      StepKeepsFreshness(script, s, now, timeout);
      TransfersKeepFreshness(script, TransferStep(script, s, now, timeout), now, timeout, remaining - 1);
    }
  }

  // ----- the owner's operations and the world -------------------------------

  /** A driver that goes idle, or starts afresh, publishes nothing. */
  lemma IdleOrFresh(s: System, after: System)
    requires FreshnessInv(s) && after.seen.published == s.seen.published && |after.seen.converted| == MAX_CHANNELS
    requires after.driver.job.None? || after.driver.job.value.done == 0
    ensures FreshnessInv(after)
  {
    hide AllFreshExactly;
  }

  lemma PollKeepsFreshness(script: Script, s: System, now: uint64, maxTransfers: uint8)
    requires Trusted(s) && AcquisitionInv(s) && FreshnessInv(s)
    ensures FreshnessInv(Poll(script, s, now, maxTransfers))
  {
    hide Trusted, AcquisitionInv, FreshnessInv, Transfers, Abandon, PollBudget, PollTimeout;
    TrustedParts(s);
    DeviceShape(s);
    if s.driver.job.Some? {
      if DueOrPast(now, s.driver.job.value.deadlineMs) {
        AbandonEnds(s.driver, TIMED_OUT, TIMEOUT, now);
        IdleOrFresh(s, Poll(script, s, now, maxTransfers));
      } else if PollBudget(s.driver, now, maxTransfers) > 0 {
        TransfersKeepFreshness(script, s, now, PollTimeout(s.driver, now, maxTransfers),
                               PollBudget(s.driver, now, maxTransfers));
      }
    }
  }

  lemma ConversionKeepsFreshness(s: System, conversion: Conversion)
    requires AcquisitionInv(s) && FreshnessInv(s)
    ensures FreshnessInv(s.(device := Inject(s.device, conversion)))
  {
    hide AcquisitionInv, AllFreshExactly, StatusKnown, ReadsFollow, Convert, LastConversionChannel;
    HistoryGrows(s.device, conversion);
    if s.driver.job.Some? {
      StatusStaysIfKnown(s.driver.job.value.before, s.device, Inject(s.device, conversion), s.seen.counts);
    }
  }

  lemma HistoryGrows(d: Device, conversion: Conversion)
    ensures forall c :: 0 <= c < MAX_CHANNELS ==> d.ch[c].history <= Inject(d, conversion).ch[c].history
  {
    hide LastConversionChannel, ConvertedMsb, ConvertedLsb;
  }

  lemma StatusStaysIfKnown(before: DeviceStatus, d: Device, later: Device, counts: StatusCounts)
    requires forall c :: 0 <= c < MAX_CHANNELS ==> d.ch[c].history <= later.ch[c].history
    ensures StatusKnown(before, d, counts) ==> StatusKnown(before, later, counts)
  {
    if StatusKnown(before, d, counts) { StatusStaysKnown(before, d, later, counts); }
  }

  lemma BookkeepingStarts(script: Script, s: System, e: Event)
    requires JobInProgram(s.driver) && OwnerBookkeeping(e)
    ensures var after := Apply(script, s, e);
      && after.seen.published == s.seen.published && after.seen.converted == s.seen.converted
      && after.seen.counts == s.seen.counts && after.device == s.device
      && (after.driver.job == s.driver.job || after.driver.job.None? || after.driver.job.value.done == 0)
  {
    hide Accepted, SameBinding, StartStatus;
  }

  lemma DirectKeepsPublished(script: Script, s: System, e: Event)
    requires JobInProgram(s.driver) && DirectTransferEvent(e)
    ensures var after := Apply(script, s, e);
      after == s || (after.driver.job.None? && after.seen.published == s.seen.published)
  {
    hide Written, AfterRead, ReadValue, LatchedAfter, ConvertedAfter, IsConfigurationRegister, IsLdc1614OnlyRegister,
      IsValidRegister, PhaseForRegister, ChannelForRegister, BuildConfigRegister, CountsOf;
  }

  lemma ApplyKeepsFreshness(script: Script, s: System, e: Event)
    requires Trusted(s) && AcquisitionInv(s) && FreshnessInv(s)
    ensures FreshnessInv(Apply(script, s, e))
  {
    hide Trusted, AcquisitionInv, FreshnessInv, Poll, Cancel, WriteRegister16, ReadRegister16, SleepOrWake, Inject,
      ClearConversionEvidence, Bind, End, UpdateDesiredConfig, Start, TakeResult;
    TrustedParts(s);
    ApplyKeepsAcquisition(script, s, e);
    DeviceShape(Apply(script, s, e));
    match e
    case PollEvent(now, maxTransfers) => PollKeepsFreshness(script, s, now, maxTransfers);
    case ConversionEvent(conversion) => ConversionKeepsFreshness(s, conversion);
    case CancelEvent =>
      CancelKeeps(s);
      IdleOrFresh(s, Apply(script, s, e));
    case InvalidateEvent(reason) =>
      CancelKeeps(s);
      IdleOrFresh(s, Apply(script, s, e));
    case PowerCycleEvent(regs, cause) =>
      PowerCycleCommutes(s, regs, cause);
      IdleOrFresh(s, Apply(script, s, e));
    case _ => CallKeepsFreshness(script, s, e);
  }

  lemma CallKeepsFreshness(script: Script, s: System, e: Event)
    requires JobInProgram(s.driver) && FreshnessInv(s)
    requires OwnerBookkeeping(e) || DirectTransferEvent(e)
    requires |Apply(script, s, e).seen.converted| == MAX_CHANNELS
    ensures FreshnessInv(Apply(script, s, e))
  {
    hide Apply, AllFreshExactly, StatusKnown, ReadsFollow;
    if OwnerBookkeeping(e) {
      BookkeepingStarts(script, s, e);
    } else {
      DirectKeepsPublished(script, s, e);
    }
  }
}
