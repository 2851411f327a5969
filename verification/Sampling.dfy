/** The acquisition invariant over every transfer and every event of a run. */
module Sampling {
  import opened CommandTable
  import opened Profile
  import opened DriverTypes
  import opened Registers
  import opened Validation
  import opened Decoding
  import opened Chip
  import opened Machine
  import opened Engine
  import opened Trust
  import opened Conversions
  import opened Acquisition

  // ----- what one transfer does to driver and observer ----------------------

  lemma StepEvidence(script: Script, s: System, now: uint64, timeout: nat)
    requires s.driver.job.Some? && JobInProgram(s.driver)
    requires |s.seen.latched| == MAX_CHANNELS && |s.seen.converted| == MAX_CHANNELS
    ensures var action := CurrentAction(s.driver);
      var choice := script(|s.seen.log|);
      var after := TransferStep(script, s, now, timeout);
      && after.seen.latched == LatchedAfter(s.seen.latched, s.device, action.write, action.register, choice.status)
      && after.seen.converted == ConvertedAfter(s.seen.converted, s.device, action.write, action.register,
                                                choice.status)
      && after.device == DeviceAfter(s.device, choice, action.write, action.register, action.value)
      && after.seen.published == s.seen.published +
           (if PublishedBatch(s.driver, after.driver).Some?
            then PublishSelected(PublishedBatch(s.driver, after.driver).value, s.device, after.seen.latched,
                                 after.seen.converted,
                                 after.seen.priorCounts)
            else [])
  {
    hide Complete, Written, AfterRead, ReadValue, ReplayAction, AcquireAction, ReplayLength, Selected, PublishSelected,
      PublishedBatch, MaxTransfers, CurrentAction;
    assert s.seen.published + [] == s.seen.published;
  }

  /** A job that is not an acquisition publishes nothing. */
  lemma NoBatch(d: Driver, status: Err, value: bv16, now: uint64)
    requires d.job.Some? && JobInProgram(d) && JobInv(d)
    requires d.job.value.kind != ACQUIRE || status != OK
    ensures PublishedBatch(d, Complete(d, CurrentAction(d), status, value, now)) == None
    ensures var after := Complete(d, CurrentAction(d), status, value, now);
      after.job.Some? ==> after.job.value.kind != ACQUIRE
  {
    hide Complete, ReplayAction, AcquireAction, ReplayLength, Selected, Within;
    CompleteAdvances(d, CurrentAction(d), status, value, now);
  }

  /** How an acquisition that goes on uses the word a read delivered. */
  predicate AcquireAdvances(job: Job, after: Job, action: Action, value: bv16) {
    && after.kind == ACQUIRE && after.mask == job.mask && after.done == job.done + 1
    && after.before == (if action.phase == READ_STATUS_BEFORE then DecodeDeviceStatus(value) else job.before)
    && after.msb == (if action.phase == READ_DATA_MSB then value else job.msb)
    && after.samples ==
         (if action.phase == READ_DATA_LSB && action.channel < MAX_CHANNELS
          then job.samples[action.channel := DecodeChannelSample(job.msb, value)] else job.samples)
  }

  /** A good transfer of an acquisition, phase by phase. */
  lemma AcquireOk(d: Driver, value: bv16, now: uint64)
    requires d.job.Some? && JobInProgram(d) && d.job.value.kind == ACQUIRE
    ensures var action := CurrentAction(d);
      var after := Complete(d, action, OK, value, now);
      && (action.phase != READ_STATUS_AFTER ==>
           && after.job.Some? && PublishedBatch(d, after) == None
           && AcquireAdvances(d.job.value, after.job.value, action, value))
      && (action.phase == READ_STATUS_AFTER ==>
           after.job.None? && PublishedBatch(d, after) == Some(FinalBatch(d, value, now)))
  {
    hide BuildBatch, DecodeDeviceStatus, DecodeChannelSample, ProgressAt, WithBit, Selected, AcquireAction,
      ReplayAction, MaxTransfers;
    CurrentOfAcquire(d);
    AcquireActionShape(d.job.value.mask, d.job.value.done);
  }

  lemma CurrentOfAcquire(d: Driver)
    requires d.job.Some? && JobInProgram(d) && d.job.value.kind == ACQUIRE
    ensures d.job.value.done < 2 + 2 * |Selected(d.job.value.mask)|
    ensures CurrentAction(d) == AcquireAction(d.job.value.mask, d.job.value.done)
  {
    hide Selected, AcquireAction;
  }

  // ----- one selected channel over one good transfer ------------------------

  predicate PublishedBelow(published: seq<Publication>, c: int, bound: nat) {
    forall n :: 0 <= n < |published| && published[n].channel == c ==> published[n].serial <= bound
  }

  lemma ChannelAtStatus(job: Job, after: Job, d: Device, choice: Choice, latched: seq<nat>, converted: seq<nat>, i: nat,
                        c: int, published: seq<Publication>)
    requires DeviceInv(d, latched, converted) && choice.status == OK && 0 <= c < MAX_CHANNELS
    requires job.done == 0 && AcquireAdvances(job, after, STATUS_BEFORE_ACTION, StatusValue(d))
    ensures ChannelProgress(after, AfterRead(d, choice, REG_STATUS).ch[c], latched[c], converted[c], i, c, published)
  {
    hide LatchInv, StickyLegal, AfterRead, Evolved, ChannelProgress, DecodeDeviceStatus, StatusValue, Has;
    OkRead(d, choice, REG_STATUS, c, converted[c]);
    StatusShowsUnread(d, c);
    AfterStatusBefore(job, after, d.ch[c], AfterRead(d, choice, REG_STATUS).ch[c], latched[c], converted[c], i, c,
                      published);
  }

  lemma ChannelAtOwnMsb(job: Job, after: Job, d: Device, choice: Choice, latched: seq<nat>, converted: seq<nat>, i: nat,
                        c: Channel, published: seq<Publication>)
    requires DeviceInv(d, latched, converted) && choice.status == OK && c < MAX_CHANNELS
    requires job.done == 1 + 2 * i && AcquireAdvances(job, after, MsbAction(c), d.ch[c].liveMsb)
    requires ChannelProgress(job, d.ch[c], latched[c], converted[c], i, c, published)
    requires PublishedBelow(published, c, converted[c])
    ensures ChannelProgress(after, AfterRead(d, choice, RegDataMsb(c)).ch[c], d.ch[c].liveSerial, |d.ch[c].history|, i,
                            c, published)
  {
    hide LatchInv, StickyLegal, AfterRead, Evolved, ChannelProgress, AfterCompletedRead, DecodeDeviceStatus,
      DecodeChannelSample;
    OkRead(d, choice, RegDataMsb(c), c, converted[c]);
    AfterOwnMsb(job, after, d.ch[c], AfterRead(d, choice, RegDataMsb(c)).ch[c], latched[c], converted[c], i, c,
                published);
  }

  lemma ChannelAtOwnLsb(job: Job, after: Job, d: Device, choice: Choice, latched: seq<nat>, converted: seq<nat>, i: nat,
                        c: Channel, published: seq<Publication>)
    requires DeviceInv(d, latched, converted) && choice.status == OK && c < MAX_CHANNELS
    requires job.done == 2 + 2 * i
    requires AcquireAdvances(job, after, LsbAction(c), if d.ch[c].shadowValid then d.ch[c].shadowLsb else 0)
    requires ChannelProgress(job, d.ch[c], latched[c], converted[c], i, c, published)
    ensures ChannelProgress(after, AfterRead(d, choice, RegDataLsb(c)).ch[c], latched[c], converted[c], i, c, published)
  {
    hide LatchInv, StickyLegal, AfterRead, Evolved, ChannelProgress, DecodeDeviceStatus, DecodeChannelSample;
    OkRead(d, choice, RegDataLsb(c), c, converted[c]);
    assert AfterCompletedRead(d.ch[c], RegDataLsb(c), c) == d.ch[c];
    AfterOwnLsb(job, after, d.ch[c], AfterRead(d, choice, RegDataLsb(c)).ch[c], latched[c], converted[c], i, c,
                published);
  }

  lemma ChannelAtOther(job: Job, after: Job, action: Action, value: bv16, d: Device, choice: Choice, latched: seq<nat>,
                       converted: seq<nat>, i: nat, c: int, published: seq<Publication>)
    requires DeviceInv(d, latched, converted) && choice.status == OK && 0 <= c < MAX_CHANNELS
    requires action.channel < MAX_CHANNELS && action.channel != c
    requires action == MsbAction(action.channel) || action == LsbAction(action.channel)
    requires AcquireAdvances(job, after, action, value)
    requires job.done >= 1 && MsbDone(after, i) == MsbDone(job, i) && LsbDone(after, i) == LsbDone(job, i)
    requires MsbDone(job, i) ==> LsbDone(job, i)
    requires ChannelProgress(job, d.ch[c], latched[c], converted[c], i, c, published)
    ensures ChannelProgress(after, AfterRead(d, choice, action.register).ch[c], latched[c], converted[c], i, c,
                            published)
  {
    hide LatchInv, StickyLegal, AfterRead, Evolved, ChannelProgress, DecodeDeviceStatus, DecodeChannelSample;
    OkRead(d, choice, action.register, c, converted[c]);
    assert AfterCompletedRead(d.ch[c], action.register, c) == d.ch[c];
    AfterOther(job, after, d.ch[c], AfterRead(d, choice, action.register).ch[c], latched[c], converted[c], i, c,
               published);
  }

  lemma MsbReadFacts(c: Channel)
    requires c < MAX_CHANNELS
    ensures IsDataMsb(RegDataMsb(c)) && RegDataMsb(c) / 2 == c && !IsDataMsb(RegDataLsb(c)) && !IsDataMsb(REG_STATUS)
  {
  }

  lemma ReadValueFacts(d: Device, c: Channel)
    requires c < MAX_CHANNELS
    ensures ReadValue(d, REG_STATUS) == StatusValue(d)
    ensures ReadValue(d, RegDataMsb(c)) == d.ch[c].liveMsb
    ensures ReadValue(d, RegDataLsb(c)) == if d.ch[c].shadowValid then d.ch[c].shadowLsb else 0
  {
    hide StatusValue;
  }

  lemma DataAction(mask: ChannelMask, k: nat)
    requires 0 < k < 1 + 2 * |Selected(mask)|
    ensures 0 <= (k - 1) / 2 < |Selected(mask)| && 0 <= Selected(mask)[(k - 1) / 2] < MAX_CHANNELS
    ensures AcquireAction(mask, k)
      == (if k % 2 == 1 then MsbAction(Selected(mask)[(k - 1) / 2]) else LsbAction(Selected(mask)[(k - 1) / 2]))
  {
    hide Selected;
    SelectedAscends(mask);
  }

  lemma SelectedDistinct(mask: ChannelMask, i: nat, j: nat)
    requires i < |Selected(mask)| && j < |Selected(mask)| && i != j
    ensures Selected(mask)[i] != Selected(mask)[j]
  {
    hide Selected;
    SelectedAscends(mask);
  }

  /** A selected channel while the DATA words are read. */
  lemma ChannelAtData(job: Job, after: Job, d: Device, choice: Choice, latched: seq<nat>, converted: seq<nat>, i: nat,
                      c: Channel, own: nat, other: Channel, action: Action, published: seq<Publication>)
    requires DeviceInv(d, latched, converted) && choice.status == OK && c < MAX_CHANNELS && other < MAX_CHANNELS
    requires job.done > 0 && own == (job.done - 1) / 2 && (own == i <==> other == c)
    requires action == (if job.done % 2 == 1 then MsbAction(other) else LsbAction(other))
    requires AcquireAdvances(job, after, action, ReadValue(d, action.register))
    requires ChannelProgress(job, d.ch[c], latched[c], converted[c], i, c, published)
    requires PublishedBelow(published, c, converted[c])
    ensures ChannelProgress(after, AfterRead(d, choice, action.register).ch[c],
                            LatchedAfter(latched, d, false, action.register, OK)[c],
                            ConvertedAfter(converted, d, false, action.register, OK)[c], i, c, published)
  {
    hide LatchInv, StickyLegal, AfterRead, ChannelProgress, ReadValue, DecodeDeviceStatus, DecodeChannelSample,
      PublishedBelow, StatusValue, IsDataMsb;
    MsbReadFacts(other);
    ReadValueFacts(d, c);
    if own != i {
      ChannelAtOther(job, after, action, ReadValue(d, action.register), d, choice, latched, converted, i, c, published);
    } else if job.done % 2 == 1 {
      ChannelAtOwnMsb(job, after, d, choice, latched, converted, i, c, published);
    } else {
      ChannelAtOwnLsb(job, after, d, choice, latched, converted, i, c, published);
    }
  }

  /** A selected channel over any good transfer before the last. */
  lemma ChannelStep(job: Job, after: Job, d: Device, choice: Choice, latched: seq<nat>, converted: seq<nat>, i: nat,
                    c: Channel, published: seq<Publication>)
    requires DeviceInv(d, latched, converted) && choice.status == OK
    requires job.done < 1 + 2 * |Selected(job.mask)| && i < |Selected(job.mask)| && c == Selected(job.mask)[i]
    requires AcquireAdvances(job, after, AcquireAction(job.mask, job.done),
                             ReadValue(d, AcquireAction(job.mask, job.done).register))
    requires c < MAX_CHANNELS && ChannelProgress(job, d.ch[c], latched[c], converted[c], i, c, published)
    requires PublishedBelow(published, c, converted[c])
    ensures var register := AcquireAction(job.mask, job.done).register;
      ChannelProgress(after, AfterRead(d, choice, register).ch[c],
                      LatchedAfter(latched, d, false, register, OK)[c],
                      ConvertedAfter(converted, d, false, register, OK)[c],
                      i, c, published)
  {
    hide LatchInv, StickyLegal, AfterRead, ChannelProgress, ReadValue, Selected, DecodeDeviceStatus, AcquireAdvances,
      DecodeChannelSample, PublishedBelow, StatusValue, IsDataMsb;
    if job.done == 0 {
      MsbReadFacts(c);
      ReadValueFacts(d, c);
      ChannelAtStatus(job, after, d, choice, latched, converted, i, c, published);
    } else {
      DataAction(job.mask, job.done);
      var own := (job.done - 1) / 2;
      if own != i { SelectedDistinct(job.mask, own, i); }
      ChannelAtData(job, after, d, choice, latched, converted, i, c, own, Selected(job.mask)[own],
                    AcquireAction(job.mask, job.done), published);
    }
  }

  // ----- publication --------------------------------------------------------

  lemma SelectedWithinVariant(variant: DeviceVariant, channels: ChannelMask, mask: ChannelMask, c: int)
    requires channels & !ValidChannelMask(variant) == 0 && Within(mask, channels)
    requires 0 <= c < MAX_CHANNELS && Has(mask, c)
    ensures c < ChannelCountFor(variant)
  {
  }

  /** STATUS-after publishes one selected channel. */
  lemma ChannelPublished(d: Driver, device: Device, latched: seq<nat>, converted: seq<nat>, counts: StatusCounts,
                         now: uint64, i: nat, c: int, published: seq<Publication>)
    requires d.job.Some? && d.job.value.done == 1 + 2 * |Selected(d.job.value.mask)|
    requires i < |Selected(d.job.value.mask)| && c == Selected(d.job.value.mask)[i]
    requires 0 <= c < ChannelCountFor(d.config.variant) && Has(d.job.value.mask, c)
    requires DeviceInv(device, latched, converted)
    requires ChannelProgress(d.job.value, device.ch[c], latched[c], converted[c], i, c, published)
    ensures var p := Publish(FinalBatch(d, StatusValue(device), now), device, latched, converted, counts, c);
      && PublicationInv(p, device.ch[c].history, converted[c])
      && (p.isFresh ==> NewerThanPublished(published, c, p.serial))
  {
    hide LatchInv, StickyLegal, Has, DecodeDeviceStatus, DecodeChannelSample, Selected, BuildBatch, StatusValue,
      CountOf, NewerThanPublished;
    var job := d.job.value;
    var after := DecodeDeviceStatus(StatusValue(device));
    var count := ChannelCountFor(d.config.variant);
    LatchFacts(device.ch[c], converted[c]);
    StatusShowsUnread(device, c);
    PublishedQuality(job.mask, job.samples, job.before, after, count, now, d.revision, c);
    EvidenceMembership(job.mask, job.samples, job.before, after, count, now, d.revision, c);
    BatchMasks(job.mask, job.samples, job.before, after, count, now, d.revision, c);
  }

  // ----- one transfer -------------------------------------------------------

  lemma BelowConverted(published: seq<Publication>, d: Device, converted: seq<nat>, c: int)
    requires |converted| == MAX_CHANNELS && 0 <= c < MAX_CHANNELS && PublishedInv(published, d, converted)
    ensures PublishedBelow(published, c, converted[c])
  {
    hide CountOf;
  }

  lemma JobChannelsAt(job: Job, d: Device, latched: seq<nat>, converted: seq<nat>, published: seq<Publication>, i: nat)
    requires |latched| == MAX_CHANNELS && |converted| == MAX_CHANNELS
    requires JobChannels(job, d, latched, converted, published) && i < |Selected(job.mask)|
    ensures 0 <= Selected(job.mask)[i] < MAX_CHANNELS
    ensures var c := Selected(job.mask)[i];
      ChannelProgress(job, d.ch[c], latched[c], converted[c], i, c, published)
  {
    hide ChannelProgress, Selected;
    SelectedAscends(job.mask);
  }

  /** All selected channels over one good transfer before the last. */
  lemma JobChannelsStep(job: Job, after: Job, d: Device, choice: Choice, latched: seq<nat>, converted: seq<nat>,
                        published: seq<Publication>)
    requires DeviceInv(d, latched, converted) && choice.status == OK && PublishedInv(published, d, converted)
    requires job.done < 1 + 2 * |Selected(job.mask)| && JobChannels(job, d, latched, converted, published)
    requires AcquireAdvances(job, after, AcquireAction(job.mask, job.done),
                             ReadValue(d, AcquireAction(job.mask, job.done).register))
    ensures var register := AcquireAction(job.mask, job.done).register;
      var l, n := LatchedAfter(latched, d, false, register, OK), ConvertedAfter(converted, d, false, register, OK);
      |l| == MAX_CHANNELS && |n| == MAX_CHANNELS && JobChannels(after, AfterRead(d, choice, register), l, n, published)
  {
    hide StickyLegal, LatchInv, AfterRead, ChannelProgress, ReadValue, Selected, DecodeDeviceStatus, AcquireAdvances,
      DecodeChannelSample, PublishedBelow, PublishedInv, StatusValue, AcquireAction, JobChannels;
    SelectedAscends(job.mask);
    var register := AcquireAction(job.mask, job.done).register;
    var l, n := LatchedAfter(latched, d, false, register, OK), ConvertedAfter(converted, d, false, register, OK);
    forall i | 0 <= i < |Selected(job.mask)|
      ensures var c := Selected(job.mask)[i];
        0 <= c < MAX_CHANNELS && ChannelProgress(after, AfterRead(d, choice, register).ch[c], l[c], n[c], i, c,
                                                 published)
    {
      var c := Selected(job.mask)[i];
      BelowConverted(published, d, converted, c);
      JobChannelsAt(job, d, latched, converted, published, i);
      ChannelStep(job, after, d, choice, latched, converted, i, c, published);
    }
    CollectChannels(job, after, AfterRead(d, choice, register), l, n, published, AcquireAction(job.mask, job.done),
                    ReadValue(d, register));
  }

  lemma CollectChannels(job: Job, after: Job, later: Device, l: seq<nat>, n: seq<nat>, published: seq<Publication>,
                        action: Action, value: bv16)
    requires |l| == MAX_CHANNELS && |n| == MAX_CHANNELS && AcquireAdvances(job, after, action, value)
    requires forall i :: 0 <= i < |Selected(job.mask)| ==>
      && 0 <= Selected(job.mask)[i] < MAX_CHANNELS
      && ChannelProgress(after, later.ch[Selected(job.mask)[i]], l[Selected(job.mask)[i]], n[Selected(job.mask)[i]], i,
                         Selected(job.mask)[i], published)
    ensures JobChannels(after, later, l, n, published)
  {
    hide ChannelProgress, Selected, DecodeDeviceStatus, DecodeChannelSample;
  }

  /** Everything STATUS-after publishes is one untorn conversion, and what is
      fresh is new. */
  lemma BatchPublished(d: Driver, device: Device, latched: seq<nat>, converted: seq<nat>, counts: StatusCounts,
                       now: uint64, published: seq<Publication>)
    requires d.job.Some? && d.job.value.done == 1 + 2 * |Selected(d.job.value.mask)|
    requires d.config.channels & !ValidChannelMask(d.config.variant) == 0 && Within(d.job.value.mask, d.config.channels)
    requires DeviceInv(device, latched, converted) && PublishedInv(published, device, converted)
    requires FreshIsNew(published)
    requires JobChannels(d.job.value, device, latched, converted, published)
    ensures var all := published + PublishSelected(FinalBatch(d, StatusValue(device), now), device, latched, converted,
                                                   counts);
      PublishedInv(all, device, converted) && FreshIsNew(all)
  {
    hide StickyLegal, LatchInv, ChannelProgress, Selected, DecodeDeviceStatus, DecodeChannelSample, PublicationInv,
      StatusValue, BuildBatch, Within, JobChannels, Publish, Has, NewerThanPublished;
    var mask := d.job.value.mask;
    var batch := FinalBatch(d, StatusValue(device), now);
    SelectedAscends(mask);
    SelectionPublished(d, StatusValue(device), now);
    forall i | 0 <= i < |Selected(mask)|
      ensures var c := Selected(mask)[i];
        && PublicationInv(Publish(batch, device, latched, converted, counts, c), device.ch[c].history, converted[c])
        && (Publish(batch, device, latched, converted, counts, c).isFresh ==>
             NewerThanPublished(published, c, Publish(batch, device, latched, converted, counts, c).serial))
    {
      var c := Selected(mask)[i];
      SelectedWithinVariant(d.config.variant, d.config.channels, mask, c);
      JobChannelsAt(d.job.value, device, latched, converted, published, i);
      ChannelPublished(d, device, latched, converted, counts, now, i, c, published);
    }
    AppendPublications(published, batch, device, latched, converted, counts);
  }

  lemma SelectionPublished(d: Driver, value: bv16, now: uint64)
    requires d.job.Some?
    ensures FinalBatch(d, value, now).selectedChannels == d.job.value.mask
  {
    hide DecodeDeviceStatus, QualityMask, PublishedSamples;
  }

  lemma AppendPublications(published: seq<Publication>, batch: SampleBatch, device: Device, latched: seq<nat>,
                           converted: seq<nat>, counts: StatusCounts)
    requires |latched| == MAX_CHANNELS && |converted| == MAX_CHANNELS
    requires PublishedInv(published, device, converted) && FreshIsNew(published)
    requires forall i :: 0 <= i < |Selected(batch.selectedChannels)| ==>
      var c := Selected(batch.selectedChannels)[i];
      && 0 <= c < MAX_CHANNELS
      && PublicationInv(Publish(batch, device, latched, converted, counts, c), device.ch[c].history, converted[c])
      && (Publish(batch, device, latched, converted, counts, c).isFresh ==>
           NewerThanPublished(published, c, Publish(batch, device, latched, converted, counts, c).serial))
    ensures var all := published + PublishSelected(batch, device, latched, converted, counts);
      PublishedInv(all, device, converted) && FreshIsNew(all)
  {
    hide Selected, PublicationInv, Has;
    var added := PublishSelected(batch, device, latched, converted, counts);
    var all := published + added;
    forall n | |published| <= n < |all|
      ensures all[n] == added[n - |published|]
      ensures all[n].channel == Selected(batch.selectedChannels)[n - |published|]
      ensures all[n] == Publish(batch, device, latched, converted, counts, all[n].channel)
    {
    }
    forall m, n | 0 <= m < n < |all| && all[m].channel == all[n].channel && all[n].isFresh
      ensures all[m].serial < all[n].serial
    {
      if |published| <= m {
        SelectedDistinct(batch.selectedChannels, m - |published|, n - |published|);
        assert false;
      }
    }
  }

  lemma EvidenceKept(s: System, script: Script, now: uint64, timeout: nat)
    requires s.driver.job.Some? && JobInProgram(s.driver) && AcquisitionInv(s)
    ensures var after := TransferStep(script, s, now, timeout);
      && DeviceInv(after.device, after.seen.latched, after.seen.converted)
      && Grows(s.device, after.device, s.seen.converted, after.seen.converted)
      && PublishedInv(s.seen.published, after.device, after.seen.converted)
  {
    hide StickyLegal, LatchInv, TransferStep, JobChannels, DeviceAfter, LatchedAfter, ConvertedAfter, PublishedInv,
      FreshIsNew, CurrentAction, MaxTransfers;
    var action := CurrentAction(s.driver);
    var choice := script(|s.seen.log|);
    StepEvidence(script, s, now, timeout);
    TransferKeepsDevice(s.device, choice, action.write, action.register, action.value, s.seen.latched,
                        s.seen.converted);
    PublishedGrows(s.seen.published, s.device, TransferStep(script, s, now, timeout).device, s.seen.converted,
                   TransferStep(script, s, now, timeout).seen.converted);
  }

  lemma QuietStep(script: Script, s: System, now: uint64, timeout: nat)
    requires s.driver.job.Some? && Trusted(s) && AcquisitionInv(s)
    requires s.driver.job.value.kind != ACQUIRE || script(|s.seen.log|).status != OK
    ensures AcquisitionInv(TransferStep(script, s, now, timeout))
  {
    hide StickyLegal, LatchInv, TransferStep, JobChannels, DeviceAfter, LatchedAfter, ConvertedAfter, PublishedInv,
      FreshIsNew, CurrentAction, MaxTransfers, Accepted, Holds, QueueInv, Complete, ReadValue, DeviceInv, Grows;
    DeviceShape(s);
    EvidenceKept(s, script, now, timeout);
    StepEvidence(script, s, now, timeout);
    StepDriver(script, s, now, timeout);
    DeviceShape2(TransferStep(script, s, now, timeout));
    var action := CurrentAction(s.driver);
    var value := if action.write then action.value else ReadValue(s.device, action.register);
    NoBatch(s.driver, script(|s.seen.log|).status, value, now);
    assert s.seen.published + [] == s.seen.published;
  }

  lemma DeviceShape(s: System)
    requires AcquisitionInv(s)
    ensures |s.seen.latched| == MAX_CHANNELS && |s.seen.converted| == MAX_CHANNELS
  {
    hide StickyLegal, LatchInv, JobChannels, PublishedInv, FreshIsNew;
  }

  lemma DeviceShape2(s: System)
    requires DeviceInv(s.device, s.seen.latched, s.seen.converted)
    ensures |s.seen.latched| == MAX_CHANNELS && |s.seen.converted| == MAX_CHANNELS
  {
    hide StickyLegal, LatchInv;
  }

  lemma SamplingStep(script: Script, s: System, now: uint64, timeout: nat)
    requires s.driver.job.Some? && Trusted(s) && AcquisitionInv(s)
    requires s.driver.job.value.kind == ACQUIRE && script(|s.seen.log|).status == OK
    requires s.driver.job.value.done < 1 + 2 * |Selected(s.driver.job.value.mask)|
    ensures AcquisitionInv(TransferStep(script, s, now, timeout))
  {
    hide StickyLegal, LatchInv, TransferStep, JobChannels, LatchedAfter, ConvertedAfter, PublishedInv, FreshIsNew,
      MaxTransfers, Accepted, Holds, QueueInv, Complete, ReadValue, DeviceInv, Grows, Selected, AcquireAction,
      AcquireAdvances, CurrentAction, AfterRead, Written, Within;
    DeviceShape(s);
    EvidenceKept(s, script, now, timeout);
    StepEvidence(script, s, now, timeout);
    StepDriver(script, s, now, timeout);
    DeviceShape2(TransferStep(script, s, now, timeout));
    var job := s.driver.job.value;
    AcquireOk(s.driver, ReadValue(s.device, CurrentAction(s.driver).register), now);
    CurrentOfAcquire(s.driver);
    AcquireActionShape(job.mask, job.done);
    JobChannelsStep(job, TransferStep(script, s, now, timeout).driver.job.value, s.device, script(|s.seen.log|),
                    s.seen.latched, s.seen.converted, s.seen.published);
    assert s.seen.published + [] == s.seen.published;
  }

  lemma LastStep(script: Script, s: System, now: uint64, timeout: nat)
    requires s.driver.job.Some? && Trusted(s) && AcquisitionInv(s)
    requires s.driver.job.value.kind == ACQUIRE && script(|s.seen.log|).status == OK
    requires s.driver.job.value.done == 1 + 2 * |Selected(s.driver.job.value.mask)|
    ensures AcquisitionInv(TransferStep(script, s, now, timeout))
  {
    hide StickyLegal, LatchInv, TransferStep, JobChannels, PublishedInv, FreshIsNew, StatusValue, MaxTransfers, Holds,
      QueueInv, Complete, DeviceInv, Grows, Selected, AcquireAction, FinalBatch, PublishSelected, CurrentAction,
      AfterRead, Written, Within, ChannelAccepted;
    DeviceShape(s);
    EvidenceKept(s, script, now, timeout);
    StepEvidence(script, s, now, timeout);
    StepDriver(script, s, now, timeout);
    DeviceShape2(TransferStep(script, s, now, timeout));
    var job := s.driver.job.value;
    CurrentOfAcquire(s.driver);
    AcquireActionShape(job.mask, job.done);
    AcquireOk(s.driver, StatusValue(s.device), now);
    BatchPublished(s.driver, s.device, s.seen.latched, s.seen.converted,
                   TransferStep(script, s, now, timeout).seen.priorCounts, now, s.seen.published);
    PublishedGrows(TransferStep(script, s, now, timeout).seen.published, s.device,
                   TransferStep(script, s, now, timeout).device, s.seen.converted,
                   TransferStep(script, s, now, timeout).seen.converted);
  }

  lemma StepKeepsAcquisition(script: Script, s: System, now: uint64, timeout: nat)
    requires s.driver.job.Some? && Trusted(s) && AcquisitionInv(s)
    ensures AcquisitionInv(TransferStep(script, s, now, timeout))
  {
    hide TransferStep, AcquisitionInv, Trusted, Selected;
    TrustedParts(s);
    if s.driver.job.value.kind != ACQUIRE || script(|s.seen.log|).status != OK {
      QuietStep(script, s, now, timeout);
    } else {
      CurrentOfAcquire(s.driver);
      if s.driver.job.value.done < 1 + 2 * |Selected(s.driver.job.value.mask)| {
        SamplingStep(script, s, now, timeout);
      } else {
        LastStep(script, s, now, timeout);
      }
    }
  }

  lemma {:induction false} TransfersKeepAcquisition(script: Script, s: System, now: uint64, timeout: nat,
                                                    remaining: nat)
    requires Trusted(s) && AcquisitionInv(s)
    ensures AcquisitionInv(Transfers(script, s, now, timeout, remaining))
    decreases remaining
  {
    hide TransferStep, Trusted, AcquisitionInv;
    TrustedParts(s);
    if remaining > 0 && s.driver.job.Some? {
      StepKeepsTrust(script, s, now, timeout);
      StepKeepsAcquisition(script, s, now, timeout);
      TransfersKeepAcquisition(script, TransferStep(script, s, now, timeout), now, timeout, remaining - 1);
    }
  }

  // ----- the owner's operations and the world -------------------------------

  /** A new idle, freshly started or abandoned driver leaves the evidence. */
  lemma DriverOnly(s: System, after: System)
    requires AcquisitionInv(s) && after.device == s.device
    requires after.seen.latched == s.seen.latched && after.seen.converted == s.seen.converted
    requires after.seen.published == s.seen.published
    requires after.driver.job == s.driver.job || after.driver.job.None? || after.driver.job.value.done == 0
    ensures AcquisitionInv(after)
  {
    hide StickyLegal, LatchInv, PublishedInv, FreshIsNew, Selected, DeviceInv, NewerThanPublished, DecodeChannelSample,
      Has;
    DeviceShape(s);
  }

  /** A direct transfer happens only while no job is active. */
  lemma DirectTransfer(s: System, after: System, choice: Choice, write: bool, register: int, value: bv16)
    requires AcquisitionInv(s) && after.driver.job.None?
    requires after.device == DeviceAfter(s.device, choice, write, register, value)
    requires after.seen.latched == LatchedAfter(s.seen.latched, s.device, write, register, choice.status)
    requires after.seen.converted == ConvertedAfter(s.seen.converted, s.device, write, register, choice.status)
    requires after.seen.published == s.seen.published
    ensures AcquisitionInv(after)
  {
    hide StickyLegal, LatchInv, PublishedInv, FreshIsNew, DeviceAfter, LatchedAfter, ConvertedAfter, JobChannels;
    TransferKeepsDevice(s.device, choice, write, register, value, s.seen.latched, s.seen.converted);
    PublishedGrows(s.seen.published, s.device, after.device, s.seen.converted, after.seen.converted);
  }

  lemma ConversionKeeps(s: System, conversion: Conversion)
    requires AcquisitionInv(s)
    ensures AcquisitionInv(s.(device := Inject(s.device, conversion)))
  {
    hide StickyLegal, LatchInv, PublishedInv, FreshIsNew, Evolved, ChannelProgress, Selected;
    DeviceShape(s);
    var later := Inject(s.device, conversion);
    InjectSticky(s.device, conversion);
    assert InjectAll(s.device, [conversion]) == later by {
      assert [conversion][1..] == [];
    }
    forall c | 0 <= c < MAX_CHANNELS
      ensures LatchInv(later.ch[c], s.seen.converted[c]) && Evolved(s.device.ch[c], later.ch[c])
      ensures s.device.ch[c].history <= later.ch[c].history
    {
      InjectAllEvolves(s.device, [conversion], c, s.seen.converted[c]);
      EvolvedHistory(s.device.ch[c], later.ch[c]);
    }
    PublishedGrows(s.seen.published, s.device, later, s.seen.converted, s.seen.converted);
    if s.driver.job.Some? && s.driver.job.value.kind == ACQUIRE {
      ConversionDuringJob(s, later);
    }
  }

  lemma EvolvedHistory(l: Latch, later: Latch)
    requires Evolved(l, later)
    ensures l.history <= later.history
  {
  }

  lemma ConversionDuringJob(s: System, later: Device)
    requires AcquisitionInv(s) && s.driver.job.Some? && s.driver.job.value.kind == ACQUIRE
    requires forall c :: 0 <= c < MAX_CHANNELS ==> Evolved(s.device.ch[c], later.ch[c])
    ensures |s.seen.latched| == MAX_CHANNELS && |s.seen.converted| == MAX_CHANNELS
    ensures JobChannels(s.driver.job.value, later, s.seen.latched, s.seen.converted, s.seen.published)
  {
    hide StickyLegal, LatchInv, PublishedInv, FreshIsNew, Evolved, ChannelProgress, Selected;
    var job := s.driver.job.value;
    SelectedAscends(job.mask);
    forall i | 0 <= i < |Selected(job.mask)|
      ensures var c := Selected(job.mask)[i];
        0 <= c < MAX_CHANNELS && ChannelProgress(job, later.ch[c], s.seen.latched[c], s.seen.converted[c], i, c,
                                                 s.seen.published)
    {
      var c := Selected(job.mask)[i];
      JobChannelsAt(job, s.device, s.seen.latched, s.seen.converted, s.seen.published, i);
      AfterConversion(job, s.device.ch[c], later.ch[c], s.seen.latched[c], s.seen.converted[c], i, c, s.seen.published);
    }
  }

  /** Power loss clears evidence; histories survive in the observer only. */
  lemma PowerLossKeeps(s: System, regs: RegisterFile)
    requires AcquisitionInv(s) && s.driver.job.None?
    ensures AcquisitionInv(s.(device := ClearConversionEvidence(s.device.(regs := regs))))
  {
    hide LatchInv, PublishedInv, FreshIsNew, JobChannels;
    var later := ClearConversionEvidence(s.device.(regs := regs));
    forall c | 0 <= c < MAX_CHANNELS
      ensures LatchInv(later.ch[c], s.seen.converted[c]) && s.device.ch[c].history <= later.ch[c].history
    {
      assert later.ch[c] == ClearLatch(s.device.ch[c]);
      ClearKeeps(s.device.ch[c], s.seen.converted[c]);
    }
    PublishedGrows(s.seen.published, s.device, later, s.seen.converted, s.seen.converted);
  }

  lemma PollKeeps(script: Script, s: System, now: uint64, maxTransfers: uint8)
    requires Trusted(s) && AcquisitionInv(s)
    ensures AcquisitionInv(Poll(script, s, now, maxTransfers))
  {
    hide Trusted, AcquisitionInv, Transfers, Abandon, PollBudget, PollTimeout;
    TrustedParts(s);
    if s.driver.job.Some? {
      if DueOrPast(now, s.driver.job.value.deadlineMs) {
        AbandonKeepsTrust(s.driver, s.device.regs, TIMED_OUT, TIMEOUT, now);
        DriverOnly(s, Poll(script, s, now, maxTransfers));
      } else if PollBudget(s.driver, now, maxTransfers) > 0 {
        TransfersKeepAcquisition(script, s, now, PollTimeout(s.driver, now, maxTransfers),
                                 PollBudget(s.driver, now, maxTransfers));
      }
    }
  }

  lemma CancelKeeps(s: System)
    requires Trusted(s) && AcquisitionInv(s)
    ensures AcquisitionInv(Cancel(s)) && Cancel(s).driver.job.None? && Cancel(s).seen == s.seen
    ensures Cancel(s).device == s.device
  {
    hide Trusted, AcquisitionInv, Abandon;
    TrustedParts(s);
    CancelKeepsTrust(s);
    DriverOnly(s, Cancel(s));
  }

  lemma DirectKeeps(script: Script, s: System, register: uint8, value: bv16)
    requires AcquisitionInv(s)
    ensures AcquisitionInv(WriteRegister16(script, s, register, value).0)
    ensures AcquisitionInv(ReadRegister16(script, s, register).0)
  {
    hide AcquisitionInv, Written, AfterRead, ReadValue, LatchedAfter, ConvertedAfter, IsConfigurationRegister,
      IsLdc1614OnlyRegister, IsValidRegister, PhaseForRegister, ChannelForRegister, LatchesSample;
    if WriteRegister16(script, s, register, value).0 != s {
      DirectTransfer(s, WriteRegister16(script, s, register, value).0, script(|s.seen.log|), true, register, value);
    }
    if ReadRegister16(script, s, register).0 != s {
      DirectTransfer(s, ReadRegister16(script, s, register).0, script(|s.seen.log|), false, register, value);
    }
  }

  lemma SleepKeeps(script: Script, s: System, to: bool)
    requires AcquisitionInv(s)
    ensures AcquisitionInv(SleepOrWake(script, s, to).0)
  {
    hide AcquisitionInv, Written, LatchedAfter, ConvertedAfter, BuildConfigRegister, LatchesSample;
    if SleepOrWake(script, s, to).0 != s {
      DirectTransfer(s, SleepOrWake(script, s, to).0, script(|s.seen.log|), true, REG_CONFIG,
                     BuildConfigRegister(s.driver.config, to));
    }
  }

  lemma ApplyKeepsAcquisition(script: Script, s: System, e: Event)
    requires Trusted(s) && AcquisitionInv(s)
    ensures AcquisitionInv(Apply(script, s, e))
  {
    hide Trusted, AcquisitionInv, Poll, Cancel, WriteRegister16, ReadRegister16, SleepOrWake, Inject,
      ClearConversionEvidence, Accepted, SameBinding, StartStatus;
    TrustedParts(s);
    match e
    case PollEvent(now, maxTransfers) => PollKeeps(script, s, now, maxTransfers);
    case SleepEvent => SleepKeeps(script, s, true);
    case WakeEvent => SleepKeeps(script, s, false);
    case WriteEvent(register, value) => DirectKeeps(script, s, register, value);
    case ReadEvent(register) => DirectKeeps(script, s, register, 0);
    case ConversionEvent(conversion) => ConversionKeeps(s, conversion);
    case CancelEvent => CancelKeeps(s);
    case InvalidateEvent(reason) =>
      CancelKeeps(s);
      DriverOnly(Cancel(s), Apply(script, s, e));
    case PowerCycleEvent(regs, cause) =>
      CancelKeeps(s);
      PowerLossKeeps(Cancel(s), regs);
      PowerCycleCommutes(s, regs, cause);
      DriverOnly(Cancel(s).(device := ClearConversionEvidence(Cancel(s).device.(regs := regs))), Apply(script, s, e));
    case _ =>
      OrdinaryKeeps(script, s, e);
  }

  lemma PowerCycleCommutes(s: System, regs: RegisterFile, cause: Err)
    requires JobInProgram(s.driver)
    ensures var lost := ClearConversionEvidence(s.device.(regs := regs));
      var after := Invalidate(s.(device := lost), cause);
      && after.device == lost && after.driver.job.None?
      && after.seen == Voided(s.seen) && Cancel(s).seen == s.seen && Cancel(s).device == s.device
  {
    hide ClearConversionEvidence, Abandon;
    if s.driver.job.Some? { AbandonEnds(s.driver, CANCELLED, CANCELLED_BY_OWNER, 0); }
  }

  lemma AbandonEnds(d: Driver, outcome: Outcome, status: Err, now: uint64)
    requires d.job.Some? && JobInProgram(d)
    ensures Abandon(d, outcome, status, now).job.None?
  {
    hide CurrentAction, MaxTransfers;
  }

  lemma OrdinaryKeeps(script: Script, s: System, e: Event)
    requires JobInProgram(s.driver) && AcquisitionInv(s) && OwnerBookkeeping(e)
    ensures AcquisitionInv(Apply(script, s, e))
  {
    hide AcquisitionInv, Accepted, SameBinding, StartStatus;
    DriverOnly(s, Apply(script, s, e));
  }
}
