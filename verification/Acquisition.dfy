/** Acquisition over a destructive device: conversions may land between any two
    transfers, yet every published count is one untorn conversion, freshness is
    never claimed twice for one conversion, and overrun is exact. */
module Acquisition {
  import opened CommandTable
  import opened Profile
  import opened DriverTypes
  import opened Registers
  import opened Validation
  import opened Decoding
  import opened Chip
  import opened Machine
  import opened Engine
  import opened Trust
  import opened Conversions

  // ----- progress of one selected channel -----------------------------------

  /** The MSB (LSB) of the `i`-th selected channel has been read. */
  predicate MsbDone(job: Job, i: nat) { job.done >= 2 + 2 * i }
  predicate LsbDone(job: Job, i: nat) { job.done >= 3 + 2 * i }

  predicate NewerThanPublished(published: seq<Publication>, c: int, serial: nat) {
    forall n :: 0 <= n < |published| && published[n].channel == c ==> published[n].serial < serial
  }

  /** What an acquisition knows about its `i`-th selected channel `c`. */
  predicate ChannelProgress(job: Job, l: Latch, latched: nat, converted: nat, i: nat, c: int,
                            published: seq<Publication>)
    requires 0 <= c < MAX_CHANNELS
  {
    var isFresh := Has(job.before.unreadChannels, c);
    && (job.done >= 1 && !MsbDone(job, i) && isFresh ==> converted < l.liveSerial)
    && (MsbDone(job, i) && !LsbDone(job, i) ==>
         l.shadowValid && Count28(job.msb, l.shadowLsb) == CountOf(l.history, latched))
    && (LsbDone(job, i) ==>
         && job.samples[c] == DecodeChannelSample(job.samples[c].rawDataMsb, job.samples[c].rawDataLsb)
         && job.samples[c].rawCount28 == CountOf(l.history, latched))
    && (MsbDone(job, i) ==> (l.unread <==> |l.history| > converted) && (latched == 0 || latched == converted))
    && (MsbDone(job, i) && isFresh ==> latched > 0 && NewerThanPublished(published, c, latched))
  }

  lemma CountStable(l: Latch, later: Latch, serial: nat)
    requires l.history <= later.history && serial <= |l.history|
    ensures CountOf(later.history, serial) == CountOf(l.history, serial)
  {
  }

  lemma AfterStatusBefore(job: Job, after: Job, l: Latch, later: Latch, latched: nat, converted: nat, i: nat, c: int,
                          published: seq<Publication>)
    requires 0 <= c < MAX_CHANNELS && LatchInv(l, converted) && Evolved(ClearUnread(l), later)
    requires after.done == 1 && (Has(after.before.unreadChannels, c) <==> l.unread)
    ensures ChannelProgress(after, later, latched, converted, i, c, published)
  {
    hide Count28, Has, DecodeChannelSample, NewerThanPublished, CountOf;
  }

  lemma AfterOwnMsb(job: Job, after: Job, l: Latch, later: Latch, latched: nat, converted: nat, i: nat, c: int,
                    published: seq<Publication>)
    requires 0 <= c < MAX_CHANNELS && LatchInv(l, converted) && latched <= converted
    requires ChannelProgress(job, l, latched, converted, i, c, published)
    requires Evolved(AfterCompletedRead(l, RegDataMsb(c), c), later)
    requires job.done == 1 + 2 * i && after.done == job.done + 1 && after.before == job.before && after.msb == l.liveMsb
    requires forall n :: 0 <= n < |published| && published[n].channel == c ==> published[n].serial <= converted
    ensures ChannelProgress(after, later, l.liveSerial, |l.history|, i, c, published)
  {
    hide Count28, Has, DecodeChannelSample;
    assert IsDataMsb(RegDataMsb(c)) && RegDataMsb(c) / 2 == c;
    CountStable(AfterCompletedRead(l, RegDataMsb(c), c), later, l.liveSerial);
  }

  lemma AfterOwnLsb(job: Job, after: Job, l: Latch, later: Latch, latched: nat, converted: nat, i: nat, c: int,
                    published: seq<Publication>)
    requires 0 <= c < MAX_CHANNELS && LatchInv(l, converted) && latched <= converted && Evolved(l, later)
    requires ChannelProgress(job, l, latched, converted, i, c, published)
    requires job.done == 2 + 2 * i && after.done == job.done + 1 && after.before == job.before
    requires after.samples[c] == DecodeChannelSample(job.msb, if l.shadowValid then l.shadowLsb else 0)
    ensures ChannelProgress(after, later, latched, converted, i, c, published)
  {
    hide Count28, Has, NewerThanPublished, DataQuality;
    CountStable(l, later, latched);
  }

  /** A transfer for another channel leaves this one's knowledge intact. */
  lemma AfterOther(job: Job, after: Job, l: Latch, later: Latch, latched: nat, converted: nat, i: nat, c: int,
                   published: seq<Publication>)
    requires 0 <= c < MAX_CHANNELS && LatchInv(l, converted) && latched <= converted && Evolved(l, later)
    requires ChannelProgress(job, l, latched, converted, i, c, published)
    requires job.done >= 1 && after.before == job.before && after.samples[c] == job.samples[c]
    requires MsbDone(after, i) == MsbDone(job, i) && LsbDone(after, i) == LsbDone(job, i)
    requires MsbDone(job, i) ==> LsbDone(job, i)
    ensures ChannelProgress(after, later, latched, converted, i, c, published)
  {
    hide Count28, Has, NewerThanPublished, DecodeChannelSample, CountOf;
    CountStable(l, later, latched);
  }

  /** A conversion from outside keeps what the acquisition knows. */
  lemma AfterConversion(job: Job, l: Latch, later: Latch, latched: nat, converted: nat, i: nat, c: int,
                        published: seq<Publication>)
    requires 0 <= c < MAX_CHANNELS && LatchInv(l, converted) && latched <= converted && Evolved(l, later)
    requires ChannelProgress(job, l, latched, converted, i, c, published)
    ensures ChannelProgress(job, later, latched, converted, i, c, published)
  {
    hide Count28, Has, NewerThanPublished, DecodeChannelSample, CountOf;
    CountStable(l, later, latched);
  }

  // ----- the device under any transfer --------------------------------------

  predicate DeviceInv(d: Device, latched: seq<nat>, converted: seq<nat>) {
    && |latched| == MAX_CHANNELS && |converted| == MAX_CHANNELS && StickyLegal(d)
    && (forall c :: 0 <= c < MAX_CHANNELS ==> LatchInv(d.ch[c], converted[c]) && latched[c] <= converted[c])
  }

  function DeviceAfter(d: Device, choice: Choice, write: bool, register: int, value: bv16): Device {
    if write then Written(d, choice, register, value) else AfterRead(d, choice, register)
  }

  /** Histories only grow, and so do the counts read off them. */
  predicate Grows(d: Device, later: Device, converted: seq<nat>, after: seq<nat>) {
    && |converted| == MAX_CHANNELS && |after| == MAX_CHANNELS
    && (forall c :: 0 <= c < MAX_CHANNELS ==> d.ch[c].history <= later.ch[c].history && converted[c] <= after[c])
  }

  lemma TransferKeepsDevice(d: Device, choice: Choice, write: bool, register: int, value: bv16, latched: seq<nat>,
                            converted: seq<nat>)
    requires DeviceInv(d, latched, converted)
    ensures DeviceInv(DeviceAfter(d, choice, write, register, value),
                      LatchedAfter(latched, d, write, register, choice.status),
                      ConvertedAfter(converted, d, write, register, choice.status))
    ensures Grows(d, DeviceAfter(d, choice, write, register, value), converted,
                  ConvertedAfter(converted, d, write, register, choice.status))
  {
    hide LatchInv, StickyLegal, Written, AfterRead, Evolved;
    if write { WriteSticky(d, choice, register, value); } else { ReadSticky(d, choice, register); }
    forall c | 0 <= c < MAX_CHANNELS
      ensures LatchInv(DeviceAfter(d, choice, write, register, value).ch[c],
                       ConvertedAfter(converted, d, write, register, choice.status)[c])
      ensures LatchedAfter(latched, d, write, register, choice.status)[c]
        <= ConvertedAfter(converted, d, write, register, choice.status)[c]
      ensures d.ch[c].history <= DeviceAfter(d, choice, write, register, value).ch[c].history
      ensures converted[c] <= ConvertedAfter(converted, d, write, register, choice.status)[c]
    {
      ChannelUnderTransfer(d, choice, write, register, value, latched[c], converted[c], c);
    }
  }

  lemma ChannelUnderTransfer(d: Device, choice: Choice, write: bool, register: int, value: bv16, latched: nat,
                             converted: nat, c: int)
    requires 0 <= c < MAX_CHANNELS && LatchInv(d.ch[c], converted) && latched <= converted
    ensures LatchInv(DeviceAfter(d, choice, write, register, value).ch[c], converted)
    ensures d.ch[c].history <= DeviceAfter(d, choice, write, register, value).ch[c].history
    ensures converted <= |d.ch[c].history| && d.ch[c].liveSerial <= |d.ch[c].history|
    ensures LatchesSample(write, register, choice.status) && register / 2 == c ==>
      LatchInv(DeviceAfter(d, choice, write, register, value).ch[c], |d.ch[c].history|)
  {
    hide Written, AfterRead, Evolved, Count28, CountOf, AfterCompletedRead;
    LatchFacts(d.ch[c], converted);
    if write {
      AnyWrite(d, choice, register, value, c, converted);
    } else {
      AnyRead(d, choice, register, c, converted);
      if choice.status == OK {
        OkRead(d, choice, register, c, converted);
      }
    }
  }

  lemma LatchFacts(l: Latch, converted: nat)
    requires LatchInv(l, converted)
    ensures converted <= |l.history| && l.liveSerial <= |l.history|
  {
  }

  // ----- publications -------------------------------------------------------

  /** One untorn conversion, freshness only with a conversion behind it, and
      overrun exactly when the channel converted again before STATUS-after. */
  predicate PublicationInv(p: Publication, history: seq<bv32>, converted: nat) {
    && p.serial <= p.atMsb <= p.atEnd <= |history| && p.atMsb <= converted
    && (p.serial == 0 || p.serial == p.atMsb)
    && p.sample.rawCount28 == CountOf(history, p.serial)
    && (p.isFresh ==> p.serial > 0)
    && (p.isOverrun <==> p.atEnd > p.atMsb)
    && (p.isFresh <==> p.sample.quality & QUALITY_FRESH != 0)
    && (p.isOverrun <==> p.sample.quality & QUALITY_DATA_LOST != 0)
  }

  predicate PublishedInv(published: seq<Publication>, d: Device, converted: seq<nat>)
    requires |converted| == MAX_CHANNELS
  {
    forall n :: 0 <= n < |published| ==>
      && 0 <= published[n].channel < MAX_CHANNELS
      && PublicationInv(published[n], d.ch[published[n].channel].history, converted[published[n].channel])
  }

  /** A fresh sample is newer than everything published before for its channel. */
  predicate FreshIsNew(published: seq<Publication>) {
    forall m, n :: 0 <= m < n < |published| && published[m].channel == published[n].channel && published[n].isFresh
      ==> published[m].serial < published[n].serial
  }

  lemma PublicationGrows(p: Publication, history: seq<bv32>, later: seq<bv32>, converted: nat, after: nat)
    requires PublicationInv(p, history, converted) && history <= later && converted <= after
    ensures PublicationInv(p, later, after)
  {
  }

  lemma PublishedGrows(published: seq<Publication>, d: Device, later: Device, converted: seq<nat>, after: seq<nat>)
    requires Grows(d, later, converted, after) && PublishedInv(published, d, converted)
    ensures PublishedInv(published, later, after)
  {
    hide PublicationInv;
    forall n | 0 <= n < |published|
      ensures 0 <= published[n].channel < MAX_CHANNELS
      ensures PublicationInv(published[n], later.ch[published[n].channel].history, after[published[n].channel])
    {
      var c := published[n].channel;
      PublicationGrows(published[n], d.ch[c].history, later.ch[c].history, converted[c], after[c]);
    }
  }

  // ----- the whole invariant ------------------------------------------------

  predicate JobChannels(job: Job, d: Device, latched: seq<nat>, converted: seq<nat>, published: seq<Publication>)
    requires |latched| == MAX_CHANNELS && |converted| == MAX_CHANNELS
  {
    SelectedAscends(job.mask);
    forall i :: 0 <= i < |Selected(job.mask)| ==>
      var c := Selected(job.mask)[i];
      ChannelProgress(job, d.ch[c], latched[c], converted[c], i, c, published)
  }

  predicate AcquisitionInv(s: System) {
    && DeviceInv(s.device, s.seen.latched, s.seen.converted)
    && PublishedInv(s.seen.published, s.device, s.seen.converted)
    && FreshIsNew(s.seen.published)
    && (s.driver.job.Some? && s.driver.job.value.kind == ACQUIRE ==>
         JobChannels(s.driver.job.value, s.device, s.seen.latched, s.seen.converted, s.seen.published))
  }
}
