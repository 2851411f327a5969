/** Decoders for STATUS and DATA words and the sample batch built from them. */
module Decoding {
  import opened CommandTable
  import opened Profile
  import opened DriverTypes

  const RAW_COUNT_MAX: bv32 := 0x0FFF_FFFF

  function UnreadField(raw: bv16): ChannelMask {
    (if raw & MASK_STATUS_UNREADCONV0 != 0 then 1 else 0)
    | (if raw & MASK_STATUS_UNREADCONV1 != 0 then 2 else 0)
    | (if raw & MASK_STATUS_UNREADCONV2 != 0 then 4 else 0)
    | (if raw & MASK_STATUS_UNREADCONV3 != 0 then 8 else 0)
  }

  /** `(raw & ERR_CHAN) >> 14`. */
  function ErrorChannelField(raw: bv16): Channel {
    if raw & MASK_STATUS_ERR_CHAN == 0 then 0
    else if raw & MASK_STATUS_ERR_CHAN == 0x4000 then 1
    else if raw & MASK_STATUS_ERR_CHAN == 0x8000 then 2
    else 3
  }

  function DecodeDeviceStatus(raw: bv16): DeviceStatus {
    var status := DeviceStatus(
      true, NO_CHANNEL,
      raw & MASK_STATUS_ERR_UR != 0, raw & MASK_STATUS_ERR_OR != 0, raw & MASK_STATUS_ERR_WD != 0,
      raw & MASK_STATUS_ERR_AHE != 0, raw & MASK_STATUS_ERR_ALE != 0, raw & MASK_STATUS_ERR_ZC != 0,
      raw & MASK_STATUS_DRDY != 0, UnreadField(raw), raw);
    if status.HasError() then status.(errorChannel := ErrorChannelField(raw)) else status
  }

  function Count28(msb: bv16, lsb: bv16): bv32 {
    ((msb & MASK_DATA_MSB_DATA) as bv32 << 16) | lsb as bv32
  }

  /** Quality the DATA words alone carry. */
  function DataQuality(msb: bv16, lsb: bv16): bv16 {
    (if msb & MASK_DATA_ERR_UR != 0 || Count28(msb, lsb) == 0 then QUALITY_UNDER_RANGE else 0)
    | (if msb & MASK_DATA_ERR_OR != 0 || Count28(msb, lsb) == RAW_COUNT_MAX then QUALITY_OVER_RANGE else 0)
    | (if msb & MASK_DATA_ERR_WD != 0 then QUALITY_WATCHDOG else 0)
    | (if msb & MASK_DATA_ERR_AE != 0 then QUALITY_AMPLITUDE_SUSPECT else 0)
  }

  function DecodeChannelSample(msb: bv16, lsb: bv16): ChannelSample {
    ChannelSample(Count28(msb, lsb), msb, lsb, DataQuality(msb, lsb))
  }

  // ----- batch --------------------------------------------------------------

  const INVALID_FLAGS: bv16 := 0x7E
  const ERROR_FLAGS: bv16 := 0x7C

  /** Freshness, with raw range endpoints forgiven on stale data unless the
      silicon reported them. */
  function FreshnessQuality(quality: bv16, msb: bv16, isFresh: bool): bv16 {
    if isFresh then quality | QUALITY_FRESH
    else
      var stale := quality | QUALITY_STALE;
      var noUnder := if msb & MASK_DATA_ERR_UR == 0 then stale & !QUALITY_UNDER_RANGE else stale;
      if msb & MASK_DATA_ERR_OR == 0 then noUnder & !QUALITY_OVER_RANGE else noUnder
  }

  /** Faults STATUS-before attributes to channel `index`. */
  function StatusQuality(before: DeviceStatus, index: int): bv16 {
    if !(before.HasError() && before.errorChannel == index) then 0
    else
      (if before.errorUnderRange then QUALITY_UNDER_RANGE else 0)
      | (if before.errorOverRange then QUALITY_OVER_RANGE else 0)
      | (if before.errorWatchdog then QUALITY_WATCHDOG else 0)
      | (if before.errorAmplitudeHigh || before.errorAmplitudeLow then QUALITY_AMPLITUDE_SUSPECT else 0)
      | (if before.errorZeroCount then QUALITY_ZERO_COUNT else 0)
  }

  function MergeQuality(data: bv16, status: bv16, overrun: bool): bv16 {
    data | status | (if overrun then QUALITY_DATA_LOST else 0)
  }

  function SampleQuality(sample: ChannelSample, before: DeviceStatus, after: DeviceStatus, index: int): bv16
    requires 0 <= index < MAX_CHANNELS
  {
    MergeQuality(
      FreshnessQuality(sample.quality, sample.rawDataMsb, Has(before.unreadChannels, index)),
      StatusQuality(before, index), Has(after.unreadChannels, index))
  }

  function WithBit(mask: ChannelMask, i: int): ChannelMask
    requires 0 <= i < MAX_CHANNELS
  {
    mask | ChannelBit(i)
  }

  predicate Meets(quality: bv16, flags: bv16) { quality & flags != 0 }

  /** One bit per selected channel below `count` whose quality avoids (or, when
      `hit`, meets) `flags`. */
  function QualityMask(selected: ChannelMask, samples: Samples, before: DeviceStatus, after: DeviceStatus, flags: bv16,
                       hit: bool, count: nat): ChannelMask
    requires count <= MAX_CHANNELS
  {
    if count == 0 then 0
    else
      var i := count - 1;
      var rest := QualityMask(selected, samples, before, after, flags, hit, i);
      if Has(selected, i) && QualityHits(samples[i], before, after, flags, i) == hit
      then WithBit(rest, i) else rest
  }

  function PublishedSample(selected: ChannelMask, samples: Samples, before: DeviceStatus, after: DeviceStatus,
                           channelCount: int, i: int): ChannelSample
    requires 0 <= i < MAX_CHANNELS
  {
    if i < channelCount && Has(selected, i)
    then samples[i].(quality := SampleQuality(samples[i], before, after, i)) else NO_SAMPLE
  }

  function PublishedSamples(selected: ChannelMask, samples: Samples, before: DeviceStatus, after: DeviceStatus,
                            channelCount: int): Samples
  {
    [PublishedSample(selected, samples, before, after, channelCount, 0),
     PublishedSample(selected, samples, before, after, channelCount, 1),
     PublishedSample(selected, samples, before, after, channelCount, 2),
     PublishedSample(selected, samples, before, after, channelCount, 3)]
  }

  /** The batch an acquisition publishes. */
  function BuildBatch(selected: ChannelMask, samples: Samples, before: DeviceStatus, after: DeviceStatus,
                      channelCount: int, now: uint64, revision: uint32): SampleBatch
    requires 0 <= channelCount <= MAX_CHANNELS
  {
    SampleBatch(
      selected,
      QualityMask(selected, samples, before, after, INVALID_FLAGS, false, channelCount),
      before.unreadChannels & selected,
      QualityMask(selected, samples, before, after, ERROR_FLAGS, true, channelCount),
      after.unreadChannels & selected,
      before, after,
      PublishedSamples(selected, samples, before, after, channelCount),
      now, revision)
  }

  predicate Within(mask: ChannelMask, selected: ChannelMask) {
    mask & !selected == 0
  }

  lemma AddBit(rest: ChannelMask, selected: ChannelMask, j: int, i: int)
    requires 0 <= i < MAX_CHANNELS && 0 <= j < MAX_CHANNELS
    requires Has(selected, j) && Within(rest, selected)
    ensures Has(WithBit(rest, j), i) <==> i == j || Has(rest, i)
    ensures Within(WithBit(rest, j), selected)
  {
  }

  lemma EmptyMask(selected: ChannelMask, i: int)
    requires 0 <= i < MAX_CHANNELS
    ensures !Has(0, i) && Within(0, selected)
  {
  }

  predicate QualityHits(sample: ChannelSample, before: DeviceStatus, after: DeviceStatus, flags: bv16, i: int)
    requires 0 <= i < MAX_CHANNELS
  {
    Meets(SampleQuality(sample, before, after, i), flags)
  }

  lemma AddChannel(selected: ChannelMask, hits: bool, j: int, rest: ChannelMask, mask: ChannelMask, i: int,
                   expected: bool)
    requires 0 <= i < MAX_CHANNELS && 0 <= j < MAX_CHANNELS && Within(rest, selected)
    requires mask == if Has(selected, j) && hits then WithBit(rest, j) else rest
    requires Has(rest, i) <==> i < j && Has(selected, i) && expected
    requires i == j ==> hits == expected
    ensures Has(mask, i) <==> i < j + 1 && Has(selected, i) && expected
    ensures Within(mask, selected)
  {
    hide Has, WithBit, Within;
    if Has(selected, j) {
      AddBit(rest, selected, j, i);
    }
  }

  lemma {:induction false} QualityMaskBits(selected: ChannelMask, samples: Samples, before: DeviceStatus,
                                           after: DeviceStatus, flags: bv16, hit: bool, count: nat, i: int)
    requires 0 <= i < MAX_CHANNELS && count <= MAX_CHANNELS
    ensures Has(QualityMask(selected, samples, before, after, flags, hit, count), i)
      <==> i < count && Has(selected, i) && QualityHits(samples[i], before, after, flags, i) == hit
    ensures Within(QualityMask(selected, samples, before, after, flags, hit, count), selected)
  {
    hide QualityHits, Has, WithBit, Within;
    if count == 0 {
      EmptyMask(selected, i);
    } else {
      var j := count - 1;
      QualityMaskBits(selected, samples, before, after, flags, hit, j, i);
      AddChannel(selected, QualityHits(samples[j], before, after, flags, j) == hit, j,
                 QualityMask(selected, samples, before, after, flags, hit, j),
                 QualityMask(selected, samples, before, after, flags, hit, count), i,
                 QualityHits(samples[i], before, after, flags, i) == hit);
    }
  }

  lemma PublishedQuality(selected: ChannelMask, samples: Samples, before: DeviceStatus, after: DeviceStatus,
                         channelCount: int, now: uint64, revision: uint32, i: int)
    requires 0 <= i < channelCount <= MAX_CHANNELS && Has(selected, i)
    ensures BuildBatch(selected, samples, before, after, channelCount, now, revision).channel[i]
      == samples[i].(quality := SampleQuality(samples[i], before, after, i))
  {
    hide SampleQuality, QualityMask, Has;
  }

  /** Membership of a channel in the evidence masks of a batch. */
  lemma EvidenceMembership(selected: ChannelMask, samples: Samples, before: DeviceStatus, after: DeviceStatus,
                           channelCount: int, now: uint64, revision: uint32, i: int)
    requires 0 <= i < MAX_CHANNELS && 0 <= channelCount <= MAX_CHANNELS
    ensures var batch := BuildBatch(selected, samples, before, after, channelCount, now, revision);
      && (Has(batch.freshChannels, i) <==> Has(selected, i) && Has(before.unreadChannels, i))
      && (Has(batch.overrunChannels, i) <==> Has(selected, i) && Has(after.unreadChannels, i))
      && Within(batch.freshChannels, selected) && Within(batch.overrunChannels, selected)
  {
    hide Has, QualityMask, Within, PublishedSamples;
    WithinSelection(selected, before.unreadChannels, i);
    WithinSelection(selected, after.unreadChannels, i);
  }

  /** Membership of a channel in the verdict masks of a batch. */
  lemma VerdictMembership(selected: ChannelMask, samples: Samples, before: DeviceStatus, after: DeviceStatus,
                          channelCount: int, now: uint64, revision: uint32, i: int)
    requires 0 <= i < channelCount <= MAX_CHANNELS
    ensures var batch := BuildBatch(selected, samples, before, after, channelCount, now, revision);
      && (Has(batch.errorChannels, i) <==> Has(selected, i) && QualityHits(samples[i], before, after, ERROR_FLAGS, i))
      && (Has(batch.validChannels, i) <==>
           Has(selected, i) && !QualityHits(samples[i], before, after, INVALID_FLAGS, i))
      && Within(batch.validChannels, selected) && Within(batch.errorChannels, selected)
  {
    hide QualityHits, Has, QualityMask, Within, PublishedSamples;
    QualityMaskBits(selected, samples, before, after, INVALID_FLAGS, false, channelCount, i);
    QualityMaskBits(selected, samples, before, after, ERROR_FLAGS, true, channelCount, i);
  }

  /** What the masks of a batch mean, for all words: every selected channel is
      fresh or stale but never both, valid is fresh without error, and the
      masks agree with the quality word published for the channel. */
  lemma BatchMasks(selected: ChannelMask, samples: Samples, before: DeviceStatus, after: DeviceStatus,
                   channelCount: int, now: uint64, revision: uint32, i: int)
    requires 0 <= i < channelCount <= MAX_CHANNELS && Has(selected, i)
    requires samples[i] == DecodeChannelSample(samples[i].rawDataMsb, samples[i].rawDataLsb)
    ensures var batch := BuildBatch(selected, samples, before, after, channelCount, now, revision);
      var quality := batch.channel[i].quality;
      && (Has(batch.freshChannels, i) <==> quality & QUALITY_FRESH != 0)
      && (Has(batch.freshChannels, i) <==> quality & QUALITY_STALE == 0)
      && (Has(batch.overrunChannels, i) <==> quality & QUALITY_DATA_LOST != 0)
      && (Has(batch.errorChannels, i) <==> quality & ERROR_FLAGS != 0)
      && (Has(batch.validChannels, i) <==> Has(batch.freshChannels, i) && !Has(batch.errorChannels, i))
      && quality & 0xFF00 == 0
  {
    hide SampleQuality, Has, BuildBatch, DecodeChannelSample;
    EvidenceMembership(selected, samples, before, after, channelCount, now, revision, i);
    VerdictMembership(selected, samples, before, after, channelCount, now, revision, i);
    PublishedQuality(selected, samples, before, after, channelCount, now, revision, i);
    QualityBits(samples[i], before, after, i);
  }

  lemma WithinSelection(selected: ChannelMask, unread: ChannelMask, i: int)
    requires 0 <= i < MAX_CHANNELS
    ensures Has(unread & selected, i) <==> Has(unread, i) && Has(selected, i)
    ensures Within(unread & selected, selected)
  {
  }

  lemma DataQualityRange(msb: bv16, lsb: bv16)
    ensures DataQuality(msb, lsb) & !0x3C == 0
  {
  }

  lemma QualityBits(sample: ChannelSample, before: DeviceStatus, after: DeviceStatus, i: int)
    requires 0 <= i < MAX_CHANNELS
    requires sample == DecodeChannelSample(sample.rawDataMsb, sample.rawDataLsb)
    ensures var quality := SampleQuality(sample, before, after, i);
      && (quality & QUALITY_FRESH != 0 <==> Has(before.unreadChannels, i))
      && (quality & QUALITY_STALE != 0 <==> !Has(before.unreadChannels, i))
      && (quality & QUALITY_DATA_LOST != 0 <==> Has(after.unreadChannels, i))
      && (quality & INVALID_FLAGS != 0 <==> quality & QUALITY_STALE != 0 || quality & ERROR_FLAGS != 0)
      && quality & 0xFF00 == 0
  {
    hide DataQuality, Has;
    DataQualityRange(sample.rawDataMsb, sample.rawDataLsb);
  }
}
