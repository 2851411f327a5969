/** `_buildAcquisition` as the driver runs it: one pass over the channels that
    grows the verdict masks and the published samples. */
module Batches {
  import opened CommandTable
  import opened Profile
  import opened DriverTypes
  import opened Decoding

  /** Quality of one fresh or stale sample before STATUS faults are merged. */
  method FreshnessOf(sample: ChannelSample, isFresh: bool) returns (quality: bv16)
    ensures quality == FreshnessQuality(sample.quality, sample.rawDataMsb, isFresh)
  {
    quality := sample.quality;
    if isFresh {
      quality := quality | QUALITY_FRESH;
    } else {
      quality := quality | QUALITY_STALE;
      if sample.rawDataMsb & MASK_DATA_ERR_UR == 0 {
        quality := quality & !QUALITY_UNDER_RANGE;
      }
      if sample.rawDataMsb & MASK_DATA_ERR_OR == 0 {
        quality := quality & !QUALITY_OVER_RANGE;
      }
    }
  }

  /** The faults STATUS-before adds for channel `index`. */
  method StatusFaults(before: DeviceStatus, index: Channel) returns (quality: bv16)
    ensures quality == StatusQuality(before, index)
  {
    quality := 0;
    if before.HasError() && before.errorChannel == index {
      if before.errorUnderRange { quality := quality | QUALITY_UNDER_RANGE; }
      if before.errorOverRange { quality := quality | QUALITY_OVER_RANGE; }
      if before.errorWatchdog { quality := quality | QUALITY_WATCHDOG; }
      if before.errorAmplitudeHigh || before.errorAmplitudeLow { quality := quality | QUALITY_AMPLITUDE_SUSPECT; }
      if before.errorZeroCount { quality := quality | QUALITY_ZERO_COUNT; }
    }
  }

  method MergeFaults(data: bv16, faults: bv16, overrun: bool) returns (quality: bv16)
    ensures quality == MergeQuality(data, faults, overrun)
  {
    quality := data | faults;
    if overrun {
      quality := quality | QUALITY_DATA_LOST;
    }
  }

  method FinishSample(sample: ChannelSample, before: DeviceStatus, after: DeviceStatus, index: Channel)
    returns (published: ChannelSample)
    requires index < MAX_CHANNELS
    ensures published == sample.(quality := SampleQuality(sample, before, after, index))
  {
    hide FreshnessQuality, StatusQuality, MergeQuality, Has;
    var data := FreshnessOf(sample, Has(before.unreadChannels, index));
    var faults := StatusFaults(before, index);
    var quality := MergeFaults(data, faults, Has(after.unreadChannels, index));
    published := sample.(quality := quality);
  }

  /** Which channels the pass has published so far. */
  predicate PassInv(selected: ChannelMask, samples: Samples, before: DeviceStatus, after: DeviceStatus,
                    channelCount: int, index: int, channel: Samples, valid: ChannelMask, error: ChannelMask)
    requires 0 <= index <= channelCount <= MAX_CHANNELS
  {
    && valid == QualityMask(selected, samples, before, after, INVALID_FLAGS, false, index)
    && error == QualityMask(selected, samples, before, after, ERROR_FLAGS, true, index)
    && (forall i :: 0 <= i < MAX_CHANNELS ==>
         channel[i]
           == if i < index then PublishedSample(selected, samples, before, after, channelCount, i) else NO_SAMPLE)
  }

  lemma PassStarts(selected: ChannelMask, samples: Samples, before: DeviceStatus, after: DeviceStatus,
                   channelCount: int)
    requires 0 <= channelCount <= MAX_CHANNELS
    ensures PassInv(selected, samples, before, after, channelCount, 0, NO_SAMPLES, 0, 0)
  {
  }

  /** Visiting the next channel extends the pass. */
  lemma PassStep(selected: ChannelMask, samples: Samples, before: DeviceStatus, after: DeviceStatus, channelCount: int,
                 index: int, channel: Samples, valid: ChannelMask, error: ChannelMask)
    requires 0 <= index < channelCount <= MAX_CHANNELS
    requires PassInv(selected, samples, before, after, channelCount, index, channel, valid, error)
    ensures var sample := samples[index].(quality := SampleQuality(samples[index], before, after, index));
      if Has(selected, index) then
        PassInv(selected, samples, before, after, channelCount, index + 1, channel[index := sample],
                if Meets(sample.quality, INVALID_FLAGS) then valid else WithBit(valid, index),
                if Meets(sample.quality, ERROR_FLAGS) then WithBit(error, index) else error)
      else PassInv(selected, samples, before, after, channelCount, index + 1, channel, valid, error)
  {
    hide SampleQuality, Has, WithBit, Meets;
  }

  method BuildAcquisition(selected: ChannelMask, samples: Samples, before: DeviceStatus, after: DeviceStatus,
                          channelCount: int, completedUptimeMs: uint64, revision: uint32) returns (batch: SampleBatch)
    requires 0 <= channelCount <= MAX_CHANNELS
    ensures batch == BuildBatch(selected, samples, before, after, channelCount, completedUptimeMs, revision)
  {
    hide SampleQuality, Has, WithBit, Meets, PassInv, BuildBatch, QualityMask, PublishedSamples;
    var channel: Samples := NO_SAMPLES;
    var valid: ChannelMask, error: ChannelMask := 0, 0;
    var index := 0;
    PassStarts(selected, samples, before, after, channelCount);
    while index < channelCount
      invariant 0 <= index <= channelCount
      invariant PassInv(selected, samples, before, after, channelCount, index, channel, valid, error)
    {
      PassStep(selected, samples, before, after, channelCount, index, channel, valid, error);
      if Has(selected, index) {
        var sample := FinishSample(samples[index], before, after, index);
        if !Meets(sample.quality, INVALID_FLAGS) {
          valid := WithBit(valid, index);
        }
        if Meets(sample.quality, ERROR_FLAGS) {
          error := WithBit(error, index);
        }
        channel := channel[index := sample];
      }
      index := index + 1;
    }
    PassDone(selected, samples, before, after, channelCount, channel, valid, error);
    BatchParts(selected, samples, before, after, channelCount, completedUptimeMs, revision);
    batch := SampleBatch(selected, valid, before.unreadChannels & selected, error, after.unreadChannels & selected,
                         before, after, channel, completedUptimeMs, revision);
  }

  lemma BatchParts(selected: ChannelMask, samples: Samples, before: DeviceStatus, after: DeviceStatus,
                   channelCount: int, now: uint64, revision: uint32)
    requires 0 <= channelCount <= MAX_CHANNELS
    ensures BuildBatch(selected, samples, before, after, channelCount, now, revision)
      == SampleBatch(
           selected, QualityMask(selected, samples, before, after, INVALID_FLAGS, false, channelCount),
           before.unreadChannels & selected, QualityMask(selected, samples, before, after, ERROR_FLAGS, true,
                                                         channelCount),
           after.unreadChannels & selected, before, after,
           PublishedSamples(selected, samples, before, after, channelCount), now, revision)
  {
    hide QualityMask, PublishedSamples;
  }

  lemma PassDone(selected: ChannelMask, samples: Samples, before: DeviceStatus, after: DeviceStatus, channelCount: int,
                 channel: Samples, valid: ChannelMask, error: ChannelMask)
    requires 0 <= channelCount <= MAX_CHANNELS
    requires PassInv(selected, samples, before, after, channelCount, channelCount, channel, valid, error)
    ensures channel == PublishedSamples(selected, samples, before, after, channelCount)
    ensures valid == QualityMask(selected, samples, before, after, INVALID_FLAGS, false, channelCount)
    ensures error == QualityMask(selected, samples, before, after, ERROR_FLAGS, true, channelCount)
  {
    hide QualityMask, SampleQuality, Has;
  }
}
