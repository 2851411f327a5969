/** The hardware-in-the-loop runner's independent recomputation of batch masks
    and sample quality, on already parsed output fields, and its agreement
    with the driver's decoders. */
module HilRunner {
  import opened CommandTable
  import opened Profile
  import opened DriverTypes
  import opened Decoding

  /** A printed `status_before=` or `status_after=` line. */
  datatype StatusLine = StatusLine(
    value: bv16, raw: bv16, drdy: bool, unread: ChannelMask, errorChannel: Channel,
    ur: bool, or_: bool, wd: bool, ah: bool, al: bool, zc: bool)

  /** A printed frequency, as `float` reads it. */
  datatype Frequency = MALFORMED | NOT_FINITE | HERTZ(hz: real)

  /** A printed `sample` line. */
  datatype Row = Row(
    channel: int, msb: bv16, lsb: bv16, raw: bv32, raw28: bv32, quality: bv16, frequency: Frequency, inBounds: bool)

  /** What the command asked for: `read` and `last` with no argument, a mask
      (`read`) or a channel (`last`); `None` for an argument that is no number. */
  datatype Asked = ANYTHING | MASK(mask: Option<nat>) | CHANNEL(index: Option<nat>)

  datatype Evidence = Evidence(
    selected: ChannelMask, valid: ChannelMask, fresh_: ChannelMask, error: ChannelMask, overrun: ChannelMask,
    before: StatusLine, after: StatusLine, rows: seq<Row>)

  // ----- what the driver would have printed ---------------------------------

  function PrintedStatus(status: DeviceStatus): StatusLine {
    StatusLine(status.raw, status.raw, status.dataReady, status.unreadChannels, status.errorChannel,
               status.errorUnderRange, status.errorOverRange, status.errorWatchdog,
               status.errorAmplitudeHigh, status.errorAmplitudeLow, status.errorZeroCount)
  }

  /** The `sample` line of one channel; its frequency and bounds verdict come
      from floating-point arithmetic outside this model. */
  function PrintedRow(batch: SampleBatch, channel: int, frequency: Frequency, inBounds: bool): Row
    requires 0 <= channel < MAX_CHANNELS
  {
    var sample := batch.channel[channel];
    Row(channel, sample.rawDataMsb, sample.rawDataLsb, sample.rawCount28, sample.rawCount28, sample.quality,
        frequency, inBounds)
  }

  function RowSample(rows: seq<Row>, channel: int): ChannelSample {
    if rows == [] then NO_SAMPLE
    else if rows[0].channel == channel then DecodeChannelSample(rows[0].msb, rows[0].lsb)
    else RowSample(rows[1..], channel)
  }

  /** The batch the driver publishes for the raw words of the evidence. */
  function DriverBatch(e: Evidence): SampleBatch {
    BuildBatch(e.selected, [RowSample(e.rows, 0), RowSample(e.rows, 1), RowSample(e.rows, 2), RowSample(e.rows, 3)],
               DecodeDeviceStatus(e.before.value), DecodeDeviceStatus(e.after.value), MAX_CHANNELS, 0, 0)
  }

  predicate LegalSelection(selected: ChannelMask) {
    selected != 0 && selected & 0xF0 == 0
  }

  predicate RowsInOrder(e: Evidence) {
    |e.rows| == |Selected(e.selected)| && forall k :: 0 <= k < |e.rows| ==> e.rows[k].channel == Selected(e.selected)[k]
  }

  /** The evidence is exactly what the driver prints for its raw words. */
  predicate Genuine(e: Evidence) {
    SelectedAscends(e.selected);
    var batch := DriverBatch(e);
    && LegalSelection(e.selected)
    && e.before == PrintedStatus(batch.statusBefore) && e.after == PrintedStatus(batch.statusAfter)
    && RowsInOrder(e)
    && e.fresh_ == batch.freshChannels && e.overrun == batch.overrunChannels
    && e.valid == batch.validChannels && e.error == batch.errorChannels
    && (forall k :: 0 <= k < |e.rows| ==>
         e.rows[k] == PrintedRow(batch, Selected(e.selected)[k], e.rows[k].frequency, e.rows[k].inBounds))
  }

  // ----- what the command and the fixture ask for ---------------------------

  /** The number a legal mask stands for. */
  function MaskValue(mask: ChannelMask): nat {
    (if Has(mask, 0) then 1 else 0) + (if Has(mask, 1) then 2 else 0)
    + (if Has(mask, 2) then 4 else 0) + (if Has(mask, 3) then 8 else 0)
  }

  function PowerOfTwo(n: nat): (power: nat)
    ensures power > n
  {
    if n == 0 then 1 else 2 * PowerOfTwo(n - 1)
  }

  /** The selected channels are those the command names, if it names any. */
  predicate Answers(asked: Asked, selected: ChannelMask) {
    match asked
    case ANYTHING => true
    case MASK(mask) => mask.Some? && MaskValue(selected) == mask.value
    case CHANNEL(index) => index.Some? && index.value < MAX_CHANNELS && selected == ChannelBit(index.value)
  }

  /** A plausible frequency; with a sensor attached also a fresh and faultless
      sample within the profile's bounds and the part's range. */
  predicate RowPlausible(row: Row, sensor: bool) {
    && row.frequency.HERTZ? && row.frequency.hz >= 0.0
    && (sensor ==> row.quality == QUALITY_FRESH && row.inBounds && 1000.0 <= row.frequency.hz <= 10_000_000.0)
  }

  lemma LegalMaskValue(selected: ChannelMask, index: nat)
    requires LegalSelection(selected)
    ensures 1 <= MaskValue(selected) <= 15
    ensures MaskValue(selected) == PowerOfTwo(index) <==> index < MAX_CHANNELS && selected == ChannelBit(index)
  {
    assert PowerOfTwo(1) == 2 && PowerOfTwo(2) == 4;
    assert PowerOfTwo(3) == 8 && PowerOfTwo(4) == 16;
    LargePower(index);
  }

  lemma {:induction false} LargePower(n: nat)
    ensures n >= 4 ==> PowerOfTwo(n) >= 16
  {
    if n == 4 {
      assert PowerOfTwo(1) == 2 && PowerOfTwo(2) == 4;
      assert PowerOfTwo(3) == 8;
    }
    if n > 4 { LargePower(n - 1); }
  }

  // ----- the recomputation --------------------------------------------------

  function UnreadBit(channel: int): bv16 {
    if channel == 0 then 8 else if channel == 1 then 4 else if channel == 2 then 2 else 1
  }

  /** `sum(1 << channel for channel in range(4) if raw & (8 >> channel))`. */
  function DecodedUnread(raw: bv16): (unread: ChannelMask)
    ensures unread == UnreadField(raw)
  {
    (if raw & UnreadBit(0) != 0 then 1 else 0) + (if raw & UnreadBit(1) != 0 then 2 else 0)
    + (if raw & UnreadBit(2) != 0 then 4 else 0) + (if raw & UnreadBit(3) != 0 then 8 else 0)
  }

  lemma ErrorFieldNonzero(raw: bv16)
    ensures raw & STATUS_ERROR_MASK != 0 <==> DecodeDeviceStatus(raw).HasError()
    ensures DecodeDeviceStatus(raw).errorChannel ==
      (if raw & STATUS_ERROR_MASK != 0 then ErrorChannelField(raw) else NO_CHANNEL)
  {
  }

  method StatusLineFails(line: StatusLine) returns (failed: bool)
    ensures !failed <==> line == PrintedStatus(DecodeDeviceStatus(line.value))
  {
    hide UnreadField, ErrorChannelField;
    ErrorFieldNonzero(line.value);
    if line.value != line.raw {
      return true;
    }
    var unread := DecodedUnread(line.raw);
    var expectedChannel := if line.raw & 0x3F00 != 0 then ErrorChannelField(line.raw) else 255;
    failed := line.drdy != (line.raw & 0x0040 != 0) || line.unread != unread
      || line.errorChannel != expectedChannel
      || line.ur != (line.raw & 0x2000 != 0) || line.or_ != (line.raw & 0x1000 != 0)
      || line.wd != (line.raw & 0x0800 != 0) || line.ah != (line.raw & 0x0400 != 0)
      || line.al != (line.raw & 0x0200 != 0) || line.zc != (line.raw & 0x0100 != 0);
  }

  // The runner's own quality rule, with its constants.

  function RunnerData(msb: bv16, raw28: bv32, isFresh: bool): bv16 {
    (if isFresh then 1 else 2)
    | (if msb & 0x8000 != 0 || (isFresh && raw28 == 0) then 4 else 0)
    | (if msb & 0x4000 != 0 || (isFresh && raw28 == 0x0FFF_FFFF) then 8 else 0)
    | (if msb & 0x2000 != 0 then 16 else 0) | (if msb & 0x1000 != 0 then 32 else 0)
  }

  function RunnerStatus(channel: int, status: bv16): bv16 {
    if ErrorChannelField(status) != channel then 0
    else
      (if status & 0x2000 != 0 then 4 else 0) | (if status & 0x1000 != 0 then 8 else 0)
      | (if status & 0x0800 != 0 then 16 else 0) | (if status & 0x0600 != 0 then 32 else 0)
      | (if status & 0x0100 != 0 then 64 else 0)
  }

  function RunnerQuality(channel: int, msb: bv16, raw28: bv32, isFresh: bool, isOverrun: bool, status: bv16): bv16 {
    MergeQuality(RunnerData(msb, raw28, isFresh), RunnerStatus(channel, status), isOverrun)
  }

  method ExpectedDataQuality(msb: bv16, raw28: bv32, isFresh: bool) returns (quality: bv16)
    ensures quality == RunnerData(msb, raw28, isFresh)
  {
    quality := if isFresh then 1 else 2;
    if msb & 0x8000 != 0 { quality := quality | 4; }
    if msb & 0x4000 != 0 { quality := quality | 8; }
    if msb & 0x2000 != 0 { quality := quality | 16; }
    if msb & 0x1000 != 0 { quality := quality | 32; }
    if isFresh {
      if raw28 == 0 { quality := quality | 4; }
      if raw28 == 0x0FFF_FFFF { quality := quality | 8; }
    }
  }

  method ExpectedStatusQuality(channel: int, status: bv16) returns (quality: bv16)
    ensures quality == RunnerStatus(channel, status)
  {
    hide ErrorChannelField;
    quality := 0;
    if ErrorChannelField(status) == channel {
      if status & 0x2000 != 0 { quality := quality | 4; }
      if status & 0x1000 != 0 { quality := quality | 8; }
      if status & 0x0800 != 0 { quality := quality | 16; }
      if status & 0x0600 != 0 { quality := quality | 32; }
      if status & 0x0100 != 0 { quality := quality | 64; }
    }
  }

  lemma DataAgreement(msb: bv16, lsb: bv16, isFresh: bool)
    ensures FreshnessQuality(DataQuality(msb, lsb), msb, isFresh) == RunnerData(msb, Count28(msb, lsb), isFresh)
  {
    hide Count28;
  }

  lemma StatusAgreement(channel: int, before: bv16)
    requires 0 <= channel < MAX_CHANNELS
    ensures StatusQuality(DecodeDeviceStatus(before), channel) == RunnerStatus(channel, before)
  {
    hide UnreadField, ErrorChannelField;
  }

  /** The two implementations agree on the quality word of every sample. */
  lemma QualityAgreement(channel: int, msb: bv16, lsb: bv16, before: bv16, after: bv16)
    requires 0 <= channel < MAX_CHANNELS
    ensures SampleQuality(DecodeChannelSample(msb, lsb), DecodeDeviceStatus(before), DecodeDeviceStatus(after), channel)
      == RunnerQuality(channel, msb, Count28(msb, lsb),
                        Has(DecodeDeviceStatus(before).unreadChannels, channel),
                        Has(DecodeDeviceStatus(after).unreadChannels, channel), before)
  {
    hide Has, Count28, DecodeDeviceStatus, RunnerData, RunnerStatus, FreshnessQuality, DataQuality, StatusQuality,
      MergeQuality;
    DataAgreement(msb, lsb, Has(DecodeDeviceStatus(before).unreadChannels, channel));
    StatusAgreement(channel, before);
  }

  // ----- the whole record ---------------------------------------------------

  lemma MaskFromBits(a: ChannelMask, b: ChannelMask, selected: ChannelMask)
    requires Within(a, selected) && Within(b, selected) && selected & 0xF0 == 0
    requires forall i :: 0 <= i < MAX_CHANNELS && Has(selected, i) ==> (Has(a, i) <==> Has(b, i))
    ensures a == b
  {
    assert Has(selected, 0) ==> (Has(a, 0) <==> Has(b, 0));
    assert Has(selected, 1) ==> (Has(a, 1) <==> Has(b, 1));
    assert Has(selected, 2) ==> (Has(a, 2) <==> Has(b, 2));
    assert Has(selected, 3) ==> (Has(a, 3) <==> Has(b, 3));
  }

  lemma {:induction false} RowSampleAt(rows: seq<Row>, k: int)
    requires 0 <= k < |rows|
    requires forall i, j :: 0 <= i < j < |rows| ==> rows[i].channel < rows[j].channel
    ensures RowSample(rows, rows[k].channel) == DecodeChannelSample(rows[k].msb, rows[k].lsb)
  {
    hide DecodeChannelSample;
    if k > 0 {
      assert rows[0].channel < rows[k].channel;
      RowSampleAt(rows[1..], k - 1);
    }
  }

  /** Row `k` and the verdict bits of its channel are the driver's. */
  predicate RowAgrees(e: Evidence, k: int)
    requires RowsInOrder(e) && 0 <= k < |e.rows|
  {
    SelectedAscends(e.selected);
    var batch := DriverBatch(e);
    var channel := e.rows[k].channel;
    && e.rows[k] == PrintedRow(batch, channel, e.rows[k].frequency, e.rows[k].inBounds)
    && (Has(e.error, channel) <==> Has(batch.errorChannels, channel))
    && (Has(e.valid, channel) <==> Has(batch.validChannels, channel))
  }

  /** What the driver prints for the channel of row `k`. */
  lemma PrintedRowFields(e: Evidence, k: int)
    requires RowsInOrder(e) && 0 <= k < |e.rows|
    ensures var row := e.rows[k];
      var batch := DriverBatch(e);
      && 0 <= row.channel < MAX_CHANNELS && Has(e.selected, row.channel)
      && batch.channel[row.channel].rawDataMsb == row.msb && batch.channel[row.channel].rawDataLsb == row.lsb
      && batch.channel[row.channel].rawCount28 == Count28(row.msb, row.lsb)
      && batch.channel[row.channel].quality == RunnerQuality(
           row.channel, row.msb, Count28(row.msb, row.lsb),
           Has(batch.freshChannels, row.channel), Has(batch.overrunChannels, row.channel), e.before.value)
  {
    hide Has, SampleQuality, RunnerQuality, DecodeDeviceStatus, QualityMask, DataQuality, Count28;
    SelectedAscends(e.selected);
    var row := e.rows[k];
    RowSampleAt(e.rows, k);
    var samples := [RowSample(e.rows, 0), RowSample(e.rows, 1), RowSample(e.rows, 2), RowSample(e.rows, 3)];
    var before, after := DecodeDeviceStatus(e.before.value), DecodeDeviceStatus(e.after.value);
    PublishedQuality(e.selected, samples, before, after, MAX_CHANNELS, 0, 0, row.channel);
    EvidenceMembership(e.selected, samples, before, after, MAX_CHANNELS, 0, 0, row.channel);
    QualityAgreement(row.channel, row.msb, row.lsb, e.before.value, e.after.value);
  }

  lemma PrintedRowVerdict(e: Evidence, k: int)
    requires RowsInOrder(e) && 0 <= k < |e.rows|
    ensures var row := e.rows[k];
      var batch := DriverBatch(e);
      && 0 <= row.channel < MAX_CHANNELS
      && var quality := batch.channel[row.channel].quality;
      && (Has(batch.freshChannels, row.channel) <==> quality & 1 != 0)
      && (Has(batch.freshChannels, row.channel) <==> quality & 2 == 0)
      && (Has(batch.overrunChannels, row.channel) <==> quality & 0x80 != 0)
      && (Has(batch.errorChannels, row.channel) <==> quality & 0x7C != 0)
      && (Has(batch.validChannels, row.channel) <==> quality & 0x7E == 0)
      && quality & 0xFF00 == 0
  {
    hide Has, SampleQuality, DecodeDeviceStatus, QualityMask, DataQuality, Count28;
    SelectedAscends(e.selected);
    var row := e.rows[k];
    RowSampleAt(e.rows, k);
    var samples := [RowSample(e.rows, 0), RowSample(e.rows, 1), RowSample(e.rows, 2), RowSample(e.rows, 3)];
    var before, after := DecodeDeviceStatus(e.before.value), DecodeDeviceStatus(e.after.value);
    BatchMasks(e.selected, samples, before, after, MAX_CHANNELS, 0, 0, row.channel);
  }

  /** The tests of one `sample` row. */
  method RowFails(e: Evidence, k: int, sensor: bool) returns (failed: bool)
    requires RowsInOrder(e) && 0 <= k < |e.rows|
    requires e.fresh_ == DriverBatch(e).freshChannels && e.overrun == DriverBatch(e).overrunChannels
    ensures !failed <==> RowAgrees(e, k) && RowPlausible(e.rows[k], sensor)
  {
    failed := RowDisagrees(e, k);
    if failed {
      return;
    }
    var row := e.rows[k];
    if row.frequency == MALFORMED {
      return true;
    }
    if row.frequency == NOT_FINITE || row.frequency.hz < 0.0 {
      return true;
    }
    failed := sensor
      && (row.quality != 1 || !row.inBounds || !(1000.0 <= row.frequency.hz <= 10_000_000.0));
  }

  method RowDisagrees(e: Evidence, k: int) returns (failed: bool)
    requires RowsInOrder(e) && 0 <= k < |e.rows|
    requires e.fresh_ == DriverBatch(e).freshChannels && e.overrun == DriverBatch(e).overrunChannels
    ensures !failed <==> RowAgrees(e, k)
  {
    hide Has, DriverBatch, Count28, RunnerQuality, RunnerData, RunnerStatus, ErrorChannelField;
    PrintedRowFields(e, k);
    PrintedRowVerdict(e, k);
    var row := e.rows[k];
    var isFresh, isOverrun := Has(e.fresh_, row.channel), Has(e.overrun, row.channel);
    if row.raw != row.raw28 || row.raw28 != Count28(row.msb, row.lsb) {
      return true;
    }
    var expected := ExpectedQuality(row.channel, row.msb, row.raw28, isFresh, isOverrun, e.before.value);
    if row.quality != expected {
      return true;
    }
    failed := row.quality & 0xFF00 != 0
      || (row.quality & 1 != 0) == (row.quality & 2 != 0)
      || (row.quality & 1 != 0) != isFresh
      || (row.quality & 0x7C != 0) != Has(e.error, row.channel)
      || (row.quality & 0x80 != 0) != isOverrun
      || (row.quality & 0x7E == 0) != Has(e.valid, row.channel);
  }

  method ExpectedQuality(channel: int, msb: bv16, raw28: bv32, isFresh: bool, isOverrun: bool, status: bv16)
    returns (quality: bv16)
    ensures quality == RunnerQuality(channel, msb, raw28, isFresh, isOverrun, status)
  {
    hide RunnerData, RunnerStatus;
    var data := ExpectedDataQuality(msb, raw28, isFresh);
    var attributed := ExpectedStatusQuality(channel, status);
    quality := data | attributed;
    if isOverrun {
      quality := quality | 0x80;
    }
  }

  /** `mask` is the unread channels of a raw STATUS, as far as selected. */
  predicate ShowsUnread(mask: ChannelMask, raw: bv16, selected: ChannelMask) {
    mask == UnreadField(raw) & selected
  }

  /** The record apart from its rows and verdict bits. */
  predicate HeaderGenuine(e: Evidence) {
    && LegalSelection(e.selected)
    && Within(e.valid, e.selected) && Within(e.error, e.selected)
    && e.before == PrintedStatus(DecodeDeviceStatus(e.before.value))
    && e.after == PrintedStatus(DecodeDeviceStatus(e.after.value))
    && ShowsUnread(e.fresh_, e.before.value, e.selected)
    && ShowsUnread(e.overrun, e.after.value, e.selected)
  }

  /** The requested mask of the command line, if it has one. */
  method SelectionFails(asked: Asked, selected: ChannelMask) returns (failed: bool)
    requires LegalSelection(selected)
    ensures !failed <==> Answers(asked, selected)
  {
    hide MaskValue, PowerOfTwo;
    if asked == ANYTHING {
      return false;
    }
    var requested := if asked.MASK? then asked.mask else asked.index;
    if asked.CHANNEL? && requested.Some? {
      LegalMaskValue(selected, requested.value);
      requested := Some(PowerOfTwo(requested.value));
    }
    failed := requested == None || MaskValue(selected) != requested.value;
  }

  method MasksFail(e: Evidence) returns (failed: bool)
    ensures !failed <==>
      && LegalSelection(e.selected)
      && Within(e.valid, e.selected) && Within(e.fresh_, e.selected)
      && Within(e.error, e.selected) && Within(e.overrun, e.selected)
  {
    if e.selected == 0 || e.selected & !0x0F != 0 {
      return true;
    }
    failed := !Within(e.valid, e.selected) || !Within(e.fresh_, e.selected)
      || !Within(e.error, e.selected) || !Within(e.overrun, e.selected);
  }

  method UnreadFails(mask: ChannelMask, raw: bv16, selected: ChannelMask) returns (failed: bool)
    ensures !failed <==> ShowsUnread(mask, raw, selected)
  {
    hide UnreadField;
    failed := mask != DecodedUnread(raw) & selected;
  }

  method HeaderFails(e: Evidence, asked: Asked) returns (failed: bool)
    ensures !failed <==> HeaderGenuine(e) && Answers(asked, e.selected)
  {
    hide DecodeDeviceStatus, PrintedStatus, ShowsUnread, Answers, Within, LegalSelection;
    EvidenceWithin(e);
    failed := MasksFail(e);
    if !failed {
      failed := SelectionFails(asked, e.selected);
    }
    if !failed {
      failed := StatusLineFails(e.before);
    }
    if !failed {
      failed := StatusLineFails(e.after);
    }
    if !failed {
      failed := UnreadFails(e.fresh_, e.before.value, e.selected);
    }
    if !failed {
      failed := UnreadFails(e.overrun, e.after.value, e.selected);
    }
  }

  lemma EvidenceWithin(e: Evidence)
    ensures ShowsUnread(e.fresh_, e.before.value, e.selected) ==> Within(e.fresh_, e.selected)
    ensures ShowsUnread(e.overrun, e.after.value, e.selected) ==> Within(e.overrun, e.selected)
  {
    hide UnreadField;
  }

  predicate AllPlausible(rows: seq<Row>, sensor: bool) {
    forall k :: 0 <= k < |rows| ==> RowPlausible(rows[k], sensor)
  }

  /** `batch_evidence_failure` accepts a record if and only if it is exactly
      what the driver publishes and prints for the record's raw words, of the
      channels the command asked for, with plausible frequencies. */
  method BatchEvidenceFailure(e: Evidence, asked: Asked, sensor: bool) returns (failed: bool)
    ensures !failed <==> Genuine(e) && Answers(asked, e.selected) && AllPlausible(e.rows, sensor)
  {
    hide HeaderGenuine, RowAgrees, Genuine, DriverBatch, Selected, Answers, RowPlausible;
    GenuineParts(e);
    failed := HeaderFails(e, asked);
    if failed {
      return;
    }
    HeaderUnread(e);
    if |e.rows| != |Selected(e.selected)|
       || exists k :: 0 <= k < |e.rows| && e.rows[k].channel != Selected(e.selected)[k] {
      return true;
    }
    var k := 0;
    while k < |e.rows|
      invariant 0 <= k <= |e.rows|
      invariant forall j :: 0 <= j < k ==> RowAgrees(e, j) && RowPlausible(e.rows[j], sensor)
    {
      failed := RowFails(e, k, sensor);
      if failed {
        return;
      }
      k := k + 1;
    }
  }

  lemma HeaderUnread(e: Evidence)
    requires HeaderGenuine(e)
    ensures e.fresh_ == DriverBatch(e).freshChannels && e.overrun == DriverBatch(e).overrunChannels
  {
    hide UnreadField, QualityMask, PublishedSamples, RowSample, ErrorChannelField, PrintedStatus, Within;
  }

  lemma StatusUnread(raw: bv16)
    ensures DecodeDeviceStatus(raw).unreadChannels == UnreadField(raw)
    ensures DecodeDeviceStatus(raw).raw == raw
  {
    hide UnreadField, ErrorChannelField;
  }

  lemma BatchVerdictsWithin(e: Evidence)
    ensures Within(DriverBatch(e).validChannels, e.selected) && Within(DriverBatch(e).errorChannels, e.selected)
    ensures DriverBatch(e).freshChannels == UnreadField(e.before.value) & e.selected
    ensures DriverBatch(e).overrunChannels == UnreadField(e.after.value) & e.selected
    ensures DriverBatch(e).statusBefore == DecodeDeviceStatus(e.before.value)
    ensures DriverBatch(e).statusAfter == DecodeDeviceStatus(e.after.value)
  {
    hide Has, DecodeDeviceStatus, QualityMask, Within, RowSample, PublishedSamples, UnreadField;
    var samples := [RowSample(e.rows, 0), RowSample(e.rows, 1), RowSample(e.rows, 2), RowSample(e.rows, 3)];
    var before, after := DecodeDeviceStatus(e.before.value), DecodeDeviceStatus(e.after.value);
    StatusUnread(e.before.value);
    StatusUnread(e.after.value);
    VerdictMembership(e.selected, samples, before, after, MAX_CHANNELS, 0, 0, 0);
  }

  lemma GenuineParts(e: Evidence)
    ensures Genuine(e) <==> HeaderGenuine(e) && RowsInOrder(e) && forall j :: 0 <= j < |e.rows| ==> RowAgrees(e, j)
  {
    hide HeaderGenuine, Genuine, RowAgrees;
    if HeaderGenuine(e) && RowsInOrder(e) && forall j :: 0 <= j < |e.rows| ==> RowAgrees(e, j) {
      PartsMakeGenuine(e);
    }
    if Genuine(e) {
      GenuineHasParts(e);
    }
  }

  lemma GenuineHasParts(e: Evidence)
    requires Genuine(e)
    ensures HeaderGenuine(e) && RowsInOrder(e) && forall j :: 0 <= j < |e.rows| ==> RowAgrees(e, j)
  {
    hide Has, DecodeDeviceStatus, Within, DriverBatch, PrintedStatus, PrintedRow, UnreadField, Selected, LegalSelection;
    SelectedAscends(e.selected);
    BatchVerdictsWithin(e);
    forall k | 0 <= k < |e.rows|
      ensures RowAgrees(e, k)
    {
      assert e.rows[k].channel == Selected(e.selected)[k];
    }
  }

  lemma PartsMakeGenuine(e: Evidence)
    requires HeaderGenuine(e) && RowsInOrder(e)
    requires forall j :: 0 <= j < |e.rows| ==> RowAgrees(e, j)
    ensures Genuine(e)
  {
    hide Has, DecodeDeviceStatus, Within, DriverBatch, PrintedStatus, PrintedRow, UnreadField, Selected, LegalSelection;
    SelectedAscends(e.selected);
    BatchVerdictsWithin(e);
    VerdictMasksEqual(e);
    forall k | 0 <= k < |e.rows|
      ensures e.rows[k]
        == PrintedRow(DriverBatch(e), Selected(e.selected)[k], e.rows[k].frequency, e.rows[k].inBounds)
    {
      assert RowAgrees(e, k);
    }
  }

  lemma VerdictMasksEqual(e: Evidence)
    requires HeaderGenuine(e) && RowsInOrder(e)
    requires forall j :: 0 <= j < |e.rows| ==> RowAgrees(e, j)
    ensures e.valid == DriverBatch(e).validChannels && e.error == DriverBatch(e).errorChannels
  {
    hide Has, DecodeDeviceStatus, Within, DriverBatch, PrintedStatus, PrintedRow, UnreadField, Selected;
    SelectedAscends(e.selected);
    BatchVerdictsWithin(e);
    var batch := DriverBatch(e);
    forall i | 0 <= i < MAX_CHANNELS && Has(e.selected, i)
      ensures (Has(e.error, i) <==> Has(batch.errorChannels, i)) && (Has(e.valid, i) <==> Has(batch.validChannels, i))
    {
      var j :| 0 <= j < |Selected(e.selected)| && Selected(e.selected)[j] == i;
      assert RowAgrees(e, j);
    }
    MaskFromBits(e.valid, batch.validChannels, e.selected);
    MaskFromBits(e.error, batch.errorChannels, e.selected);
  }

  /** What a sensor fixture's acceptance means for the driver's own batch:
      every selected channel fresh and valid, none overrun or in error. */
  lemma SensorBatchIsClean(e: Evidence)
    requires Genuine(e) && AllPlausible(e.rows, true)
    ensures var batch := DriverBatch(e);
      && batch.freshChannels == e.selected && batch.validChannels == e.selected
      && batch.errorChannels == 0 && batch.overrunChannels == 0
  {
    hide Has, DriverBatch, Selected, PrintedStatus, UnreadField, DecodeDeviceStatus, Within;
    SelectedAscends(e.selected);
    BatchVerdictsWithin(e);
    SelectionWithin(e);
    var batch := DriverBatch(e);
    forall i | 0 <= i < MAX_CHANNELS && Has(e.selected, i)
      ensures Has(batch.freshChannels, i) && Has(batch.validChannels, i)
      ensures !Has(batch.errorChannels, i) && !Has(batch.overrunChannels, i)
    {
      var k :| 0 <= k < |Selected(e.selected)| && Selected(e.selected)[k] == i;
      PrintedRowVerdict(e, k);
      assert RowPlausible(e.rows[k], true);
    }
    NothingHas();
    MaskFromBits(batch.freshChannels, e.selected, e.selected);
    MaskFromBits(batch.validChannels, e.selected, e.selected);
    MaskFromBits(batch.errorChannels, 0, e.selected);
    MaskFromBits(batch.overrunChannels, 0, e.selected);
  }

  lemma NothingHas()
    ensures forall i :: 0 <= i < MAX_CHANNELS ==> !Has(0, i)
  {
  }

  lemma SelectionWithin(e: Evidence)
    ensures Within(e.selected, e.selected) && Within(0, e.selected)
    ensures Within(DriverBatch(e).freshChannels, e.selected) && Within(DriverBatch(e).overrunChannels, e.selected)
  {
    hide DriverBatch, UnreadField, DecodeDeviceStatus;
    BatchVerdictsWithin(e);
  }
}
