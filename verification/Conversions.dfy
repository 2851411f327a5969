/** What a device channel keeps under every transfer and every interleaved
    conversion: its words always stem from one numbered conversion. */
module Conversions {
  import opened CommandTable
  import opened Profile
  import opened DriverTypes
  import opened Decoding
  import opened Chip
  import opened Machine

  /** The 28-bit count of conversion `serial`; 0 for "none since the clear". */
  function CountOf(history: seq<bv32>, serial: nat): bv32 {
    if 0 < serial <= |history| then history[serial - 1] else 0
  }

  predicate LiveInv(l: Latch) {
    && (l.liveSerial == 0 || l.liveSerial == |l.history|)
    && Count28(l.liveMsb, l.liveLsb) == CountOf(l.history, l.liveSerial)
  }

  predicate ShadowInv(l: Latch) {
    && l.shadowSerial <= |l.history|
    && (l.shadowValid ==> Count28(l.shadowMsb, l.shadowLsb) == CountOf(l.history, l.shadowSerial))
  }

  /** A channel is unread exactly when it converted since that was cleared. */
  predicate UnreadInv(l: Latch) {
    l.clearedAt <= |l.history| && (l.unread <==> l.clearedAt < |l.history|)
  }

  /** `converted` conversions had been made at the last good MSB read; unread
      evidence always stands for a later one. */
  predicate LatchInv(l: Latch, converted: nat) {
    && LiveInv(l) && ShadowInv(l) && UnreadInv(l)
    && converted <= |l.history| && (l.unread ==> converted < l.liveSerial)
  }

  /** Only conversions happened between `l` and `later`. */
  predicate Evolved(l: Latch, later: Latch) {
    && |l.history| <= |later.history| && later.history[..|l.history|] == l.history
    && later.shadowMsb == l.shadowMsb && later.shadowLsb == l.shadowLsb && later.shadowValid == l.shadowValid
    && later.shadowSerial == l.shadowSerial && later.clearedAt == l.clearedAt
    && (|later.history| == |l.history| ==> later == l)
    && (|later.history| > |l.history| ==> later.unread && later.liveSerial == |later.history|)
  }

  lemma ConvertEvolves(l: Latch, c: Conversion, converted: nat)
    requires LatchInv(l, converted)
    ensures LatchInv(Convert(l, c), converted) && Evolved(l, Convert(l, c))
  {
    hide Count28, ConvertedMsb, ConvertedLsb;
    ConvertedCount(c.raw28, c.dataErrors);
  }

  lemma ClearKeeps(l: Latch, converted: nat)
    requires LatchInv(l, converted)
    ensures LatchInv(ClearLatch(l), converted)
  {
    assert Count28(0, 0) == 0;
  }

  lemma EvolvedTransitive(a: Latch, b: Latch, c: Latch)
    requires Evolved(a, b) && Evolved(b, c)
    ensures Evolved(a, c)
  {
    assert c.history[..|a.history|] == c.history[..|b.history|][..|a.history|];
  }

  predicate StickyLegal(d: Device) {
    d.stickyStatusErrors & !STATUS_ERROR_MASK == 0
  }

  lemma {:induction false} InjectAllEvolves(d: Device, cs: seq<Conversion>, c: int, converted: nat)
    requires 0 <= c < MAX_CHANNELS && LatchInv(d.ch[c], converted)
    ensures LatchInv(InjectAll(d, cs).ch[c], converted) && Evolved(d.ch[c], InjectAll(d, cs).ch[c])
    decreases |cs|
  {
    hide LatchInv, LiveInv, ShadowInv, Convert, LastConversionChannel;
    if cs != [] {
      if cs[0].ch == c {
        ConvertEvolves(d.ch[c], cs[0], converted);
      }
      assert Evolved(d.ch[c], Inject(d, cs[0]).ch[c]);
      InjectAllEvolves(Inject(d, cs[0]), cs[1..], c, converted);
      EvolvedTransitive(d.ch[c], Inject(d, cs[0]).ch[c], InjectAll(d, cs).ch[c]);
    }
  }

  lemma {:induction false} InjectAllSticky(d: Device, cs: seq<Conversion>)
    requires StickyLegal(d)
    ensures StickyLegal(InjectAll(d, cs))
    decreases |cs|
  {
    hide Convert, LastConversionChannel, StickyLegal;
    if cs != [] {
      InjectSticky(d, cs[0]);
      InjectAllSticky(Inject(d, cs[0]), cs[1..]);
    }
  }

  lemma MaskedSticky(statusErrors: bv16)
    ensures (statusErrors & STATUS_ERROR_MASK) & !STATUS_ERROR_MASK == 0
  {
  }

  lemma InjectSticky(d: Device, c: Conversion)
    requires StickyLegal(d)
    ensures StickyLegal(Inject(d, c))
  {
    hide Convert, LastConversionChannel;
    MaskedSticky(c.statusErrors);
  }

  // ----- transfers, one channel at a time -----------------------------------

  /** The shadow pair latched, the sample consumed. */
  function ReadMsb(l: Latch): Latch {
    Consume(l.(shadowMsb := l.liveMsb, shadowLsb := l.liveLsb, shadowValid := true, shadowSerial := l.liveSerial))
  }

  /** Channel `c` right after the device-side effect of a completed read. */
  function AfterCompletedRead(l: Latch, register: int, c: int): Latch {
    if register == REG_STATUS then ClearUnread(l)
    else if IsDataMsb(register) && register / 2 == c then ReadMsb(l)
    else l
  }

  lemma CompletedReadChannel(d: Device, register: int, c: int)
    requires 0 <= c < MAX_CHANNELS
    ensures ReadSideEffects(LatchShadow(d, register), register).ch[c] == AfterCompletedRead(d.ch[c], register, c)
  {
    hide Consume;
  }

  /** A completed MSB read is a fresh start: nothing unread, all counted. */
  lemma ReadMsbKeeps(l: Latch, converted: nat)
    requires LatchInv(l, converted)
    ensures LatchInv(ReadMsb(l), converted) && LatchInv(ReadMsb(l), |l.history|)
  {
    hide Count28, CountOf;
    StrippedCount(l.liveMsb, l.liveLsb);
  }

  lemma CompletedReadKeeps(l: Latch, converted: nat, register: int, c: int)
    requires LatchInv(l, converted) && 0 <= c < MAX_CHANNELS
    ensures LatchInv(AfterCompletedRead(l, register, c), converted)
    ensures IsDataMsb(register) && register / 2 == c ==> LatchInv(AfterCompletedRead(l, register, c), |l.history|)
  {
    hide Count28, ReadMsb, CountOf;
    ReadMsbKeeps(l, converted);
  }

  lemma OkRead(d: Device, choice: Choice, register: int, c: int, converted: nat)
    requires 0 <= c < MAX_CHANNELS && LatchInv(d.ch[c], converted) && choice.status == OK
    ensures var after := AfterRead(d, choice, register);
      && LatchInv(after.ch[c], converted)
      && (IsDataMsb(register) && register / 2 == c ==> LatchInv(after.ch[c], |d.ch[c].history|))
      && Evolved(AfterCompletedRead(d.ch[c], register, c), after.ch[c])
  {
    hide LatchInv, Evolved, AfterCompletedRead, ReadSideEffects, LatchShadow;
    var done := ReadSideEffects(LatchShadow(d, register), register);
    CompletedReadChannel(d, register, c);
    CompletedReadKeeps(d.ch[c], converted, register, c);
    InjectAllEvolves(done, choice.after, c, converted);
    if IsDataMsb(register) && register / 2 == c {
      InjectAllEvolves(done, choice.after, c, |d.ch[c].history|);
    }
  }

  lemma LatchOnlyKeeps(d: Device, register: int, c: int, converted: nat)
    requires 0 <= c < MAX_CHANNELS && LatchInv(d.ch[c], converted)
    ensures LatchInv(LatchShadow(d, register).ch[c], converted)
    ensures LatchShadow(d, register).ch[c].history == d.ch[c].history
  {
    hide Count28;
  }

  lemma AnyRead(d: Device, choice: Choice, register: int, c: int, converted: nat)
    requires 0 <= c < MAX_CHANNELS && LatchInv(d.ch[c], converted)
    ensures LatchInv(AfterRead(d, choice, register).ch[c], converted)
    ensures d.ch[c].history <= AfterRead(d, choice, register).ch[c].history
  {
    hide LatchInv, AfterCompletedRead, ReadSideEffects, LatchShadow;
    var latched := LatchShadow(d, register);
    var done := ReadSideEffects(latched, register);
    LatchOnlyKeeps(d, register, c, converted);
    CompletedReadChannel(d, register, c);
    CompletedReadKeeps(d.ch[c], converted, register, c);
    CompletedHistory(d.ch[c], register, c);
    InjectAllEvolves(d, choice.after, c, converted);
    InjectAllEvolves(latched, choice.after, c, converted);
    InjectAllEvolves(done, choice.after, c, converted);
  }

  lemma CompletedHistory(l: Latch, register: int, c: int)
    ensures AfterCompletedRead(l, register, c).history == l.history
  {
  }

  lemma AnyWrite(d: Device, choice: Choice, register: int, value: bv16, c: int, converted: nat)
    requires 0 <= c < MAX_CHANNELS && LatchInv(d.ch[c], converted)
    ensures LatchInv(Written(d, choice, register, value).ch[c], converted)
    ensures d.ch[c].history <= Written(d, choice, register, value).ch[c].history
  {
    hide LatchInv, ResetRegisters;
    ClearKeeps(d.ch[c], converted);
    assert ClearConversionEvidence(d).ch[c] == ClearLatch(d.ch[c]);
    var done := ApplyWrite(d, register, value);
    assert done.ch[c] == d.ch[c] || done.ch[c] == ClearLatch(d.ch[c]);
    InjectAllEvolves(d, choice.after, c, converted);
    InjectAllEvolves(done, choice.after, c, converted);
  }

  lemma ReadSticky(d: Device, choice: Choice, register: int)
    requires StickyLegal(d)
    ensures StickyLegal(AfterRead(d, choice, register))
  {
    var latched := LatchShadow(d, register);
    InjectAllSticky(d, choice.after);
    InjectAllSticky(latched, choice.after);
    InjectAllSticky(ReadSideEffects(latched, register), choice.after);
  }

  lemma WriteSticky(d: Device, choice: Choice, register: int, value: bv16)
    requires StickyLegal(d)
    ensures StickyLegal(Written(d, choice, register, value))
  {
    InjectAllSticky(d, choice.after);
    InjectAllSticky(ApplyWrite(d, register, value), choice.after);
  }

  /** STATUS shows exactly the unread channels. */
  lemma StatusShowsUnread(d: Device, c: int)
    requires StickyLegal(d) && 0 <= c < MAX_CHANNELS
    ensures Has(DecodeDeviceStatus(StatusValue(d)).unreadChannels, c) <==> d.ch[c].unread
  {
    hide UnreadField, StatusWord, ErrorChannelField, Has;
    StatusWordBits(d.stickyStatusErrors, d.errorChannel, d.dataReadyLatched, d.ch[0].unread, d.ch[1].unread,
                   d.ch[2].unread, d.ch[3].unread);
  }

  /** The other half of STATUS: decoding gives the latched evidence back. */
  lemma StatusShowsEvidence(sticky: bv16, errorChannel: Channel, ready: bool, u0: bool, u1: bool, u2: bool, u3: bool)
    requires sticky & !STATUS_ERROR_MASK == 0 && errorChannel < MAX_CHANNELS
    ensures var status := DecodeDeviceStatus(StatusWord(sticky, errorChannel, ready, u0, u1, u2, u3));
      && (status.HasError() <==> sticky != 0)
      && status.dataReady == ready
      && (sticky != 0 ==> status.errorChannel == errorChannel)
      && (sticky == 0 ==> status.errorChannel == NO_CHANNEL)
      && (status.errorUnderRange <==> sticky & 0x2000 != 0) && (status.errorOverRange <==> sticky & 0x1000 != 0)
      && (status.errorWatchdog <==> sticky & 0x0800 != 0) && (status.errorAmplitudeHigh <==> sticky & 0x0400 != 0)
      && (status.errorAmplitudeLow <==> sticky & 0x0200 != 0) && (status.errorZeroCount <==> sticky & 0x0100 != 0)
  {
    hide UnreadField;
  }

  // ----- the fixture's behaviour, address by address ------------------------

  ghost function WordAfterReset(address: int): bv16 {
    if 0x08 <= address <= 0x0B then 0x0080
    else if address == 0x1A then 0x2801
    else if address == 0x1B then 0x020F
    else if address == 0x7E then 0x5449
    else if address == 0x7F then 0x3055
    else 0
  }

  /** The words of a device after reset, and nothing left to read. */
  lemma ResetWords(d: Device)
    ensures var after := ResetDevice(d);
      && (forall a :: 0 <= a < 128 ==> after.regs[a] == WordAfterReset(a))
      && (forall c :: 0 <= c < 4 ==> !after.ch[c].unread && !after.ch[c].shadowValid && ReadValue(after, 2 * c) == 0)
      && StatusValue(after) == 0
  {
  }

  /** The channel whose conversion completes a frame. */
  ghost function FrameEnd(regs: RegisterFile): bv16 {
    if regs[0x1B] & 0x8000 == 0 then regs[0x1A] >> 14
    else if regs[0x1B] & 0x6000 == 0x2000 then 2
    else if regs[0x1B] & 0x6000 == 0x4000 then 3
    else 1
  }

  ghost function ChannelWord(c: int): bv16 { if c == 0 then 0 else if c == 1 then 1 else if c == 2 then 2 else 3 }

  lemma FrameEndIsLast(d: Device, c: int)
    requires 0 <= c < 4
    ensures LastConversionChannel(d) == c <==> FrameEnd(d.regs) == ChannelWord(c)
  {
    FieldAsWord(c, d.regs[REG_CONFIG]);
  }

  lemma FieldAsWord(c: int, word: bv16)
    requires 0 <= c < 4
    ensures ErrorChannelField(word) == c <==> word >> 14 == ChannelWord(c)
  {
  }

  /** The pair of data words of a count, with the channel's error bits. */
  ghost predicate WordsOf(msb: bv16, lsb: bv16, raw28: bv32, dataErrors: bv16) {
    && msb & 0xF000 == dataErrors & 0xF000 && msb & 0x0FFF == ((raw28 >> 16) & 0x0FFF) as bv16
    && lsb == (raw28 & 0xFFFF) as bv16
  }

  lemma ConvertedWords(raw28: bv32, dataErrors: bv16)
    ensures WordsOf(ConvertedMsb(raw28, dataErrors), ConvertedLsb(raw28), raw28, dataErrors)
  {
  }

  /** One conversion: its words and its unread mark go to its own channel. */
  lemma ConversionWords(d: Device, c: Conversion)
    requires 0 <= c.ch < 4
    ensures var after := Inject(d, c);
      && after.regs == d.regs && (forall k :: 0 <= k < 4 && k != c.ch ==> after.ch[k] == d.ch[k])
      && after.ch[c.ch].unread && WordsOf(after.ch[c.ch].liveMsb, after.ch[c.ch].liveLsb, c.raw28, c.dataErrors)
      && after.ch[c.ch].shadowLsb == d.ch[c.ch].shadowLsb && after.ch[c.ch].shadowValid == d.ch[c.ch].shadowValid
  {
    hide LastConversionChannel, ConvertedMsb, ConvertedLsb, WordsOf;
    ConvertedWords(c.raw28, c.dataErrors);
  }

  /** The first event since the last STATUS read, and only that one, sets
      errors, data-ready and their channel. */
  lemma ConversionEvidence(d: Device, c: Conversion)
    requires 0 <= c.ch < 4
    ensures var after := Inject(d, c);
      var quiet := d.stickyStatusErrors == 0 && !d.dataReadyLatched;
      && after.stickyStatusErrors == (if quiet then c.statusErrors & 0x3F00 else d.stickyStatusErrors)
      && (!quiet ==> after.dataReadyLatched == d.dataReadyLatched && after.errorChannel == d.errorChannel)
      && (quiet ==>
           && (after.dataReadyLatched <==> d.regs[0x19] & 0x0001 != 0 && FrameEnd(d.regs) == ChannelWord(c.ch))
           && (after.stickyStatusErrors != 0 || after.dataReadyLatched ==> after.errorChannel == c.ch))
  {
    hide LastConversionChannel, FrameEnd, Convert;
    FrameEndIsLast(d, c.ch);
  }

  lemma NibbleGone(word: bv16)
    ensures word & !0xF000 & 0xF000 == 0 && word & !0xF000 & 0x0FFF == word & 0x0FFF
  {
  }

  /** A completed MSB read of channel `c` delivers its word, keeps the count,
      gives the error bits only once, takes the unread mark, latches the LSB it
      belongs to, and takes the sticky evidence if it is the channel's. */
  lemma SampleReadOnce(d: Device, c: int)
    requires 0 <= c < 4
    ensures var after := ReadSideEffects(LatchShadow(d, 2 * c), 2 * c);
      && ReadValue(d, 2 * c) == d.ch[c].liveMsb
      && ReadValue(after, 2 * c) & 0xF000 == 0 && ReadValue(after, 2 * c) & 0x0FFF == d.ch[c].liveMsb & 0x0FFF
      && ReadValue(after, 2 * c + 1) == d.ch[c].liveLsb && !after.ch[c].unread
      && after.regs == d.regs && (forall k :: 0 <= k < 4 && k != c ==> after.ch[k] == d.ch[k])
      && (d.errorChannel == c ==> after.stickyStatusErrors == 0 && !after.dataReadyLatched)
      && (d.errorChannel != c ==>
           after.stickyStatusErrors == d.stickyStatusErrors && after.dataReadyLatched == d.dataReadyLatched)
  {
    hide StatusValue, Consume;
    assert 2 * c != REG_STATUS && IsDataMsb(2 * c) && IsDataLsb(2 * c + 1) && 2 * c / 2 == c && (2 * c + 1) / 2 == c;
    ConsumedOnce(d.ch[c].(shadowMsb := d.ch[c].liveMsb, shadowLsb := d.ch[c].liveLsb, shadowValid := true,
                          shadowSerial := d.ch[c].liveSerial));
  }

  lemma ConsumedOnce(l: Latch)
    ensures var after := Consume(l);
      && after.liveMsb & 0xF000 == 0 && after.liveMsb & 0x0FFF == l.liveMsb & 0x0FFF && !after.unread
      && after.liveLsb == l.liveLsb && after.shadowLsb == l.shadowLsb && after.shadowValid == l.shadowValid
  {
    NibbleGone(l.liveMsb);
  }

  /** A completed STATUS read takes all evidence and no sample. */
  lemma StatusReadClears(d: Device)
    ensures var after := ReadSideEffects(LatchShadow(d, 0x18), 0x18);
      && StatusValue(after) == 0 && after.regs == d.regs
      && forall c :: 0 <= c < 4 ==>
           after.ch[c].liveMsb == d.ch[c].liveMsb && ReadValue(after, 2 * c + 1) == ReadValue(d, 2 * c + 1)
  {
  }

  /** Other registers read back what was last written to them; putting the
      device to sleep drops every conversion, waking it none. */
  lemma WrittenReadsBack(d: Device, register: int, value: bv16)
    requires 0x08 <= register < 128 && register != 0x18 && register != 0x1C
    ensures var after := ApplyWrite(d, register, value);
      && ReadValue(after, register) == value
      && (forall a :: 0 <= a < 128 && a != register ==> after.regs[a] == d.regs[a])
      && (register == 0x1A && value & 0x2000 != 0 ==> StatusValue(after) == 0)
      && (!(register == 0x1A && value & 0x2000 != 0) ==> after == d.(regs := after.regs))
  {
  }
}
