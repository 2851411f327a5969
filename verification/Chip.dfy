/** The device behind the bus as a value: registers, per-channel conversion
    latches with destructive reads, sticky STATUS evidence, and the transport
    outcomes an adversary may choose. `history` and the serial numbers observe
    which conversion a word came from, and `clearedAt` how many there were when
    the unread mark was last cleared; no device behaviour depends on them. */
module Chip {
  import opened CommandTable
  import opened Profile
  import opened DriverTypes
  import opened Decoding

  /** One channel. A serial of 0 means "no conversion since the last clear". */
  datatype Latch = Latch(
    liveMsb: bv16, liveLsb: bv16, shadowMsb: bv16, shadowLsb: bv16, shadowValid: bool, unread: bool,
    liveSerial: nat, shadowSerial: nat, clearedAt: nat, history: seq<bv32>)

  type Latches = s: seq<Latch> | |s| == MAX_CHANNELS witness [NO_LATCH, NO_LATCH, NO_LATCH, NO_LATCH]
  const NO_LATCH := Latch(0, 0, 0, 0, false, false, 0, 0, 0, [])

  type RegisterFile = s: seq<bv16> | |s| == REGISTER_COUNT witness seq(REGISTER_COUNT, i => 0)

  datatype Device = Device(
    regs: RegisterFile, ch: Latches, stickyStatusErrors: bv16, errorChannel: Channel, dataReadyLatched: bool)

  datatype Conversion = Conversion(ch: int, raw28: bv32, dataErrors: bv16, statusErrors: bv16)

  // ----- reset, sleep and conversions ---------------------------------------

  function ResetValue(register: int): bv16 {
    if register == REG_MANUFACTURER_ID then MANUFACTURER_ID_VALUE
    else if register == REG_DEVICE_ID then DEVICE_ID_VALUE
    else if register == REG_CONFIG then CONFIG_DEFAULT
    else if register == REG_MUX_CONFIG then MUX_CONFIG_DEFAULT
    else if register == REG_ERROR_CONFIG then ERROR_CONFIG_DEFAULT
    else if REG_RCOUNT0 <= register < REG_OFFSET0 then RCOUNT_DEFAULT
    else 0
  }

  function ResetRegisters(): RegisterFile {
    seq(REGISTER_COUNT, i => ResetValue(i))
  }

  function ClearLatch(l: Latch): Latch {
    Latch(0, 0, 0, 0, false, false, 0, 0, |l.history|, l.history)
  }

  function ClearConversionEvidence(d: Device): Device {
    d.(ch := [ClearLatch(d.ch[0]), ClearLatch(d.ch[1]), ClearLatch(d.ch[2]), ClearLatch(d.ch[3])],
       stickyStatusErrors := 0, errorChannel := 0, dataReadyLatched := false)
  }

  function ResetDevice(d: Device): Device {
    ClearConversionEvidence(d.(regs := ResetRegisters()))
  }

  function LastConversionChannel(d: Device): int {
    var mux := d.regs[REG_MUX_CONFIG];
    if mux & MASK_MUX_AUTOSCAN_EN == 0 then ErrorChannelField(d.regs[REG_CONFIG])
    else if mux & MASK_MUX_RR_SEQUENCE == 0x2000 then 2
    else if mux & MASK_MUX_RR_SEQUENCE == 0x4000 then 3
    else 1
  }

  function ConvertedMsb(raw28: bv32, dataErrors: bv16): bv16 {
    (((raw28 & RAW_COUNT_MAX) >> 16) as bv16 & MASK_DATA_MSB_DATA) | (dataErrors & DATA_ERROR_MASK)
  }

  function ConvertedLsb(raw28: bv32): bv16 {
    (raw28 & 0xFFFF) as bv16
  }

  /** A conversion on one channel overwrites the live words and raises unread. */
  function Convert(l: Latch, c: Conversion): Latch {
    l.(liveMsb := ConvertedMsb(c.raw28, c.dataErrors), liveLsb := ConvertedLsb(c.raw28), unread := true,
       liveSerial := |l.history| + 1, history := l.history + [c.raw28 & RAW_COUNT_MAX])
  }

  /** `injectConversion`: STATUS keeps the first sticky event only. */
  function Inject(d: Device, c: Conversion): Device {
    if !(0 <= c.ch < MAX_CHANNELS) then d
    else
      var converted := d.(ch := d.ch[c.ch := Convert(d.ch[c.ch], c)]);
      if d.stickyStatusErrors != 0 || d.dataReadyLatched then converted
      else
        var sticky := c.statusErrors & STATUS_ERROR_MASK;
        var ready := d.regs[REG_ERROR_CONFIG] & MASK_ERRCFG_DRDY_2INT != 0 && c.ch == LastConversionChannel(d);
        converted.(stickyStatusErrors := sticky, dataReadyLatched := ready,
                   errorChannel := if sticky != 0 || ready then c.ch else d.errorChannel)
  }

  function InjectAll(d: Device, cs: seq<Conversion>): Device
    decreases |cs|
  {
    if cs == [] then d else InjectAll(Inject(d, cs[0]), cs[1..])
  }

  // ----- reads --------------------------------------------------------------

  function ErrorChannelBits(channel: Channel): bv16 {
    if channel == 1 then 0x4000 else if channel == 2 then 0x8000 else if channel == 3 then 0xC000 else 0
  }

  function Mark(word: bv16, on: bool, mask: bv16): bv16 { if on then word | mask else word }

  function StatusWord(sticky: bv16, errorChannel: Channel, ready: bool, u0: bool, u1: bool, u2: bool, u3: bool): bv16 {
    var attributed := Mark(sticky, sticky != 0 || ready, ErrorChannelBits(errorChannel));
    var latched := Mark(attributed, ready, MASK_STATUS_DRDY);
    Mark(Mark(Mark(Mark(latched, u0, MASK_STATUS_UNREADCONV0), u1, MASK_STATUS_UNREADCONV1),
              u2, MASK_STATUS_UNREADCONV2), u3, MASK_STATUS_UNREADCONV3)
  }

  function StatusValue(d: Device): bv16 {
    StatusWord(d.stickyStatusErrors, d.errorChannel, d.dataReadyLatched,
               d.ch[0].unread, d.ch[1].unread, d.ch[2].unread, d.ch[3].unread)
  }

  predicate IsDataMsb(register: int) { 0 <= register < 8 && register % 2 == 0 }
  predicate IsDataLsb(register: int) { 0 <= register < 8 && register % 2 == 1 }

  /** The word a read delivers. */
  function ReadValue(d: Device, register: int): bv16 {
    if register == REG_STATUS then StatusValue(d)
    else if IsDataMsb(register) then d.ch[register / 2].liveMsb
    else if IsDataLsb(register) then
      (if d.ch[register / 2].shadowValid then d.ch[register / 2].shadowLsb else 0)
    else if 0 <= register < REGISTER_COUNT then d.regs[register]
    else 0
  }

  /** Addressing DATAx_MSB latches the channel's shadow pair. */
  function LatchShadow(d: Device, register: int): Device {
    if !IsDataMsb(register) then d
    else
      var l := d.ch[register / 2];
      d.(ch := d.ch[register / 2 := l.(shadowMsb := l.liveMsb, shadowLsb := l.liveLsb, shadowValid := true,
                                       shadowSerial := l.liveSerial)])
  }

  function ClearUnread(l: Latch): Latch { l.(unread := false, clearedAt := |l.history|) }

  /** A completed MSB read consumes the sample and strips its error bits. */
  function Consume(l: Latch): Latch {
    l.(unread := false, clearedAt := |l.history|, liveMsb := l.liveMsb & !DATA_ERROR_MASK)
  }

  /** The destructive part of a completed read. */
  function ReadSideEffects(d: Device, register: int): Device {
    if register == REG_STATUS then
      d.(stickyStatusErrors := 0, errorChannel := 0, dataReadyLatched := false,
         ch := [ClearUnread(d.ch[0]), ClearUnread(d.ch[1]), ClearUnread(d.ch[2]), ClearUnread(d.ch[3])])
    else if !IsDataMsb(register) then d
    else
      var l := d.ch[register / 2];
      var consumed := d.(ch := d.ch[register / 2 := Consume(l)]);
      if (d.stickyStatusErrors != 0 || d.dataReadyLatched) && d.errorChannel == register / 2
      then consumed.(stickyStatusErrors := 0, errorChannel := 0, dataReadyLatched := false)
      else consumed
  }

  // ----- writes -------------------------------------------------------------

  function ApplyWrite(d: Device, register: int, value: bv16): Device {
    if register == REG_RESET_DEV && value & MASK_RESET_DEV != 0 then ResetDevice(d)
    else
      var written := if 0 <= register < REGISTER_COUNT then d.(regs := d.regs[register := value]) else d;
      if register == REG_CONFIG && value & MASK_CFG_SLEEP_MODE_EN != 0 then ClearConversionEvidence(written)
      else written
  }

  // ----- adversarial transport ----------------------------------------------

  /** How far a failed transfer got: nothing, a read that latched only, or the
      whole device-side effect. */
  datatype Reach = MISSED | LATCHED | COMPLETE

  /** The adversary's choice for one transfer: the reported status, how far a
      failed transfer got, and the conversions that follow it. */
  datatype Choice = Choice(status: Err, reach: Reach, after: seq<Conversion>)

  /** Success means complete; an address NACK means the device saw nothing. */
  function EffectiveReach(choice: Choice): Reach {
    if choice.status == OK then COMPLETE
    else if choice.status == I2C_NACK_ADDR then MISSED
    else choice.reach
  }

  function Written(d: Device, choice: Choice, register: int, value: bv16): Device {
    var done := if EffectiveReach(choice) == COMPLETE then ApplyWrite(d, register, value) else d;
    InjectAll(done, choice.after)
  }

  function AfterRead(d: Device, choice: Choice, register: int): Device {
    var reach := EffectiveReach(choice);
    var latched := if reach == MISSED then d else LatchShadow(d, register);
    var done := if reach == COMPLETE then ReadSideEffects(latched, register) else latched;
    InjectAll(done, choice.after)
  }

  // ----- facts --------------------------------------------------------------

  lemma StatusWordBits(sticky: bv16, errorChannel: Channel, ready: bool, u0: bool, u1: bool, u2: bool, u3: bool)
    requires sticky & !STATUS_ERROR_MASK == 0
    ensures var unread := UnreadField(StatusWord(sticky, errorChannel, ready, u0, u1, u2, u3));
      (Has(unread, 0) <==> u0) && (Has(unread, 1) <==> u1) && (Has(unread, 2) <==> u2) && (Has(unread, 3) <==> u3)
  {
  }

  /** The pair written by a conversion decodes to its 28-bit count, with or
      without the error bits a read strips. */
  lemma ConvertedCount(raw28: bv32, dataErrors: bv16)
    ensures Count28(ConvertedMsb(raw28, dataErrors), ConvertedLsb(raw28)) == raw28 & RAW_COUNT_MAX
  {
  }

  lemma StrippedCount(msb: bv16, lsb: bv16)
    ensures Count28(msb & !DATA_ERROR_MASK, lsb) == Count28(msb, lsb)
  {
  }
}
