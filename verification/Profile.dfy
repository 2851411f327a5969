/** The explicit sensor profile (`Config`) and channel masks. Callbacks appear
    as presence flags and one identity; everything else is the profile itself. */
module Profile {
  import opened CommandTable

  datatype I2cAddress = ADDRESS_UNSPECIFIED | ADDR_GND | ADDR_VDD
  datatype DeviceVariant = VARIANT_UNSPECIFIED | LDC1612 | LDC1614
  datatype RefClkSrc = CLOCK_UNSPECIFIED | INTERNAL | EXTERNAL_CLOCK
  datatype SensorActivation = FULL_CURRENT | LOW_POWER
  datatype Deglitch = DEGLITCH_UNSPECIFIED | BW_1MHZ | BW_3MHZ | BW_10MHZ | BW_33MHZ
  datatype OperatingMode = MODE_UNSPECIFIED | SINGLE_CHANNEL | MULTI_CHANNEL_SEQUENTIAL
  datatype RRSequence = CH0_CH1 | CH0_CH1_CH2 | CH0_CH1_CH2_CH3 | SEQUENCE_UNSPECIFIED

  datatype ReferenceClock = ReferenceClock(source: RefClkSrc, frequencyHz: uint32, tolerancePpm: uint32)

  datatype ErrorReporting = ErrorReporting(
    dataUnderRange: bool, dataOverRange: bool, dataWatchdog: bool,
    dataAmplitudeHigh: bool, dataAmplitudeLow: bool,
    statusUnderRange: bool, statusOverRange: bool, statusWatchdog: bool,
    statusAmplitudeHigh: bool, statusAmplitudeLow: bool, statusZeroCount: bool,
    dataReady: bool)

  datatype ChannelConfig = ChannelConfig(
    rcount: bv16, settleCount: bv16, finDivider: bv8, frefDivider: bv16,
    offset: bv16, driveCurrentCode: bv8,
    expectedSensorMinHz: uint32, expectedSensorMaxHz: uint32)

  const UNSPECIFIED_CHANNEL := ChannelConfig(0, 0, 0, 0, 0, 0xFF, 0, 0)

  type ChannelConfigs = s: seq<ChannelConfig> | |s| == MAX_CHANNELS
    witness [UNSPECIFIED_CHANNEL, UNSPECIFIED_CHANNEL, UNSPECIFIED_CHANNEL, UNSPECIFIED_CHANNEL]

  /** One bit per physical channel; bits 4..7 must be zero in a legal mask. */
  type ChannelMask = bv8

  /** Physical channel index, or `NO_CHANNEL`. */
  type Channel = uint8
  const NO_CHANNEL: Channel := 0xFF

  datatype Config = Config(
    hasI2cWrite: bool, hasI2cWriteRead: bool, transport: nat,
    i2cTimeoutMs: uint32, i2cAddress: I2cAddress,
    variant: DeviceVariant, channels: ChannelMask, channel: ChannelConfigs,
    referenceClock: ReferenceClock, mode: OperatingMode,
    activeChannel: Channel, rrSequence: RRSequence, deglitch: Deglitch,
    sensorActivation: SensorActivation, rpOverrideEnabled: bool,
    autoAmplitudeCorrectionEnabled: bool, highCurrentDriveEnabled: bool,
    intbDisabled: bool, errorReporting: ErrorReporting)

  const UNSPECIFIED_CONFIG := Config(
    false, false, 0, 0, ADDRESS_UNSPECIFIED, VARIANT_UNSPECIFIED, 0,
    [UNSPECIFIED_CHANNEL, UNSPECIFIED_CHANNEL, UNSPECIFIED_CHANNEL, UNSPECIFIED_CHANNEL],
    ReferenceClock(CLOCK_UNSPECIFIED, 0, 0), MODE_UNSPECIFIED, NO_CHANNEL,
    SEQUENCE_UNSPECIFIED, DEGLITCH_UNSPECIFIED, LOW_POWER, true, false, false, true,
    ErrorReporting(false, false, false, false, false, false, false, false, false, false, false, false))

  function ChannelBit(index: int): ChannelMask
    requires 0 <= index < MAX_CHANNELS
  {
    if index == 0 then 1 else if index == 1 then 2 else if index == 2 then 4 else 8
  }

  predicate Has(mask: ChannelMask, index: int)
    requires 0 <= index < MAX_CHANNELS
  {
    mask & ChannelBit(index) != 0
  }

  function ChannelCountFor(variant: DeviceVariant): (count: int)
    ensures 0 <= count <= MAX_CHANNELS
  {
    match variant
    case VARIANT_UNSPECIFIED => 0
    case LDC1612 => 2
    case LDC1614 => 4
  }

  function ValidChannelMask(variant: DeviceVariant): ChannelMask {
    match variant
    case VARIANT_UNSPECIFIED => 0
    case LDC1612 => 0x03
    case LDC1614 => 0x0F
  }

  /** The selected channels in ascending order. */
  function Selected(mask: ChannelMask): seq<int> {
    (if Has(mask, 0) then [0] else []) + (if Has(mask, 1) then [1] else []) +
    (if Has(mask, 2) then [2] else []) + (if Has(mask, 3) then [3] else [])
  }

  lemma SelectedAscends(mask: ChannelMask)
    ensures |Selected(mask)| <= MAX_CHANNELS
    ensures forall i, j :: 0 <= i < j < |Selected(mask)| ==> Selected(mask)[i] < Selected(mask)[j]
    ensures forall i :: 0 <= i < |Selected(mask)| ==>
      0 <= Selected(mask)[i] < MAX_CHANNELS && Has(mask, Selected(mask)[i])
    ensures forall ch :: 0 <= ch < MAX_CHANNELS && Has(mask, ch) ==> ch in Selected(mask)
  {
  }

  /** Number of set bits, by position. */
  function BitCount(mask: bv8): (count: nat)
    ensures count <= 8
  {
    (if mask & 0x01 != 0 then 1 else 0) + (if mask & 0x02 != 0 then 1 else 0) +
    (if mask & 0x04 != 0 then 1 else 0) + (if mask & 0x08 != 0 then 1 else 0) +
    (if mask & 0x10 != 0 then 1 else 0) + (if mask & 0x20 != 0 then 1 else 0) +
    (if mask & 0x40 != 0 then 1 else 0) + (if mask & 0x80 != 0 then 1 else 0)
  }

  lemma BitCountShift(bits: bv8)
    ensures BitCount(bits) == (if bits & 1 != 0 then 1 else 0) + BitCount(bits >> 1)
    ensures bits != 0 ==> Width(bits >> 1) < Width(bits)
  {
  }

  function Width(bits: bv8): nat {
    if bits == 0 then 0 else if bits < 2 then 1 else if bits < 4 then 2 else if bits < 8 then 3
    else if bits < 16 then 4 else if bits < 32 then 5 else if bits < 64 then 6
    else if bits < 128 then 7 else 8
  }

  /** The shifting population count of the driver counts the selected channels. */
  method Popcount(mask: ChannelMask) returns (count: uint8)
    ensures count == BitCount(mask)
    ensures mask & !0x0F == 0 ==> count == |Selected(mask)|
  {
    count := 0;
    var bits := mask;
    while bits != 0
      invariant count + BitCount(bits) == BitCount(mask)
      decreases Width(bits)
    {
      BitCountShift(bits);
      count := count + (if bits & 1 != 0 then 1 else 0);
      bits := bits >> 1;
    }
    assert BitCount(0) == 0;
  }

  /** The next selected channel after `after`, or `NO_CHANNEL`. */
  method NextChannel(mask: ChannelMask, after: Channel) returns (next: Channel)
    requires after < MAX_CHANNELS || after == NO_CHANNEL
    ensures next < MAX_CHANNELS || next == NO_CHANNEL
    ensures next != NO_CHANNEL ==> Has(mask, next) && (after == NO_CHANNEL || after < next)
    ensures forall ch :: 0 <= ch < MAX_CHANNELS && Has(mask, ch) && (after == NO_CHANNEL || after < ch) ==> next <= ch
  {
    var index := if after == NO_CHANNEL then 0 else after + 1;
    while index < MAX_CHANNELS
      invariant 0 <= index <= MAX_CHANNELS
      invariant forall ch :: 0 <= ch < index && Has(mask, ch) ==> after != NO_CHANNEL && ch <= after
    {
      if Has(mask, index) {
        return index;
      }
      index := index + 1;
    }
    next := NO_CHANNEL;
  }
}
