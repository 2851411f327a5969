/** Profile validation: the driver's 64-bit integer tests, and what they mean
    as rational inequalities over the whole reference-clock interval. */
module Validation {
  import opened CommandTable
  import opened Profile
  import opened DriverTypes

  const SENSOR_FREQUENCY_MIN_HZ := 1000
  const SENSOR_FREQUENCY_MAX_HZ := 10_000_000
  const INTERNAL_CLOCK_MIN_HZ := 35_000_000
  const INTERNAL_CLOCK_MAX_HZ := 55_000_000
  const EXTERNAL_CLOCK_MIN_HZ := 2_000_000
  const EXTERNAL_CLOCK_MAX_HZ := 40_000_000
  const MAX_TOLERANCE_PPM := 999_999
  const PPM_SCALE := 1_000_000

  function CeilDivide(numerator: nat, denominator: nat): nat {
    if denominator == 0 then 0 else (numerator + denominator - 1) / denominator
  }

  /** Integer extremes of the reference clock, rounded outwards. */
  function ClockMinHz(clock: ReferenceClock): nat
    requires clock.tolerancePpm <= MAX_TOLERANCE_PPM
  {
    if clock.source == INTERNAL then INTERNAL_CLOCK_MIN_HZ
    else clock.frequencyHz * (PPM_SCALE - clock.tolerancePpm) / PPM_SCALE
  }

  function ClockMaxHz(clock: ReferenceClock): nat {
    if clock.source == INTERNAL then INTERNAL_CLOCK_MAX_HZ
    else CeilDivide(clock.frequencyHz * (PPM_SCALE + clock.tolerancePpm), PPM_SCALE)
  }

  function SequenceMask(sequence: RRSequence): ChannelMask {
    match sequence
    case CH0_CH1 => 0x03
    case CH0_CH1_CH2 => 0x07
    case CH0_CH1_CH2_CH3 => 0x0F
    case SEQUENCE_UNSPECIFIED => 0
  }

  function DeglitchBandwidthHz(deglitch: Deglitch): nat {
    match deglitch
    case DEGLITCH_UNSPECIFIED => 0
    case BW_1MHZ => 1_000_000
    case BW_3MHZ => 3_300_000
    case BW_10MHZ => 10_000_000
    case BW_33MHZ => 33_000_000
  }

  function FrefLimitHz(config: Config): nat {
    if config.mode == SINGLE_CHANNEL then 35_000_000
    else if config.referenceClock.source == EXTERNAL_CLOCK then 40_000_000
    else 55_000_000
  }

  predicate ClockAccepted(clock: ReferenceClock) {
    && clock.source != CLOCK_UNSPECIFIED
    && clock.tolerancePpm <= MAX_TOLERANCE_PPM
    && (clock.source == INTERNAL ==> INTERNAL_CLOCK_MIN_HZ <= clock.frequencyHz <= INTERNAL_CLOCK_MAX_HZ)
    && (clock.source == EXTERNAL_CLOCK ==>
         && EXTERNAL_CLOCK_MIN_HZ <= clock.frequencyHz <= EXTERNAL_CLOCK_MAX_HZ
         && ClockMinHz(clock) >= EXTERNAL_CLOCK_MIN_HZ
         && ClockMaxHz(clock) <= EXTERNAL_CLOCK_MAX_HZ)
  }

  predicate ModeAccepted(config: Config) {
    if config.mode == SINGLE_CHANNEL then
      && config.activeChannel < MAX_CHANNELS
      && config.channels == ChannelBit(config.activeChannel)
      && config.rrSequence == SEQUENCE_UNSPECIFIED
    else
      && config.mode == MULTI_CHANNEL_SEQUENTIAL
      && config.activeChannel == NO_CHANNEL
      && SequenceMask(config.rrSequence) == config.channels
  }

  /** Everything validation asks before it looks at single channels. */
  predicate GlobalsAccepted(config: Config) {
    && config.hasI2cWrite && config.hasI2cWriteRead && config.i2cTimeoutMs != 0
    && config.i2cAddress != ADDRESS_UNSPECIFIED
    && config.variant != VARIANT_UNSPECIFIED
    && config.channels != 0 && config.channels & !ValidChannelMask(config.variant) == 0
    && ClockAccepted(config.referenceClock)
    && config.deglitch != DEGLITCH_UNSPECIFIED
    && ModeAccepted(config)
    && (config.highCurrentDriveEnabled ==> config.mode == SINGLE_CHANNEL && config.activeChannel == 0)
  }

  predicate RegistersAccepted(c: ChannelConfig) {
    && c.rcount >= RCOUNT_MIN
    && FIN_DIVIDER_MIN <= c.finDivider <= FIN_DIVIDER_MAX
    && FREF_DIVIDER_MIN <= c.frefDivider <= FREF_DIVIDER_MAX
    && c.driveCurrentCode <= IDRIVE_MAX
  }

  /** The number a register field holds. Proofs hide the conversion, which the
      solver handles badly, and use its range only. */
  function Value8(field: bv8): (n: nat)
    ensures n <= 0xFF
  {
    field as int
  }

  function Value16(field: bv16): (n: nat)
    ensures n <= 0xFFFF
  {
    field as int
  }

  function ConversionCycles(c: ChannelConfig): nat { Value16(c.rcount) * 16 + 4 }
  function Fin(c: ChannelConfig): nat { Value8(c.finDivider) }
  function Fref(c: ChannelConfig): nat { Value16(c.frefDivider) }

  lemma FinRange(x: bv8)
    requires 1 <= x <= 15
    ensures 1 <= Value8(x) <= 15
  {
  }

  lemma FrefRange(x: bv16)
    requires 1 <= x <= 0x3FF
    ensures 1 <= Value16(x) <= 1023
  {
  }

  lemma DividerRanges(c: ChannelConfig)
    requires RegistersAccepted(c)
    ensures 1 <= Fin(c) <= 15 && 1 <= Fref(c) <= 1023
    ensures 4 <= ConversionCycles(c) <= 16 * 0xFFFF + 4
  {
    hide Value8, Value16;
    FinRange(c.finDivider);
    FrefRange(c.frefDivider);
  }

  // ----- the four rational limits -------------------------------------------

  /** The limits of the data sheet as exact rational statements about one
      selected channel when the reference clock runs at `hz`. */

  ghost predicate FrefBelowLimit(c: ChannelConfig, limit: nat, hz: real)
    requires Fref(c) > 0
  {
    hz / Fref(c) as real <= limit as real
  }

  /** fIN < fREF / 4 at the sensor maximum. */
  ghost predicate InputBelowQuarterFref(c: ChannelConfig, hz: real)
    requires Fref(c) > 0 && Fin(c) > 0
  {
    c.expectedSensorMaxHz as real / Fin(c) as real < hz / Fref(c) as real / 4.0
  }

  /** OFFSET stays below the sensor minimum's share of fREF. */
  ghost predicate OffsetBelowSensorMinimum(c: ChannelConfig, hz: real)
    requires Fref(c) > 0 && Fin(c) > 0 && hz > 0.0
  {
    Value16(c.offset) as real / 65536.0 * (hz / Fref(c) as real) < c.expectedSensorMinHz as real / Fin(c) as real
  }

  /** The conversion lasts at least one divided sensor period. */
  ghost predicate WindowCoversSensorPeriod(c: ChannelConfig, hz: real)
    requires Fref(c) > 0 && Fin(c) > 0 && hz > 0.0
  {
    hz / Fref(c) as real <= ConversionCycles(c) as real * (c.expectedSensorMinHz as real / Fin(c) as real)
  }

  lemma IntProduct(a: nat, b: nat)
    ensures a as real * b as real == (a * b) as real
  {
    if a > 0 { IntProduct(a - 1, b); }
  }

  /** Cross multiplication of fractions with positive denominators. */
  lemma CrossMultiply(a: real, b: real, c: real, d: real)
    requires b > 0.0 && d > 0.0
    ensures a / b <= c / d <==> a * d <= c * b
    ensures a / b < c / d <==> a * d < c * b
  {
    var x, y := a / b, c / d;
    assert a == x * b && c == y * d;
    assert a * d == x * (b * d) && c * b == y * (b * d);
    assert b * d > 0.0;
    if x < y { assert (y - x) * (b * d) > 0.0; }
    if y < x { assert (x - y) * (b * d) > 0.0; }
  }

  lemma CeilAtMost(a: nat, b: nat, limit: nat)
    requires b > 0
    ensures CeilDivide(a, b) <= limit <==> a <= limit * b
  {
    var q := (a + b - 1) / b;
    assert q * b <= a + b - 1 < (q + 1) * b;
    if q <= limit { assert q * b <= limit * b; }
    if q > limit { assert q * b >= (limit + 1) * b; }
  }

  lemma FrefLimitExact(c: ChannelConfig, limit: nat, clockMax: nat)
    requires RegistersAccepted(c)
    ensures Fref(c) > 0
    ensures CeilDivide(clockMax, Fref(c)) <= limit <==> FrefBelowLimit(c, limit, clockMax as real)
  {
    hide Value8, Value16;
    DividerRanges(c);
    FrefLimitRatio(clockMax, Fref(c), limit);
  }

  lemma FrefLimitRatio(clockMax: nat, fref: nat, limit: nat)
    requires fref > 0
    ensures CeilDivide(clockMax, fref) <= limit <==> clockMax as real / fref as real <= limit as real
  {
    CeilAtMost(clockMax, fref, limit);
    CrossMultiply(clockMax as real, fref as real, limit as real, 1.0);
    IntProduct(limit, fref);
  }

  lemma QuarterFrefExact(c: ChannelConfig, clockMin: nat)
    requires RegistersAccepted(c)
    ensures Fref(c) > 0 && Fin(c) > 0
    ensures c.expectedSensorMaxHz * 4 * Fref(c) < clockMin * Fin(c) <==> InputBelowQuarterFref(c, clockMin as real)
  {
    hide Value8, Value16;
    DividerRanges(c);
    QuarterFrefRatio(c.expectedSensorMaxHz, clockMin, Fref(c), Fin(c));
  }

  lemma QuarterFrefRatio(maxHz: nat, clockMin: nat, fref: nat, fin: nat)
    requires fref > 0 && fin > 0
    ensures maxHz * 4 * fref < clockMin * fin <==> maxHz as real / fin as real < clockMin as real / fref as real / 4.0
  {
    assert clockMin as real / fref as real / 4.0 == clockMin as real / (4 * fref) as real;
    CrossMultiply(maxHz as real, fin as real, clockMin as real, (4 * fref) as real);
    IntProduct(maxHz, 4 * fref);
    IntProduct(clockMin, fin);
    assert maxHz * (4 * fref) == maxHz * 4 * fref;
  }

  lemma OffsetExact(c: ChannelConfig, clockMax: nat)
    requires RegistersAccepted(c) && clockMax > 0
    ensures Fref(c) > 0 && Fin(c) > 0
    ensures Value16(c.offset) * clockMax * Fin(c) < c.expectedSensorMinHz * 65536 * Fref(c)
      <==> OffsetBelowSensorMinimum(c, clockMax as real)
  {
    hide Value8, Value16;
    DividerRanges(c);
    OffsetRatio(Value16(c.offset), c.expectedSensorMinHz, clockMax, Fref(c), Fin(c));
  }

  lemma OffsetRatio(offset: nat, minHz: nat, clockMax: nat, fref: nat, fin: nat)
    requires fref > 0 && fin > 0
    ensures offset * clockMax * fin < minHz * 65536 * fref
      <==> offset as real / 65536.0 * (clockMax as real / fref as real) < minHz as real / fin as real
  {
    assert offset as real / 65536.0 * (clockMax as real / fref as real)
        == (offset as real * clockMax as real) / (65536 * fref) as real;
    CrossMultiply(offset as real * clockMax as real, (65536 * fref) as real, minHz as real, fin as real);
    IntProduct(offset, clockMax);
    IntProduct(offset * clockMax, fin);
    IntProduct(minHz, 65536 * fref);
    assert minHz * (65536 * fref) == minHz * 65536 * fref;
  }

  lemma WindowExact(c: ChannelConfig, clockMax: nat)
    requires RegistersAccepted(c) && clockMax > 0
    ensures Fref(c) > 0 && Fin(c) > 0
    ensures ConversionCycles(c) * c.expectedSensorMinHz * Fref(c) >= clockMax * Fin(c)
      <==> WindowCoversSensorPeriod(c, clockMax as real)
  {
    hide Value8, Value16;
    DividerRanges(c);
    WindowRatio(ConversionCycles(c), c.expectedSensorMinHz, clockMax, Fref(c), Fin(c));
  }

  lemma WindowRatio(cycles: nat, minHz: nat, clockMax: nat, fref: nat, fin: nat)
    requires fref > 0 && fin > 0
    ensures cycles * minHz * fref >= clockMax * fin
      <==> clockMax as real / fref as real <= cycles as real * (minHz as real / fin as real)
  {
    assert cycles as real * (minHz as real / fin as real) == (cycles as real * minHz as real) / fin as real;
    CrossMultiply(clockMax as real, fref as real, cycles as real * minHz as real, fin as real);
    IntProduct(cycles, minHz);
    IntProduct(cycles * minHz, fref);
    IntProduct(clockMax, fin);
  }

  // ----- acceptance ---------------------------------------------------------

  predicate CountsAndSensorAccepted(config: Config, c: ChannelConfig) {
    && c.rcount >= CONVERSION_RCOUNT_MIN && c.settleCount >= CONVERSION_SETTLE_MIN
    && SENSOR_FREQUENCY_MIN_HZ <= c.expectedSensorMinHz <= c.expectedSensorMaxHz <= SENSOR_FREQUENCY_MAX_HZ
    && c.expectedSensorMaxHz < DeglitchBandwidthHz(config.deglitch)
    && (c.expectedSensorMaxHz >= 8_750_000 ==> c.finDivider >= 2)
  }

  /** All four rational limits at the extremes of one clock interval. */
  ghost predicate LimitsHold(c: ChannelConfig, limit: nat, slowest: real, fastest: real)
    requires RegistersAccepted(c) && fastest > 0.0
  {
    DividerRanges(c);
    && FrefBelowLimit(c, limit, fastest)
    && WindowCoversSensorPeriod(c, fastest)
    && OffsetBelowSensorMinimum(c, fastest)
    && InputBelowQuarterFref(c, slowest)
  }

  lemma ClockBounds(clock: ReferenceClock)
    requires ClockAccepted(clock)
    ensures EXTERNAL_CLOCK_MIN_HZ <= ClockMinHz(clock) <= ClockMaxHz(clock) <= INTERNAL_CLOCK_MAX_HZ
  {
    if clock.source == EXTERNAL_CLOCK {
      var f, t := clock.frequencyHz, clock.tolerancePpm;
      assert f * (PPM_SCALE - t) <= f * PPM_SCALE <= f * (PPM_SCALE + t);
    }
  }

  lemma ConfigClockBounds(config: Config)
    requires GlobalsAccepted(config)
    ensures ClockAccepted(config.referenceClock)
    ensures EXTERNAL_CLOCK_MIN_HZ <= ClockMinHz(config.referenceClock)
      <= ClockMaxHz(config.referenceClock) <= INTERNAL_CLOCK_MAX_HZ
  {
    ClockBounds(config.referenceClock);
  }

  /** The meaning of an accepted profile. */
  ghost predicate Accepted(config: Config) {
    && GlobalsAccepted(config)
    && (forall i :: 0 <= i < ChannelCountFor(config.variant) ==> ChannelAccepted(config, i))
  }

  ghost predicate ChannelAccepted(config: Config, i: int)
    requires GlobalsAccepted(config) && 0 <= i < MAX_CHANNELS
  {
    ConfigClockBounds(config);
    && RegistersAccepted(config.channel[i])
    && (Has(config.channels, i) ==>
         && CountsAndSensorAccepted(config, config.channel[i])
         && LimitsHold(config.channel[i], FrefLimitHz(config),
                       ClockMinHz(config.referenceClock) as real, ClockMaxHz(config.referenceClock) as real))
  }

  // The driver's integer tests of one selected channel. Every 64-bit
  // intermediate value is a `uint64` here, so overflow is ruled out too.

  method FrefTest(clockMin: uint64, clockMax: uint64, fref: uint16, limit: nat) returns (ok: bool)
    requires 1 <= fref <= 1023 && 1023 <= clockMin && clockMax <= INTERNAL_CLOCK_MAX_HZ
    ensures ok <==> CeilDivide(clockMax, fref) <= limit
  {
    var frefMin: uint64 := clockMin / fref;
    var padded: uint64 := clockMax + fref - 1;
    var frefMax: uint64 := padded / fref;
    assert clockMin / fref >= 1 by { assert clockMin >= 1 * fref; }
    ok := !(frefMin == 0 || frefMax > limit);
  }

  method WindowTest(cycles: nat, minHz: uint32, clockMax: uint64, fref: uint16, fin: uint8) returns (ok: bool)
    requires cycles <= 1_048_564 && minHz <= SENSOR_FREQUENCY_MAX_HZ && fref <= 1023 && fin <= 15
    requires clockMax <= INTERNAL_CLOCK_MAX_HZ
    ensures ok <==> cycles * minHz * fref >= clockMax * fin
  {
    ProductBound(cycles, 1_048_564, minHz, 10_000_000);
    var perSensor: uint64 := cycles * minHz;
    ProductBound(perSensor, 10_485_640_000_000, fref, 1023);
    var window: uint64 := perSensor * fref;
    ProductBound(clockMax, 55_000_000, fin, 15);
    var fastInput: uint64 := clockMax * fin;
    ok := window >= fastInput;
  }

  method OffsetTest(offset: uint16, minHz: uint32, clockMax: uint64, fref: uint16, fin: uint8) returns (ok: bool)
    requires minHz <= SENSOR_FREQUENCY_MAX_HZ && fref <= 1023 && fin <= 15 && clockMax <= INTERNAL_CLOCK_MAX_HZ
    ensures ok <==> offset * clockMax * fin < minHz * 65536 * fref
  {
    ProductBound(offset, 65535, clockMax, 55_000_000);
    var offsetClock: uint64 := offset * clockMax;
    ProductBound(offsetClock, 3_604_425_000_000, fin, 15);
    var offsetShare: uint64 := offsetClock * fin;
    var scaledMinimum: uint64 := minHz * 65536;
    ProductBound(scaledMinimum, 655_360_000_000, fref, 1023);
    var sensorShare: uint64 := scaledMinimum * fref;
    ok := offsetShare < sensorShare;
  }

  method QuarterTest(maxHz: uint32, clockMin: uint64, fref: uint16, fin: uint8) returns (ok: bool)
    requires maxHz <= SENSOR_FREQUENCY_MAX_HZ && fref <= 1023 && fin <= 15 && clockMin <= INTERNAL_CLOCK_MAX_HZ
    ensures ok <==> maxHz * 4 * fref < clockMin * fin
  {
    var scaledMaximum: uint64 := maxHz * 4;
    ProductBound(scaledMaximum, 40_000_000, fref, 1023);
    var quarterInput: uint64 := scaledMaximum * fref;
    ProductBound(clockMin, 55_000_000, fin, 15);
    var slowReference: uint64 := clockMin * fin;
    ok := quarterInput < slowReference;
  }

  method ValidateLimits(c: ChannelConfig, limit: nat, clockMin: uint64, clockMax: uint64) returns (ok: bool)
    requires RegistersAccepted(c)
    requires SENSOR_FREQUENCY_MIN_HZ <= c.expectedSensorMinHz <= c.expectedSensorMaxHz <= SENSOR_FREQUENCY_MAX_HZ
    requires EXTERNAL_CLOCK_MIN_HZ <= clockMin <= clockMax <= INTERNAL_CLOCK_MAX_HZ
    ensures ok <==> LimitsHold(c, limit, clockMin as real, clockMax as real)
  {
    hide Value8, Value16, FrefBelowLimit, WindowCoversSensorPeriod, OffsetBelowSensorMinimum, InputBelowQuarterFref,
      CeilDivide;
    DividerRanges(c);
    FrefLimitExact(c, limit, clockMax);
    WindowExact(c, clockMax);
    OffsetExact(c, clockMax);
    QuarterFrefExact(c, clockMin);
    ok := FrefTest(clockMin, clockMax, Fref(c), limit);
    if ok {
      ok := WindowTest(ConversionCycles(c), c.expectedSensorMinHz, clockMax, Fref(c), Fin(c));
    }
    if ok {
      ok := OffsetTest(Value16(c.offset), c.expectedSensorMinHz, clockMax, Fref(c), Fin(c));
    }
    if ok {
      ok := QuarterTest(c.expectedSensorMaxHz, clockMin, Fref(c), Fin(c));
    }
  }

  lemma ProductBound(a: nat, maxA: nat, b: nat, maxB: nat)
    requires a <= maxA && b <= maxB
    ensures 0 <= a * b <= maxA * maxB
  {
    assert a * b <= maxA * b <= maxA * maxB;
  }

  method ReferenceClockBounds(clock: ReferenceClock) returns (minHz: uint64, maxHz: uint64)
    requires clock.tolerancePpm <= MAX_TOLERANCE_PPM && clock.frequencyHz <= INTERNAL_CLOCK_MAX_HZ
    ensures minHz == ClockMinHz(clock) && maxHz == ClockMaxHz(clock)
  {
    if clock.source == INTERNAL {
      return INTERNAL_CLOCK_MIN_HZ, INTERNAL_CLOCK_MAX_HZ;
    }
    var f, t := clock.frequencyHz, clock.tolerancePpm;
    ProductBound(f, INTERNAL_CLOCK_MAX_HZ, PPM_SCALE - t, PPM_SCALE);
    ProductBound(f, INTERNAL_CLOCK_MAX_HZ, PPM_SCALE + t, 2 * PPM_SCALE);
    var slow: uint64 := f * (PPM_SCALE - t);
    var fast: uint64 := f * (PPM_SCALE + t) + PPM_SCALE - 1;
    minHz := slow / PPM_SCALE;
    maxHz := fast / PPM_SCALE;
  }

  /** `validateConfig`: the early-return chain of the driver accepts exactly
      the profiles whose rational limits hold at the integer clock extremes. */
  method ValidateConfig(config: Config) returns (status: Err)
    ensures status == OK || status == INVALID_CONFIG
    ensures status == OK <==> Accepted(config)
  {
    hide Value8, Value16, LimitsHold;
    if !config.hasI2cWrite || !config.hasI2cWriteRead || config.i2cTimeoutMs == 0 {
      return INVALID_CONFIG;
    }
    if config.i2cAddress == ADDRESS_UNSPECIFIED {
      return INVALID_CONFIG;
    }
    var channelCount := ChannelCountFor(config.variant);
    if channelCount == 0 {
      return INVALID_CONFIG;
    }
    var valid := ValidChannelMask(config.variant);
    if config.channels == 0 || config.channels & !valid != 0 {
      return INVALID_CONFIG;
    }
    var clock := config.referenceClock;
    if clock.source != INTERNAL && clock.source != EXTERNAL_CLOCK {
      return INVALID_CONFIG;
    }
    if clock.source == INTERNAL {
      if clock.frequencyHz < INTERNAL_CLOCK_MIN_HZ || clock.frequencyHz > INTERNAL_CLOCK_MAX_HZ {
        return INVALID_CONFIG;
      }
    } else if clock.frequencyHz < EXTERNAL_CLOCK_MIN_HZ || clock.frequencyHz > EXTERNAL_CLOCK_MAX_HZ {
      return INVALID_CONFIG;
    }
    if clock.tolerancePpm > MAX_TOLERANCE_PPM {
      return INVALID_CONFIG;
    }
    var clockMin, clockMax := ReferenceClockBounds(clock);
    if clock.source != INTERNAL && (clockMin < EXTERNAL_CLOCK_MIN_HZ || clockMax > EXTERNAL_CLOCK_MAX_HZ) {
      return INVALID_CONFIG;
    }
    if config.deglitch == DEGLITCH_UNSPECIFIED {
      return INVALID_CONFIG;
    }
    if config.mode == SINGLE_CHANNEL {
      if config.activeChannel >= MAX_CHANNELS || !Has(config.channels, config.activeChannel)
         || config.channels != ChannelBit(config.activeChannel) || config.rrSequence != SEQUENCE_UNSPECIFIED {
        return INVALID_CONFIG;
      }
    } else if config.mode == MULTI_CHANNEL_SEQUENTIAL {
      if config.activeChannel != NO_CHANNEL || SequenceMask(config.rrSequence) != config.channels
         || SequenceMask(config.rrSequence) & !valid != 0 {
        return INVALID_CONFIG;
      }
    } else {
      return INVALID_CONFIG;
    }
    if config.highCurrentDriveEnabled && (config.mode != SINGLE_CHANNEL || config.activeChannel != 0) {
      return INVALID_CONFIG;
    }
    ClockBounds(clock);
    assert GlobalsAccepted(config);
    status := ValidateChannels(config, clockMin, clockMax);
  }

  method RegistersTest(c: ChannelConfig) returns (ok: bool)
    ensures ok <==> RegistersAccepted(c)
  {
    ok := !(c.rcount < RCOUNT_MIN || c.finDivider < FIN_DIVIDER_MIN || c.finDivider > FIN_DIVIDER_MAX
            || c.frefDivider < FREF_DIVIDER_MIN || c.frefDivider > FREF_DIVIDER_MAX
            || c.driveCurrentCode > IDRIVE_MAX);
  }

  method CountsAndSensorTest(config: Config, c: ChannelConfig) returns (ok: bool)
    ensures ok <==> CountsAndSensorAccepted(config, c)
    ensures ok ==> SENSOR_FREQUENCY_MIN_HZ <= c.expectedSensorMinHz <= c.expectedSensorMaxHz <= SENSOR_FREQUENCY_MAX_HZ
  {
    if c.rcount < CONVERSION_RCOUNT_MIN || c.settleCount < CONVERSION_SETTLE_MIN {
      return false;
    }
    if c.expectedSensorMinHz < SENSOR_FREQUENCY_MIN_HZ || c.expectedSensorMaxHz > SENSOR_FREQUENCY_MAX_HZ
       || c.expectedSensorMinHz > c.expectedSensorMaxHz {
      return false;
    }
    if c.expectedSensorMaxHz >= DeglitchBandwidthHz(config.deglitch) {
      return false;
    }
    ok := !(c.expectedSensorMaxHz >= 8_750_000 && c.finDivider < 2);
  }

  method ValidateChannel(config: Config, index: int, clockMin: uint64, clockMax: uint64) returns (ok: bool)
    requires GlobalsAccepted(config) && 0 <= index < MAX_CHANNELS
    requires clockMin == ClockMinHz(config.referenceClock) && clockMax == ClockMaxHz(config.referenceClock)
    ensures ok <==> ChannelAccepted(config, index)
  {
    hide Value8, Value16, LimitsHold, GlobalsAccepted, ClockAccepted, ClockMinHz, ClockMaxHz, CountsAndSensorAccepted,
      RegistersAccepted, Has, FrefLimitHz;
    ConfigClockBounds(config);
    var c := config.channel[index];
    ok := RegistersTest(c);
    if !ok || !Has(config.channels, index) {
      return;
    }
    ok := CountsAndSensorTest(config, c);
    if ok {
      ok := ValidateLimits(c, FrefLimitHz(config), clockMin, clockMax);
    }
  }

  method ValidateChannels(config: Config, clockMin: uint64, clockMax: uint64) returns (status: Err)
    requires GlobalsAccepted(config)
    requires clockMin == ClockMinHz(config.referenceClock) && clockMax == ClockMaxHz(config.referenceClock)
    ensures status == OK || status == INVALID_CONFIG
    ensures status == OK <==> Accepted(config)
  {
    hide ChannelAccepted, GlobalsAccepted, ClockMinHz, ClockMaxHz;
    var index := 0;
    while index < ChannelCountFor(config.variant)
      invariant 0 <= index <= ChannelCountFor(config.variant)
      invariant forall i :: 0 <= i < index ==> ChannelAccepted(config, i)
    {
      var ok := ValidateChannel(config, index, clockMin, clockMax);
      if !ok {
        return INVALID_CONFIG;
      }
      index := index + 1;
    }
    status := OK;
  }

  // ----- from the extremes to every clock -----------------------------------

  /** A real clock frequency the profile admits. */
  ghost predicate ClockWithin(clock: ReferenceClock, hz: real) {
    if clock.source == INTERNAL then 35_000_000.0 <= hz <= 55_000_000.0
    else SlowestHz(clock) <= hz <= FastestHz(clock)
  }

  ghost function SlowestHz(clock: ReferenceClock): real {
    (clock.frequencyHz * (PPM_SCALE - clock.tolerancePpm)) as real / 1_000_000.0
  }

  ghost function FastestHz(clock: ReferenceClock): real {
    (clock.frequencyHz * (PPM_SCALE + clock.tolerancePpm)) as real / 1_000_000.0
  }

  lemma BoundsEncloseClock(clock: ReferenceClock, hz: real)
    requires ClockAccepted(clock) && ClockWithin(clock, hz)
    ensures 0.0 < ClockMinHz(clock) as real <= hz <= ClockMaxHz(clock) as real
  {
    ClockBounds(clock);
    if clock.source == EXTERNAL_CLOCK {
      var slow := clock.frequencyHz * (PPM_SCALE - clock.tolerancePpm);
      var fast := clock.frequencyHz * (PPM_SCALE + clock.tolerancePpm);
      assert ClockMinHz(clock) * PPM_SCALE <= slow;
      assert ClockMaxHz(clock) * PPM_SCALE >= fast;
    }
  }

  lemma DivideMonotone(a: real, b: real, d: real)
    requires a <= b && d > 0.0
    ensures a / d <= b / d
  {
    CrossMultiply(a, d, b, d);
  }

  lemma ScaleMonotone(k: real, a: real, b: real)
    requires k >= 0.0 && a <= b
    ensures k * a <= k * b
  {
  }

  lemma LimitsMonotone(c: ChannelConfig, limit: nat, slowest: real, fastest: real, hz: real)
    requires RegistersAccepted(c) && 0.0 < slowest <= hz <= fastest
    requires LimitsHold(c, limit, slowest, fastest)
    ensures LimitsHold(c, limit, hz, hz)
  {
    hide Value8, Value16;
    DividerRanges(c);
    var fref := Fref(c) as real;
    DivideMonotone(hz, fastest, fref);
    DivideMonotone(slowest, hz, fref);
    DivideMonotone(slowest / fref, hz / fref, 4.0);
    ScaleMonotone(Value16(c.offset) as real / 65536.0, hz / fref, fastest / fref);
  }

  /** An accepted profile meets all four limits at every real reference clock
      in its tolerance interval (35 to 55 MHz for the internal oscillator). */
  lemma AcceptedAtEveryClock(config: Config, i: int, hz: real)
    requires Accepted(config) && 0 <= i < ChannelCountFor(config.variant) && Has(config.channels, i)
    requires ClockWithin(config.referenceClock, hz)
    ensures hz > 0.0 && RegistersAccepted(config.channel[i])
    ensures LimitsHold(config.channel[i], FrefLimitHz(config), hz, hz)
  {
    hide LimitsHold;
    assert ChannelAccepted(config, i);
    var clock := config.referenceClock;
    ClockBounds(clock);
    BoundsEncloseClock(clock, hz);
    LimitsMonotone(config.channel[i], FrefLimitHz(config), ClockMinHz(clock) as real, ClockMaxHz(clock) as real, hz);
  }

  // ----- exactly when rounding the clock matters ----------------------------

  /** The true clock extremes in millionths of a hertz. */
  function ScaledMin(clock: ReferenceClock): nat
    requires clock.tolerancePpm <= MAX_TOLERANCE_PPM
  {
    if clock.source == INTERNAL then INTERNAL_CLOCK_MIN_HZ * PPM_SCALE
    else clock.frequencyHz * (PPM_SCALE - clock.tolerancePpm)
  }

  function ScaledMax(clock: ReferenceClock): nat {
    if clock.source == INTERNAL then INTERNAL_CLOCK_MAX_HZ * PPM_SCALE
    else clock.frequencyHz * (PPM_SCALE + clock.tolerancePpm)
  }

  /** The four limits as integer products, for a divider `fref` and clock
      extremes in the same unit. */
  predicate ProductsHold(c: ChannelConfig, limit: nat, slow: nat, fast: nat, fref: nat) {
    && fast <= limit * fref
    && fast * Fin(c) <= ConversionCycles(c) * c.expectedSensorMinHz * fref
    && Value16(c.offset) * fast * Fin(c) < c.expectedSensorMinHz * 65536 * fref
    && c.expectedSensorMaxHz * 4 * fref < slow * Fin(c)
  }

  /** The products at the rounded extremes that rounding can turn false. */
  predicate RoundedProductsHold(c: ChannelConfig, slow: nat, fast: nat) {
    && fast * Fin(c) <= ConversionCycles(c) * c.expectedSensorMinHz * Fref(c)
    && Value16(c.offset) * fast * Fin(c) < c.expectedSensorMinHz * 65536 * Fref(c)
    && c.expectedSensorMaxHz * 4 * Fref(c) < slow * Fin(c)
  }

  /** Every product holds at the true extremes, and one fails at the extremes
      rounded to whole hertz. */
  predicate LostToRounding(c: ChannelConfig, limit: nat, clock: ReferenceClock)
    requires clock.tolerancePpm <= MAX_TOLERANCE_PPM
  {
    && ProductsHold(c, limit, ScaledMin(clock), ScaledMax(clock), PPM_SCALE * Fref(c))
    && !RoundedProductsHold(c, ClockMinHz(clock), ClockMaxHz(clock))
  }

  ghost predicate LimitsAtEveryClock(c: ChannelConfig, limit: nat, clock: ReferenceClock)
    requires RegistersAccepted(c)
  {
    forall hz: real :: ClockWithin(clock, hz) && hz > 0.0 ==> LimitsHold(c, limit, hz, hz)
  }

  lemma ProductsAreLimits(c: ChannelConfig, limit: nat, slow: nat, fast: nat, scale: nat)
    requires RegistersAccepted(c) && fast > 0 && scale > 0
    ensures fast as real / scale as real > 0.0
    ensures ProductsHold(c, limit, slow, fast, scale * Fref(c))
      <==> LimitsHold(c, limit, slow as real / scale as real, fast as real / scale as real)
  {
    hide Value8, Value16, Fref, Fin, ConversionCycles, RegistersAccepted;
    DividerRanges(c);
    var fref := scale * Fref(c);
    assert fref > 0 by { ScalePositive(scale, Fref(c)); }
    CrossMultiply(0.0, 1.0, fast as real, scale as real);
    DivideTwice(slow as real, scale, Fref(c));
    DivideTwice(fast as real, scale, Fref(c));
    CeilAtMost(fast, fref, limit);
    FrefLimitRatio(fast, fref, limit);
    WindowRatio(ConversionCycles(c), c.expectedSensorMinHz, fast, fref, Fin(c));
    OffsetRatio(Value16(c.offset), c.expectedSensorMinHz, fast, fref, Fin(c));
    QuarterFrefRatio(c.expectedSensorMaxHz, slow, fref, Fin(c));
  }

  lemma ScalePositive(a: nat, b: nat)
    requires a > 0 && b > 0
    ensures a * b > 0
  {
  }

  lemma DivideTwice(hz: real, a: nat, b: nat)
    requires a > 0 && b > 0
    ensures a * b > 0
    ensures hz / a as real / b as real == hz / (a * b) as real
  {
    ScalePositive(a, b);
    IntProduct(a, b);
    var q := hz / a as real / b as real;
    assert q * b as real * a as real == hz;
    assert q * (a * b) as real == hz;
  }

  lemma TrueExtremes(clock: ReferenceClock)
    requires ClockAccepted(clock)
    ensures 0 < ScaledMin(clock) <= ScaledMax(clock)
    ensures ClockMinHz(clock) == ScaledMin(clock) / PPM_SCALE
    ensures ClockMaxHz(clock) == CeilDivide(ScaledMax(clock), PPM_SCALE)
  {
    if clock.source == EXTERNAL_CLOCK {
      ToleranceOrder(clock.frequencyHz, clock.tolerancePpm);
    }
  }

  lemma ToleranceOrder(f: nat, t: nat)
    requires f > 0 && t < PPM_SCALE
    ensures 0 < f * (PPM_SCALE - t) <= f * (PPM_SCALE + t)
  {
    ScalePositive(f, PPM_SCALE - t);
    assert f * (PPM_SCALE + t) == f * (PPM_SCALE - t) + f * (2 * t);
  }

  lemma WithinTrueExtremes(clock: ReferenceClock)
    requires ClockAccepted(clock)
    ensures forall hz: real :: ClockWithin(clock, hz) <==>
      ScaledMin(clock) as real / PPM_SCALE as real <= hz <= ScaledMax(clock) as real / PPM_SCALE as real
  {
  }

  /** The limits hold at every clock of an interval if and only if they hold
      with the fast ones at its end and the slow one at its start. */
  lemma IntervalExactly(c: ChannelConfig, limit: nat, clock: ReferenceClock, slow: real, fast: real)
    requires RegistersAccepted(c) && 0.0 < slow <= fast
    requires forall hz: real :: ClockWithin(clock, hz) <==> slow <= hz <= fast
    ensures LimitsAtEveryClock(c, limit, clock) <==> LimitsHold(c, limit, slow, fast)
  {
    hide LimitsHold, ClockWithin, RegistersAccepted;
    if LimitsHold(c, limit, slow, fast) {
      forall hz: real | ClockWithin(clock, hz) && hz > 0.0
        ensures LimitsHold(c, limit, hz, hz)
      {
        LimitsMonotone(c, limit, slow, fast, hz);
      }
    } else if LimitsAtEveryClock(c, limit, clock) {
      assert ClockWithin(clock, slow) && ClockWithin(clock, fast);
      ExtremesSuffice(c, limit, slow, fast);
    }
  }

  lemma ExtremesSuffice(c: ChannelConfig, limit: nat, slow: real, fast: real)
    requires RegistersAccepted(c) && 0.0 < slow <= fast
    requires LimitsHold(c, limit, slow, slow) && LimitsHold(c, limit, fast, fast)
    ensures LimitsHold(c, limit, slow, fast)
  {
  }

  /** A channel meets its limits at every admitted clock if and only if the
      integer products hold at the two true extremes. */
  lemma EveryClockExactly(c: ChannelConfig, limit: nat, clock: ReferenceClock)
    requires RegistersAccepted(c) && ClockAccepted(clock)
    ensures LimitsAtEveryClock(c, limit, clock)
      <==> ProductsHold(c, limit, ScaledMin(clock), ScaledMax(clock), PPM_SCALE * Fref(c))
  {
    hide ProductsHold, LimitsHold, LimitsAtEveryClock, ClockWithin, ScaledMin, ScaledMax, Fref, RegistersAccepted;
    TrueExtremes(clock);
    WithinTrueExtremes(clock);
    ProductsAreLimits(c, limit, ScaledMin(clock), ScaledMax(clock), PPM_SCALE);
    PositiveQuotients(ScaledMin(clock), ScaledMax(clock), PPM_SCALE);
    IntervalExactly(c, limit, clock, ScaledMin(clock) as real / PPM_SCALE as real,
                    ScaledMax(clock) as real / PPM_SCALE as real);
  }

  lemma PositiveQuotients(a: nat, b: nat, d: nat)
    requires 0 < a <= b && d > 0
    ensures 0.0 < a as real / d as real <= b as real / d as real
  {
    CrossMultiply(0.0, 1.0, a as real, d as real);
    CrossMultiply(a as real, d as real, b as real, d as real);
  }

  /** Rounding the clock outwards never changes the fREF verdict: its bound is
      whole. The other verdicts it can only turn into refusals. */
  lemma RoundingEffect(c: ChannelConfig, limit: nat, clock: ReferenceClock)
    requires RegistersAccepted(c) && ClockAccepted(clock)
    ensures ClockMaxHz(clock) <= limit * Fref(c) <==> ScaledMax(clock) <= limit * (PPM_SCALE * Fref(c))
    ensures ProductsHold(c, limit, ClockMinHz(clock), ClockMaxHz(clock), Fref(c))
      ==> ProductsHold(c, limit, ScaledMin(clock), ScaledMax(clock), PPM_SCALE * Fref(c))
  {
    hide Value8, Value16, LimitsHold;
    TrueExtremes(clock);
    ClockBounds(clock);
    CeilAtMost(ScaledMax(clock), PPM_SCALE, limit * Fref(c));
    assert limit * Fref(c) * PPM_SCALE == limit * (PPM_SCALE * Fref(c));
    if ProductsHold(c, limit, ClockMinHz(clock), ClockMaxHz(clock), Fref(c)) {
      ProductsAreLimits(c, limit, ClockMinHz(clock), ClockMaxHz(clock), 1);
      forall hz: real | ClockWithin(clock, hz) && hz > 0.0
        ensures LimitsHold(c, limit, hz, hz)
      {
        BoundsEncloseClock(clock, hz);
        LimitsMonotone(c, limit, ClockMinHz(clock) as real, ClockMaxHz(clock) as real, hz);
      }
      EveryClockExactly(c, limit, clock);
    }
  }

  /** For every accepted clock: the driver refuses a channel that is within its
      limits at every clock if and only if a product is lost to rounding, and
      its verdict is the every-clock verdict otherwise. */
  lemma ChannelVerdictExactly(c: ChannelConfig, limit: nat, clock: ReferenceClock)
    requires RegistersAccepted(c) && ClockAccepted(clock)
    ensures ClockMaxHz(clock) > 0
    ensures LimitsHold(c, limit, ClockMinHz(clock) as real, ClockMaxHz(clock) as real)
      <==> LimitsAtEveryClock(c, limit, clock) && !LostToRounding(c, limit, clock)
    ensures (LimitsHold(c, limit, ClockMinHz(clock) as real, ClockMaxHz(clock) as real)
             <==> LimitsAtEveryClock(c, limit, clock))
      <==> !LostToRounding(c, limit, clock)
  {
    hide Value8, Value16, LimitsHold, LimitsAtEveryClock, ClockMinHz, ClockMaxHz, ScaledMin, ScaledMax;
    ClockBounds(clock);
    ProductsAreLimits(c, limit, ClockMinHz(clock), ClockMaxHz(clock), 1);
    assert 1 * Fref(c) == Fref(c);
    EveryClockExactly(c, limit, clock);
    RoundingEffect(c, limit, clock);
  }

  /** What validation is for: every register legal and every selected channel
      within all limits at every reference clock the profile admits. */
  ghost predicate SoundAtEveryClock(config: Config) {
    && GlobalsAccepted(config)
    && (forall i :: 0 <= i < ChannelCountFor(config.variant) ==> ChannelSound(config, i))
  }

  ghost predicate ChannelSound(config: Config, i: int)
    requires 0 <= i < MAX_CHANNELS
  {
    && RegistersAccepted(config.channel[i])
    && (Has(config.channels, i) ==>
         && CountsAndSensorAccepted(config, config.channel[i])
         && LimitsAtEveryClock(config.channel[i], FrefLimitHz(config), config.referenceClock))
  }

  /** Some selected channel loses a product to the rounding of the clock. */
  predicate RoundingRefuses(config: Config) {
    && config.referenceClock.tolerancePpm <= MAX_TOLERANCE_PPM
    && exists i :: 0 <= i < ChannelCountFor(config.variant)
         && Has(config.channels, i) && LostToRounding(config.channel[i], FrefLimitHz(config), config.referenceClock)
  }

  lemma ChannelAcceptedExactly(config: Config, i: int)
    requires GlobalsAccepted(config) && 0 <= i < ChannelCountFor(config.variant)
    ensures config.referenceClock.tolerancePpm <= MAX_TOLERANCE_PPM
    ensures ChannelAccepted(config, i) <==>
      && ChannelSound(config, i)
      && !(Has(config.channels, i) && LostToRounding(config.channel[i], FrefLimitHz(config), config.referenceClock))
  {
    hide LimitsHold, LimitsAtEveryClock, LostToRounding, CountsAndSensorAccepted, RegistersAccepted, ClockMinHz,
      ClockMaxHz;
    ConfigClockBounds(config);
    if RegistersAccepted(config.channel[i]) {
      ChannelVerdictExactly(config.channel[i], FrefLimitHz(config), config.referenceClock);
    }
  }

  /** The driver accepts exactly the profiles sound at every clock, but for
      those some channel of which loses a product to rounding; it never
      accepts an unsound one. */
  lemma AcceptedExactly(config: Config)
    ensures Accepted(config) <==> SoundAtEveryClock(config) && !RoundingRefuses(config)
  {
    hide ChannelAccepted, ChannelSound, LostToRounding, ModeAccepted, FrefLimitHz;
    if GlobalsAccepted(config) {
      forall i | 0 <= i < ChannelCountFor(config.variant)
        ensures ChannelAccepted(config, i) <==>
          && ChannelSound(config, i)
          && !(Has(config.channels, i) && LostToRounding(config.channel[i], FrefLimitHz(config), config.referenceClock))
      {
        ChannelAcceptedExactly(config, i);
      }
    }
  }

  /** When the clock extremes are whole hertz nothing is lost to rounding. */
  lemma ExactForWholeHertz(c: ChannelConfig, limit: nat, clock: ReferenceClock)
    requires RegistersAccepted(c) && ClockAccepted(clock)
    requires clock.source == EXTERNAL_CLOCK ==>
      && clock.frequencyHz * (PPM_SCALE - clock.tolerancePpm) % PPM_SCALE == 0
      && clock.frequencyHz * (PPM_SCALE + clock.tolerancePpm) % PPM_SCALE == 0
    ensures !LostToRounding(c, limit, clock)
    ensures ClockMinHz(clock) <= ClockMaxHz(clock) && ClockMaxHz(clock) > 0
    ensures LimitsHold(c, limit, ClockMinHz(clock) as real, ClockMaxHz(clock) as real)
      <==> LimitsAtEveryClock(c, limit, clock)
  {
    hide Value8, Value16, LimitsHold, LimitsAtEveryClock, LostToRounding;
    ClockBounds(clock);
    WholeHertzExtremes(clock);
    WholeProducts(c, limit, clock);
    ChannelVerdictExactly(c, limit, clock);
  }

  lemma WholeProducts(c: ChannelConfig, limit: nat, clock: ReferenceClock)
    requires RegistersAccepted(c) && clock.tolerancePpm <= MAX_TOLERANCE_PPM
    requires ScaledMin(clock) == ClockMinHz(clock) * PPM_SCALE && ScaledMax(clock) == ClockMaxHz(clock) * PPM_SCALE
    ensures !LostToRounding(c, limit, clock)
  {
    hide Value8, Value16, ScaledMin, ScaledMax, ClockMinHz, ClockMaxHz, ConversionCycles, Fin, Fref;
    var slow, fast := ClockMinHz(clock), ClockMaxHz(clock);
    ScaledComparison(fast, Fin(c), ConversionCycles(c) * c.expectedSensorMinHz, Fref(c));
    ScaledComparison(slow, Fin(c), c.expectedSensorMaxHz * 4, Fref(c));
    ScaledComparison(Value16(c.offset) * fast, Fin(c), c.expectedSensorMinHz * 65536, Fref(c));
    Regroup(Value16(c.offset), fast);
  }

  lemma Regroup(a: nat, b: nat)
    ensures a * (b * PPM_SCALE) == a * b * PPM_SCALE
  {
  }

  /** A common factor of both sides does not change a comparison. */
  lemma ScaledComparison(a: nat, fin: nat, b: nat, fref: nat)
    ensures a * PPM_SCALE * fin <= b * (PPM_SCALE * fref) <==> a * fin <= b * fref
    ensures a * PPM_SCALE * fin < b * (PPM_SCALE * fref) <==> a * fin < b * fref
    ensures b * (PPM_SCALE * fref) < a * PPM_SCALE * fin <==> b * fref < a * fin
  {
    assert a * PPM_SCALE * fin == (a * fin) * PPM_SCALE;
    assert b * (PPM_SCALE * fref) == (b * fref) * PPM_SCALE;
  }

  lemma WholeHertzExtremes(clock: ReferenceClock)
    requires ClockAccepted(clock)
    requires clock.source == EXTERNAL_CLOCK ==>
      && clock.frequencyHz * (PPM_SCALE - clock.tolerancePpm) % PPM_SCALE == 0
      && clock.frequencyHz * (PPM_SCALE + clock.tolerancePpm) % PPM_SCALE == 0
    ensures ScaledMin(clock) == ClockMinHz(clock) * PPM_SCALE && ScaledMax(clock) == ClockMaxHz(clock) * PPM_SCALE
  {
  }

  // A profile refused for the rounding alone: its slowest clock is
  // 2000003.99997 Hz, and only at 2000003 Hz is the input above fREF / 4.

  const REFUSED_CHANNEL := ChannelConfig(0xFFFF, 10, 15, 1, 0, 0, 7_500_012, 7_500_012)
  const REFUSED_CLOCK := ReferenceClock(EXTERNAL_CLOCK, 2_000_010, 3)

  const REFUSED_PROFILE := Config(
    true, true, 1, 50, ADDR_GND, LDC1612, 0x01,
    [REFUSED_CHANNEL, REFUSED_CHANNEL, REFUSED_CHANNEL, REFUSED_CHANNEL],
    REFUSED_CLOCK, SINGLE_CHANNEL, 0,
    SEQUENCE_UNSPECIFIED, BW_10MHZ, FULL_CURRENT, false, false, false, false,
    ErrorReporting(false, false, false, false, false, false, false, false, false, false, false, false))

  lemma RefusedProducts()
    ensures RegistersAccepted(REFUSED_CHANNEL) && ClockAccepted(REFUSED_CLOCK)
    ensures ClockMinHz(REFUSED_CLOCK) == 2_000_003
    ensures LostToRounding(REFUSED_CHANNEL, 35_000_000, REFUSED_CLOCK)
  {
    var c, clock := REFUSED_CHANNEL, REFUSED_CLOCK;
    assert Fin(c) == 15 && Fref(c) == 1 && Value16(c.offset) == 0 && ConversionCycles(c) == 1_048_564;
    assert ScaledMin(clock) == 2_000_003_999_970 && ScaledMax(clock) == 2_000_016_000_030;
    assert ClockMinHz(clock) == 2_000_003 && ClockMaxHz(clock) == 2_000_017;
  }

  /** A whole profile that meets every requirement at every clock it admits,
      and that the driver refuses for rounding its clock to whole hertz. */
  lemma RoundingCanRefuse()
    ensures SoundAtEveryClock(REFUSED_PROFILE) && RoundingRefuses(REFUSED_PROFILE) && !Accepted(REFUSED_PROFILE)
  {
    hide ProductsHold, RoundedProductsHold, LimitsAtEveryClock, LostToRounding, Value16, Value8;
    var config := REFUSED_PROFILE;
    RefusedProducts();
    assert GlobalsAccepted(config);
    assert CountsAndSensorAccepted(config, REFUSED_CHANNEL);
    RefusedSound();
    assert Has(config.channels, 0) && config.channel[0] == REFUSED_CHANNEL;
    AcceptedExactly(config);
  }

  lemma RefusedSound()
    ensures RegistersAccepted(REFUSED_CHANNEL)
    ensures LimitsAtEveryClock(REFUSED_CHANNEL, 35_000_000, REFUSED_CLOCK)
  {
    hide ProductsHold, LimitsAtEveryClock, Value16, Value8, RoundedProductsHold;
    RefusedProducts();
    EveryClockExactly(REFUSED_CHANNEL, 35_000_000, REFUSED_CLOCK);
  }
}
