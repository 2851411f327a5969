/** What an accepted profile is, in numbers: every demand of validation with its
    own bounds, and what the four frequency limits come to. */
module Acceptance {
  import opened Profile
  import opened Validation

  /** The clock, with its tolerance, stays inside the range of its source. */
  predicate ClockListed(clock: ReferenceClock) {
    var f, t := clock.frequencyHz, clock.tolerancePpm;
    && t < 1_000_000
    && match clock.source
       case INTERNAL => 35_000_000 <= f <= 55_000_000
       case EXTERNAL_CLOCK => 2_000_000_000_000 <= f * (1_000_000 - t) && f * (1_000_000 + t) <= 40_000_000_000_000
       case CLOCK_UNSPECIFIED => false
  }

  predicate ModeListed(config: Config) {
    match config.mode
    case SINGLE_CHANNEL =>
      && config.rrSequence == SEQUENCE_UNSPECIFIED
      && (|| (config.activeChannel == 0 && config.channels == 1) || (config.activeChannel == 1 && config.channels == 2)
          || (config.activeChannel == 2 && config.channels == 4) || (config.activeChannel == 3 && config.channels == 8))
    case MULTI_CHANNEL_SEQUENTIAL =>
      && config.activeChannel == 0xFF
      && (|| (config.rrSequence == CH0_CH1 && config.channels == 3)
          || (config.rrSequence == CH0_CH1_CH2 && config.channels == 7)
          || (config.rrSequence == CH0_CH1_CH2_CH3 && config.channels == 15))
    case MODE_UNSPECIFIED => false
  }

  /** Some channels, and only channels of the part. */
  predicate MaskListed(config: Config) {
    match config.variant
    case LDC1612 => 0 < config.channels <= 3
    case LDC1614 => 0 < config.channels <= 15
    case VARIANT_UNSPECIFIED => false
  }

  predicate GlobalsListed(config: Config) {
    && config.hasI2cWrite && config.hasI2cWriteRead && config.i2cTimeoutMs > 0
    && (config.i2cAddress == ADDR_GND || config.i2cAddress == ADDR_VDD)
    && MaskListed(config)
    && config.deglitch in {BW_1MHZ, BW_3MHZ, BW_10MHZ, BW_33MHZ}
    && ClockListed(config.referenceClock) && ModeListed(config)
    && (config.highCurrentDriveEnabled ==> config.mode == SINGLE_CHANNEL && config.channels == 1)
  }

  /** Every channel of the part carries a legal register profile. */
  predicate FieldsListed(c: ChannelConfig) {
    c.rcount >= 5 && 1 <= c.finDivider <= 15 && 1 <= c.frefDivider <= 1023 && c.driveCurrentCode <= 31
  }

  /** A selected one also converts long enough for a known sensor. */
  predicate SensorListed(config: Config, c: ChannelConfig) {
    && c.rcount >= 9 && c.settleCount >= 4
    && 1_000 <= c.expectedSensorMinHz <= c.expectedSensorMaxHz <= 10_000_000
    && c.expectedSensorMaxHz < (match config.deglitch
                                case BW_1MHZ => 1_000_000 case BW_3MHZ => 3_300_000 case BW_10MHZ => 10_000_000
                                case BW_33MHZ => 33_000_000 case DEGLITCH_UNSPECIFIED => 0)
    && (c.expectedSensorMaxHz >= 8_750_000 ==> c.finDivider != 1)
  }

  lemma ExternalClock(f: nat, t: nat)
    requires t < 1_000_000
    ensures f * (1_000_000 - t) / 1_000_000 >= 2_000_000 <==> 2_000_000_000_000 <= f * (1_000_000 - t)
    ensures CeilDivide(f * (1_000_000 + t), 1_000_000) <= 40_000_000 <==> f * (1_000_000 + t) <= 40_000_000_000_000
    ensures 2_000_000_000_000 <= f * (1_000_000 - t) ==> 2_000_000 <= f
    ensures f * (1_000_000 + t) <= 40_000_000_000_000 ==> f <= 40_000_000
  {
    var low, high := f * (1_000_000 - t), f * (1_000_000 + t);
    assert low <= f * 1_000_000 <= high;
  }

  lemma ClockIsListed(clock: ReferenceClock)
    ensures ClockAccepted(clock) <==> ClockListed(clock)
  {
    if clock.tolerancePpm < 1_000_000 {
      ExternalClock(clock.frequencyHz, clock.tolerancePpm);
    }
  }

  lemma ModeIsListed(config: Config)
    ensures ModeAccepted(config) && config.channels != 0 <==> ModeListed(config)
  {
  }

  lemma MaskIsListed(config: Config)
    ensures config.channels & !ValidChannelMask(config.variant) == 0 && config.channels != 0 <==> MaskListed(config)
  {
  }

  lemma GlobalsAreListed(config: Config)
    ensures GlobalsAccepted(config) <==> GlobalsListed(config)
  {
    hide ClockAccepted, ClockListed, ModeAccepted, ModeListed, ValidChannelMask;
    ClockIsListed(config.referenceClock);
    ModeIsListed(config);
    MaskIsListed(config);
    SingleChannelZero(config);
  }

  lemma SingleChannelZero(config: Config)
    ensures ModeListed(config) && config.mode == SINGLE_CHANNEL ==>
      (config.activeChannel == 0 <==> config.channels == 1)
  {
  }

  ghost predicate LimitsAccepted(config: Config, c: ChannelConfig)
    requires FieldsListed(c) && ClockListed(config.referenceClock)
  {
    ClockIsListed(config.referenceClock);
    ClockBounds(config.referenceClock);
    LimitsHold(c, FrefLimitHz(config), ClockMinHz(config.referenceClock) as real,
               ClockMaxHz(config.referenceClock) as real)
  }

  ghost predicate ChannelListed(config: Config, i: int)
    requires 0 <= i < 4 && ClockListed(config.referenceClock)
  {
    && FieldsListed(config.channel[i])
    && (Has(config.channels, i) ==>
         SensorListed(config, config.channel[i]) && LimitsAccepted(config, config.channel[i]))
  }

  lemma ChannelIsListed(config: Config, i: int)
    requires GlobalsAccepted(config) && GlobalsListed(config) && 0 <= i < 4
    ensures ChannelAccepted(config, i) <==> ChannelListed(config, i)
  {
    hide LimitsHold, ClockAccepted, ClockListed, ModeAccepted, ModeListed;
  }

  /** The listed numbers and the four limits are all there is to acceptance. */
  lemma AcceptedIsListed(config: Config)
    ensures Accepted(config) <==>
      GlobalsListed(config) && forall i :: 0 <= i < ChannelCountFor(config.variant) ==> ChannelListed(config, i)
  {
    hide ChannelAccepted, ChannelListed, ModeListed, ModeAccepted, ClockAccepted, ClockListed, GlobalsAccepted;
    GlobalsAreListed(config);
    if GlobalsAccepted(config) {
      forall i | 0 <= i < ChannelCountFor(config.variant)
        ensures ChannelAccepted(config, i) <==> ChannelListed(config, i)
      {
        ChannelIsListed(config, i);
      }
    }
  }

  ghost function LimitListed(config: Config): real {
    if config.mode == SINGLE_CHANNEL then 35_000_000.0
    else if config.referenceClock.source == EXTERNAL_CLOCK then 40_000_000.0
    else 55_000_000.0
  }

  lemma LimitIsListed(config: Config)
    ensures FrefLimitHz(config) as real == LimitListed(config)
  {
  }

  lemma CyclesListed(c: ChannelConfig)
    ensures ConversionCycles(c) == Value16(c.rcount) * 16 + 4
  {
    hide Value16;
  }

  /** At the clock `hz` the channel's divided reference stays within the limit,
      a conversion lasts a sensor period, OFFSET stays below the sensor, and the
      sensor below a quarter of the reference. */
  ghost predicate Sound(fin: real, fref: real, cycles: real, offset: real, minHz: real, maxHz: real, limit: real,
                        hz: real) {
    && fin >= 1.0 && fref >= 1.0 && hz > 0.0
    && hz <= fref * limit
    && hz * fin <= cycles * minHz * fref
    && offset * hz * fin < 65536.0 * minHz * fref
    && 4.0 * maxHz * fref < hz * fin
  }

  ghost predicate SoundAt(c: ChannelConfig, limit: real, hz: real) {
    Sound(Value8(c.finDivider) as real, Value16(c.frefDivider) as real, (Value16(c.rcount) * 16 + 4) as real,
          Value16(c.offset) as real, c.expectedSensorMinHz as real, c.expectedSensorMaxHz as real, limit, hz)
  }

  lemma QuotientsSound(fin: real, fref: real, cycles: real, offset: real, minHz: real, maxHz: real, limit: real,
                       hz: real)
    requires fin >= 1.0 && fref >= 1.0 && hz > 0.0 && hz / fref <= limit && hz / fref <= cycles * (minHz / fin)
    requires offset / 65536.0 * (hz / fref) < minHz / fin && maxHz / fin < hz / fref / 4.0
    ensures Sound(fin, fref, cycles, offset, minHz, maxHz, limit, hz)
  {
    Scaled(hz, fref, limit);
    Windowed(hz, fref, fin, cycles, minHz);
    Masked(hz, fref, fin, offset, minHz);
    Quartered(hz, fref, fin, maxHz);
  }

  /** A selected channel of an accepted profile is sound at every clock the
      profile admits. */
  lemma AcceptedMeans(config: Config, i: int, hz: real)
    requires Accepted(config) && 0 <= i < ChannelCountFor(config.variant) && Has(config.channels, i)
    requires ClockWithin(config.referenceClock, hz)
    ensures SoundAt(config.channel[i], LimitListed(config), hz)
  {
    hide Accepted, ClockWithin, LimitsHold, FrefLimitHz, LimitListed, RegistersAccepted, SoundAt;
    AcceptedAtEveryClock(config, i, hz);
    LimitIsListed(config);
    LimitsMultiplied(config.channel[i], FrefLimitHz(config), hz);
  }

  lemma LimitsMultiplied(c: ChannelConfig, limit: nat, hz: real)
    requires RegistersAccepted(c) && hz > 0.0 && LimitsHold(c, limit, hz, hz)
    ensures SoundAt(c, limit as real, hz)
  {
    hide Value8, Value16, ConversionCycles, RegistersAccepted, Sound;
    DividerRanges(c);
    CyclesListed(c);
    QuotientsSound(Fin(c) as real, Fref(c) as real, ConversionCycles(c) as real, Value16(c.offset) as real,
                   c.expectedSensorMinHz as real, c.expectedSensorMaxHz as real, limit as real, hz);
  }

  lemma Scaled(hz: real, fref: real, limit: real)
    requires fref > 0.0 && hz / fref <= limit
    ensures hz <= fref * limit
  {
    CrossMultiply(hz, fref, limit, 1.0);
  }

  lemma Windowed(hz: real, fref: real, fin: real, cycles: real, minHz: real)
    requires fref > 0.0 && fin > 0.0 && hz / fref <= cycles * (minHz / fin)
    ensures hz * fin <= cycles * minHz * fref
  {
    var x, y := hz / fref, minHz / fin;
    assert hz == x * fref && minHz == y * fin;
    ScaleMonotone(fref * fin, x, cycles * y);
    assert hz * fin == fref * fin * x && cycles * minHz * fref == fref * fin * (cycles * y);
  }

  lemma Masked(hz: real, fref: real, fin: real, offset: real, minHz: real)
    requires fref > 0.0 && fin > 0.0 && offset / 65536.0 * (hz / fref) < minHz / fin
    ensures offset * hz * fin < 65536.0 * minHz * fref
  {
    var x, y, o := hz / fref, minHz / fin, offset / 65536.0;
    assert hz == x * fref && minHz == y * fin && offset == 65536.0 * o;
    ScaleStrict(65536.0 * fref * fin, o * x, y);
    assert offset * hz * fin == 65536.0 * fref * fin * (o * x);
    assert 65536.0 * minHz * fref == 65536.0 * fref * fin * y;
  }

  lemma Quartered(hz: real, fref: real, fin: real, maxHz: real)
    requires fref > 0.0 && fin > 0.0 && maxHz / fin < hz / fref / 4.0
    ensures 4.0 * maxHz * fref < hz * fin
  {
    var x, y := hz / fref, maxHz / fin;
    assert hz == x * fref && maxHz == y * fin;
    ScaleStrict(4.0 * fref * fin, y, x / 4.0);
    assert 4.0 * maxHz * fref == 4.0 * fref * fin * y && hz * fin == 4.0 * fref * fin * (x / 4.0);
  }

  lemma ScaleStrict(k: real, a: real, b: real)
    requires k > 0.0 && a < b
    ensures k * a < k * b
  {
    assert k * (b - a) > 0.0;
  }
}
