/** `estimateFrameTiming` and the exact rational frame time it must not
    under-estimate. */
module Timing {
  import opened CommandTable
  import opened Profile
  import opened DriverTypes
  import opened Validation

  const MICROS_PER_SECOND := 1_000_000
  const NANOS_PER_SECOND := 1_000_000_000
  const WAKE_DELAY_CYCLES := 16384
  const CHANNEL_SWITCH_BASE_NS := 692
  const CHANNEL_SWITCH_CYCLES := 5

  datatype FrameTiming = FrameTiming(
    wakeAndSettleUs: uint64, conversionUs: uint64, sequentialFrameUs: uint64, acquisitionTransfers: uint8)
  const NO_TIMING := FrameTiming(0, 0, 0, 0)

  ghost function SettleCycles(c: ChannelConfig): nat {
    if Value16(c.settleCount) <= 1 then 32 else Value16(c.settleCount) * 16
  }

  /** Channels the device converts in one frame. */
  function FrameChannels(config: Config, channels: ChannelMask): ChannelMask {
    if config.mode == MULTI_CHANNEL_SEQUENTIAL then config.channels else channels
  }

  // ----- exact times, in rational microseconds ------------------------------

  /** Time of `cycles` reference cycles at clock `hz` divided by `fref`. */
  ghost function CyclesUs(cycles: nat, fref: nat, hz: real): real
    requires hz > 0.0
  {
    cycles as real * 1_000_000.0 * fref as real / hz
  }

  /** Settling, conversion and nominal channel switch. */
  datatype Times = Times(settle: real, convert: real, switch: real) {
    ghost function Plus(other: Times): Times {
      Times(settle + other.settle, convert + other.convert, switch + other.switch)
    }

    ghost function Total(): real { settle + convert + switch }

    /** Every part is covered by its whole-microsecond estimate. */
    ghost predicate CoveredBy(settleUs: nat, convertUs: nat, switchUs: nat) {
      settle <= settleUs as real && convert <= convertUs as real && switch <= switchUs as real
    }

    /** No estimate is more than the roundings of `n` channels above its part:
        under a microsecond each, and a nanosecond more for the switch. */
    ghost predicate NearlyReaches(settleUs: nat, convertUs: nat, switchUs: nat, n: nat) {
      && settleUs as real <= settle + n as real && convertUs as real <= convert + n as real
      && switchUs as real <= switch + 1.001 * n as real
    }
  }

  ghost function ChannelTimes(c: ChannelConfig, hz: real): Times
    requires hz > 0.0
  {
    Times(CyclesUs(SettleCycles(c), Fref(c), hz), CyclesUs(ConversionCycles(c), Fref(c), hz),
          0.692 + CyclesUs(CHANNEL_SWITCH_CYCLES, Fref(c), hz))
  }

  /** The first `count` channels, as far as they are in `mask`. */
  ghost function FrameTimes(config: Config, mask: ChannelMask, count: nat, hz: real): Times
    requires hz > 0.0 && count <= MAX_CHANNELS
  {
    if count == 0 then
      Times(0.0, 0.0, 0.0)
    else
      FrameTimes(config, mask, count - 1, hz).Plus(
        if Has(mask, count - 1) then ChannelTimes(config.channel[count - 1], hz) else Times(0.0, 0.0, 0.0))
  }

  /** The highest clock, not above `clockMin`, that the channel's divider
      divides to whole hertz. */
  ghost function DivisibleHz(c: ChannelConfig, clockMin: nat): int {
    if Fref(c) == 0 then 0 else clockMin / Fref(c) * Fref(c)
  }

  /** Frame times at the slowest clock, each channel's rounded down to one its
      divider divides: the clock the estimate counts with. */
  ghost function SlowTimes(config: Config, mask: ChannelMask, count: nat, clockMin: nat): Times
    requires count <= MAX_CHANNELS
  {
    if count == 0 then
      Times(0.0, 0.0, 0.0)
    else
      SlowTimes(config, mask, count - 1, clockMin).Plus(
        if Has(mask, count - 1) && DivisibleHz(config.channel[count - 1], clockMin) > 0
        then ChannelTimes(config.channel[count - 1], DivisibleHz(config.channel[count - 1], clockMin) as real)
        else Times(0.0, 0.0, 0.0))
  }

  /** Oscillator start-up at the internal clock `oscillatorHz`. */
  ghost function WakeUs(oscillatorHz: real): real
    requires oscillatorHz > 0.0
  {
    16_384_000_000.0 / oscillatorHz
  }

  /** First frame after wake-up: start-up, then every converted channel at the
      reference `hz`. */
  ghost function ExactFrameUs(config: Config, channels: ChannelMask, oscillatorHz: real, hz: real): real
    requires hz > 0.0 && oscillatorHz > 0.0
  {
    WakeUs(oscillatorHz)
    + FrameTimes(config, FrameChannels(config, channels), ChannelCountFor(config.variant), hz).Total()
  }

  lemma CeilOfQuotient(work: nat, clockMin: nat, fref: nat)
    requires 0 < fref <= clockMin
    ensures clockMin / fref > 0
    ensures CeilDivide(work, clockMin / fref) * clockMin >= work * fref
  {
    var divided := clockMin / fref;
    assert divided >= 1 by { assert clockMin >= 1 * fref; }
    var q := CeilDivide(work, divided);
    assert q * divided >= work;
    assert divided * fref <= clockMin;
    ProductMonotone(divided * fref, clockMin, q);
    ProductMonotone(work, q * divided, fref);
    assert q * (divided * fref) == (q * divided) * fref;
  }

  lemma ProductMonotone(a: nat, b: nat, k: nat)
    requires a <= b
    ensures k * a <= k * b && a * k <= b * k
  {
  }

  /** Rounding the divided clock down and the quotient up never loses time. */
  lemma CeilCoversCycles(work: nat, clockMin: nat, fref: nat, hz: real)
    requires 0 < fref <= clockMin && 0.0 < clockMin as real <= hz
    ensures clockMin / fref > 0
    ensures CeilDivide(work, clockMin / fref) as real >= work as real * fref as real / hz
  {
    CeilOfQuotient(work, clockMin, fref);
    var q := CeilDivide(work, clockMin / fref);
    RealQuotient(q, work * fref, clockMin, hz);
    IntProduct(work, fref);
  }

  lemma RealQuotient(q: nat, share: nat, clockMin: nat, hz: real)
    requires q * clockMin >= share && 0.0 < clockMin as real <= hz
    ensures q as real >= share as real / hz
  {
    IntProduct(q, clockMin);
    ScaleMonotone(q as real, clockMin as real, hz);
    CrossMultiply(share as real, hz, q as real, 1.0);
  }

  // ----- the estimate -------------------------------------------------------

  lemma CeilRange(numerator: nat, denominator: nat)
    requires denominator > 0
    ensures CeilDivide(numerator, denominator) * denominator >= numerator
    ensures CeilDivide(numerator, denominator) <= numerator
  {
    var q := CeilDivide(numerator, denominator);
    assert q * denominator <= numerator + denominator - 1 < (q + 1) * denominator;
    assert (numerator + 1) * denominator == numerator * denominator + denominator;
    ProductMonotone(1, denominator, numerator);
    if q > numerator {
      ProductMonotone(numerator + 1, q, denominator);
    }
  }

  /** `ceilDivide` of the driver, with its padded numerator inside 64 bits. */
  method CeilTo64(numerator: uint64, denominator: uint64) returns (q: uint64)
    requires 0 < denominator <= INTERNAL_CLOCK_MAX_HZ && numerator <= 1_048_564_000_000
    ensures q == CeilDivide(numerator, denominator) <= numerator
  {
    CeilRange(numerator, denominator);
    var padded: uint64 := numerator + denominator - 1;
    q := padded / denominator;
  }

  lemma SettleRange(c: ChannelConfig)
    ensures 32 <= SettleCycles(c) <= 16 * 0xFFFF
  {
    hide Value16;
  }

  lemma SwitchNanoseconds(fref: nat, hz: real)
    requires hz > 0.0
    ensures 5_000_000_000 as real * fref as real / hz == 1000.0 * CyclesUs(CHANNEL_SWITCH_CYCLES, fref, hz)
  {
    var x := fref as real / hz;
    assert 5_000_000_000.0 * fref as real / hz == 5_000_000_000.0 * x;
    assert 5.0 * 1_000_000.0 * fref as real / hz == 5_000_000.0 * x;
  }

  lemma CyclesCovered(cycles: nat, us: nat, clockMin: nat, fref: nat, hz: real)
    requires 0 < fref <= clockMin && 0.0 < clockMin as real <= hz
    requires clockMin / fref > 0 && us == CeilDivide(cycles * MICROS_PER_SECOND, clockMin / fref)
    ensures us as real >= CyclesUs(cycles, fref, hz)
  {
    CeilCoversCycles(cycles * MICROS_PER_SECOND, clockMin, fref, hz);
    IntProduct(cycles, MICROS_PER_SECOND);
  }

  lemma SwitchCovered(cycleNs: nat, switchUs: nat, clockMin: nat, fref: nat, hz: real)
    requires 0 < fref <= clockMin && 0.0 < clockMin as real <= hz
    requires clockMin / fref > 0 && cycleNs == CeilDivide(CHANNEL_SWITCH_CYCLES * NANOS_PER_SECOND, clockMin / fref)
    requires switchUs == CeilDivide(CHANNEL_SWITCH_BASE_NS + cycleNs, 1000)
    ensures switchUs as real >= 0.692 + CyclesUs(CHANNEL_SWITCH_CYCLES, fref, hz)
  {
    CeilCoversCycles(5_000_000_000, clockMin, fref, hz);
    SwitchNanoseconds(fref, hz);
    CeilRange(CHANNEL_SWITCH_BASE_NS + cycleNs, 1000);
  }

  /** Integer estimate of one channel: settle, conversion and switch. */
  method ChannelEstimate(c: ChannelConfig, clockMin: uint64) returns (settleUs: nat, convertUs: nat, switchUs: nat)
    requires RegistersAccepted(c) && 1023 <= clockMin <= INTERNAL_CLOCK_MAX_HZ
    ensures settleUs <= 1_048_564_000_000 && convertUs <= 1_048_564_000_000 && switchUs <= 1_048_564_000_000
    ensures forall hz: real :: clockMin as real <= hz ==>
      hz > 0.0 && ChannelTimes(c, hz).CoveredBy(settleUs, convertUs, switchUs)
    ensures 0 < DivisibleHz(c, clockMin) <= clockMin < DivisibleHz(c, clockMin) + Fref(c)
    ensures ChannelTimes(c, DivisibleHz(c, clockMin) as real).NearlyReaches(settleUs, convertUs, switchUs, 1)
  {
    hide Value8, Value16, ConversionCycles, SettleCycles, CeilDivide, CyclesUs, RegistersAccepted, DivisibleHz;
    DividerRanges(c);
    SettleRange(c);
    var fref: uint64 := clockMin / Fref(c);
    CeilOfQuotient(0, clockMin, Fref(c));
    assert fref != 0;
    ProductMonotone(1, Fref(c), clockMin / Fref(c));
    var settleCycles := SettleCount(c);
    var conversionCycles := ConversionCount(c);
    settleUs := CeilTo64(settleCycles * MICROS_PER_SECOND, fref);
    convertUs := CeilTo64(conversionCycles * MICROS_PER_SECOND, fref);
    var cycleNs := CeilTo64(CHANNEL_SWITCH_CYCLES * NANOS_PER_SECOND, fref);
    var switchNs: uint64 := CHANNEL_SWITCH_BASE_NS + cycleNs;
    switchUs := CeilTo64(switchNs, 1000);
    forall hz: real | clockMin as real <= hz
      ensures hz > 0.0 && ChannelTimes(c, hz).CoveredBy(settleUs, convertUs, switchUs)
    {
      CyclesCovered(SettleCycles(c), settleUs, clockMin, Fref(c), hz);
      CyclesCovered(ConversionCycles(c), convertUs, clockMin, Fref(c), hz);
      SwitchCovered(cycleNs, switchUs, clockMin, Fref(c), hz);
    }
    ChannelReached(c, clockMin, settleUs, convertUs, cycleNs, switchUs);
  }

  method SettleCount(c: ChannelConfig) returns (cycles: nat)
    ensures cycles == SettleCycles(c)
  {
    hide Value16;
    cycles := if Value16(c.settleCount) <= 1 then 32 else Value16(c.settleCount) * 16;
  }

  method ConversionCount(c: ChannelConfig) returns (cycles: nat)
    ensures cycles == ConversionCycles(c)
  {
    hide Value16;
    cycles := Value16(c.rcount) * 16 + 4;
  }

  /** A quotient rounded up is less than one above the exact one. */
  lemma CeilNearlyExact(work: nat, divided: nat)
    requires divided > 0
    ensures CeilDivide(work, divided) as real <= work as real / divided as real + 1.0
  {
    var q := CeilDivide(work, divided);
    assert q * divided <= work + divided - 1;
    IntProduct(q, divided);
    CrossMultiply(q as real, 1.0, work as real + divided as real, divided as real);
    AddOne(work as real, divided as real);
  }

  lemma AddOne(a: real, d: real)
    requires d > 0.0
    ensures (a + d) / d == a / d + 1.0
  {
    var x := a / d;
    assert x * d == a;
    assert (x + 1.0) * d == x * d + d;
    CrossEqual(a + d, d, x + 1.0, 1.0);
  }

  lemma CyclesAtDivided(cycles: nat, divided: nat, fref: nat)
    requires divided > 0 && fref > 0
    ensures (divided * fref) as real > 0.0
    ensures CyclesUs(cycles, fref, (divided * fref) as real) == (cycles * MICROS_PER_SECOND) as real / divided as real
  {
    IntProduct(divided, fref);
    IntProduct(cycles, MICROS_PER_SECOND);
    var n, d, f := cycles as real * 1_000_000.0, divided as real, fref as real;
    CrossEqual(n * f, d * f, n, d);
    assert n * f * d == n * (d * f);
  }

  lemma CrossEqual(a: real, b: real, c: real, d: real)
    requires b > 0.0 && d > 0.0 && a * d == c * b
    ensures a / b == c / d
  {
    CrossMultiply(a, b, c, d);
    CrossMultiply(c, d, a, b);
  }

  lemma ChannelReached(c: ChannelConfig, clockMin: nat, settleUs: nat, convertUs: nat, cycleNs: nat, switchUs: nat)
    requires RegistersAccepted(c) && 1 <= Fref(c) <= clockMin && clockMin / Fref(c) > 0
    requires settleUs == CeilDivide(SettleCycles(c) * MICROS_PER_SECOND, clockMin / Fref(c))
    requires convertUs == CeilDivide(ConversionCycles(c) * MICROS_PER_SECOND, clockMin / Fref(c))
    requires cycleNs == CeilDivide(CHANNEL_SWITCH_CYCLES * NANOS_PER_SECOND, clockMin / Fref(c))
    requires switchUs == CeilDivide(CHANNEL_SWITCH_BASE_NS + cycleNs, 1000)
    ensures 0 < DivisibleHz(c, clockMin) <= clockMin < DivisibleHz(c, clockMin) + Fref(c)
    ensures ChannelTimes(c, DivisibleHz(c, clockMin) as real).NearlyReaches(settleUs, convertUs, switchUs, 1)
  {
    hide Value8, Value16, ConversionCycles, SettleCycles, CeilDivide, CyclesUs, RegistersAccepted, Fref;
    var divided := clockMin / Fref(c);
    ScalePositive(divided, Fref(c));
    CyclesAtDivided(SettleCycles(c), divided, Fref(c));
    CyclesAtDivided(ConversionCycles(c), divided, Fref(c));
    CyclesAtDivided(CHANNEL_SWITCH_CYCLES, divided, Fref(c));
    CeilNearlyExact(SettleCycles(c) * MICROS_PER_SECOND, divided);
    CeilNearlyExact(ConversionCycles(c) * MICROS_PER_SECOND, divided);
    CeilNearlyExact(CHANNEL_SWITCH_CYCLES * NANOS_PER_SECOND, divided);
    CeilNearlyExact(CHANNEL_SWITCH_BASE_NS + cycleNs, 1000);
    assert 5_000_000_000.0 / divided as real == 1000.0 * (5_000_000.0 / divided as real);
  }

  /** The estimate is an upper bound, part by part and in all. */
  ghost predicate Covers(timing: FrameTiming, config: Config, channels: ChannelMask, oscillatorHz: real, hz: real)
    requires hz > 0.0 && oscillatorHz > 0.0
  {
    var exact := FrameTimes(config, FrameChannels(config, channels), ChannelCountFor(config.variant), hz);
    && timing.wakeAndSettleUs as real >= WakeUs(oscillatorHz) + exact.settle
    && timing.conversionUs as real >= exact.convert
    && timing.sequentialFrameUs as real >= ExactFrameUs(config, channels, oscillatorHz, hz)
  }

  /** It is at every pair of internal and reference clocks. */
  ghost predicate CoversEveryClock(config: Config, channels: ChannelMask, timing: FrameTiming) {
    forall oscillatorHz: real, hz: real ::
      35_000_000.0 <= oscillatorHz <= 55_000_000.0 && ClockWithin(config.referenceClock, hz) && hz > 0.0
      ==> Covers(timing, config, channels, oscillatorHz, hz)
  }

  /** Nor is it far above: at the slowest oscillator and each channel's slow
      clock it exceeds the exact times by the roundings only. */
  ghost predicate NearExact(config: Config, channels: ChannelMask, timing: FrameTiming)
    requires config.referenceClock.tolerancePpm <= MAX_TOLERANCE_PPM
  {
    var n := ChannelCountFor(config.variant);
    var slow := SlowTimes(config, FrameChannels(config, channels), n, ClockMinHz(config.referenceClock));
    && timing.wakeAndSettleUs as real <= WakeUs(35_000_000.0) + slow.settle + (n + 1) as real
    && timing.conversionUs as real <= slow.convert + n as real
    && timing.sequentialFrameUs as real <= WakeUs(35_000_000.0) + slow.Total() + 3.001 * n as real + 1.0
  }

  lemma WakeReached()
    ensures CeilDivide(WAKE_DELAY_CYCLES * MICROS_PER_SECOND, INTERNAL_CLOCK_MIN_HZ) as real
      <= WakeUs(35_000_000.0) + 1.0
  {
    CeilNearlyExact(WAKE_DELAY_CYCLES * MICROS_PER_SECOND, INTERNAL_CLOCK_MIN_HZ);
  }

  lemma WakeCovered(oscillatorHz: real)
    requires 35_000_000.0 <= oscillatorHz
    ensures CeilDivide(WAKE_DELAY_CYCLES * MICROS_PER_SECOND, INTERNAL_CLOCK_MIN_HZ) as real
      >= WakeUs(oscillatorHz)
  {
    CeilCoversCycles(16_384_000_000, INTERNAL_CLOCK_MIN_HZ, 1, oscillatorHz);
  }

  /** `estimateFrameTiming`: for every accepted profile and legal mask the
      64-bit estimates bound the exact wake-up and settling time, conversion
      time and first-frame time at every clock, lie above them by roundings
      only, and the transfer count is the one `startAcquire` admits. */
  method EstimateFrameTiming(config: Config, channels: ChannelMask) returns (status: Err, timing: FrameTiming)
    ensures status == OK <==> Accepted(config) && channels != 0 && channels & !config.channels == 0
    ensures status != OK ==> timing == NO_TIMING
    ensures status == OK ==> CoversEveryClock(config, channels, timing)
    ensures status == OK ==>
      config.referenceClock.tolerancePpm <= MAX_TOLERANCE_PPM && NearExact(config, channels, timing)
    ensures status == OK ==> timing.acquisitionTransfers == 2 + 2 * |Selected(channels)|
  {
    hide Value8, Value16, ChannelAccepted, GlobalsAccepted, ChannelTimes, WakeUs;
    timing := NO_TIMING;
    status := ValidateConfig(config);
    if status != OK {
      return;
    }
    if channels == 0 || channels & !config.channels != 0 {
      return INVALID_PARAM, timing;
    }
    ConfigClockBounds(config);
    var clockMin, clockMax := ReferenceClockBounds(config.referenceClock);
    var wakeUs := CeilTo64(WAKE_DELAY_CYCLES * MICROS_PER_SECOND, INTERNAL_CLOCK_MIN_HZ);
    var settleUs, conversionUs, switchUs := AccumulateChannels(config, FrameChannels(config, channels), clockMin);
    var popcount := Popcount(channels);
    MaskWithinProfile(config, channels);
    WakeReached();
    timing := FrameTiming(wakeUs + settleUs, conversionUs, wakeUs + settleUs + conversionUs + switchUs,
                          2 + 2 * popcount);
    forall oscillatorHz: real, hz: real
      | 35_000_000.0 <= oscillatorHz <= 55_000_000.0 && ClockWithin(config.referenceClock, hz) && hz > 0.0
      ensures Covers(timing, config, channels, oscillatorHz, hz)
    {
      WakeCovered(oscillatorHz);
      BoundsEncloseClock(config.referenceClock, hz);
    }
  }

  lemma MaskWithinProfile(config: Config, channels: ChannelMask)
    requires Accepted(config) && channels & !config.channels == 0
    ensures channels & !0x0F == 0
  {
    assert config.channels & !ValidChannelMask(config.variant) == 0;
    assert config.channels & !0x0F == 0;
  }

  /** The sums over the first `count` channels cover their exact times at
      every clock from `clockMin` on. */
  ghost predicate SumsCover(config: Config, mask: ChannelMask, count: nat, clockMin: nat, settleUs: nat,
                            conversionUs: nat, switchUs: nat)
    requires count <= MAX_CHANNELS && clockMin > 0
  {
    forall hz: real :: clockMin as real <= hz ==>
      FrameTimes(config, mask, count, hz).CoveredBy(settleUs, conversionUs, switchUs)
  }

  lemma SumsExtend(config: Config, mask: ChannelMask, count: nat, clockMin: nat, settleUs: nat, conversionUs: nat,
                   switchUs: nat, settle: nat, convert: nat, switch: nat)
    requires count < MAX_CHANNELS && clockMin > 0
    requires SumsCover(config, mask, count, clockMin, settleUs, conversionUs, switchUs)
    requires Has(mask, count) ==> forall hz: real :: clockMin as real <= hz ==>
      hz > 0.0 && ChannelTimes(config.channel[count], hz).CoveredBy(settle, convert, switch)
    ensures SumsCover(config, mask, count + 1, clockMin, settleUs + settle, conversionUs + convert, switchUs + switch)
  {
    hide ChannelTimes, Has;
    var next := count + 1;
    forall hz: real | clockMin as real <= hz
      ensures FrameTimes(config, mask, next, hz)
        .CoveredBy(settleUs + settle, conversionUs + convert, switchUs + switch)
    {
      assert FrameTimes(config, mask, count, hz).CoveredBy(settleUs, conversionUs, switchUs);
    }
  }

  /** What a channel adds to the sums: its estimate if it is converted. */
  method ChannelShare(config: Config, mask: ChannelMask, index: nat, clockMin: uint64)
    returns (settle: nat, convert: nat, switch: nat)
    requires Accepted(config) && 1023 <= clockMin <= INTERNAL_CLOCK_MAX_HZ && index < ChannelCountFor(config.variant)
    ensures settle <= 1_048_564_000_000 && convert <= 1_048_564_000_000 && switch <= 1_048_564_000_000
    ensures Has(mask, index) ==> forall hz: real :: clockMin as real <= hz ==>
      hz > 0.0 && ChannelTimes(config.channel[index], hz).CoveredBy(settle, convert, switch)
    ensures if Has(mask, index) then
        && DivisibleHz(config.channel[index], clockMin) > 0
        && ChannelTimes(config.channel[index], DivisibleHz(config.channel[index], clockMin) as real)
             .NearlyReaches(settle, convert, switch, 1)
      else settle == 0 && convert == 0 && switch == 0
  {
    hide Value8, Value16, GlobalsAccepted, ChannelTimes, LimitsHold, DivisibleHz;
    settle, convert, switch := 0, 0, 0;
    if Has(mask, index) {
      assert ChannelAccepted(config, index);
      settle, convert, switch := ChannelEstimate(config.channel[index], clockMin);
    }
  }

  method AccumulateChannels(config: Config, mask: ChannelMask, clockMin: uint64)
    returns (settleUs: nat, conversionUs: nat, switchUs: nat)
    requires Accepted(config) && 1023 <= clockMin <= INTERNAL_CLOCK_MAX_HZ
    ensures settleUs <= 4 * 1_048_564_000_000 && conversionUs <= 4 * 1_048_564_000_000
    ensures switchUs <= 4 * 1_048_564_000_000
    ensures SumsCover(config, mask, ChannelCountFor(config.variant), clockMin, settleUs, conversionUs, switchUs)
    ensures SlowTimes(config, mask, ChannelCountFor(config.variant), clockMin)
      .NearlyReaches(settleUs, conversionUs, switchUs, ChannelCountFor(config.variant))
  {
    hide Accepted, ChannelTimes, SumsCover, DivisibleHz, Has, SlowTimes;
    assert ChannelCountFor(config.variant) <= MAX_CHANNELS;
    settleUs, conversionUs, switchUs := 0, 0, 0;
    var index := 0;
    NothingCovered(config, mask, clockMin);
    while index < ChannelCountFor(config.variant)
      invariant 0 <= index <= ChannelCountFor(config.variant)
      invariant settleUs <= index * 1_048_564_000_000 && conversionUs <= index * 1_048_564_000_000
      invariant switchUs <= index * 1_048_564_000_000
      invariant SumsCover(config, mask, index, clockMin, settleUs, conversionUs, switchUs)
      invariant SlowTimes(config, mask, index, clockMin).NearlyReaches(settleUs, conversionUs, switchUs, index)
    {
      var settle, convert, switch := ChannelShare(config, mask, index, clockMin);
      SumsExtend(config, mask, index, clockMin, settleUs, conversionUs, switchUs, settle, convert, switch);
      SlowExtend(config, mask, index, clockMin, settleUs, conversionUs, switchUs, settle, convert, switch);
      settleUs, conversionUs, switchUs := settleUs + settle, conversionUs + convert, switchUs + switch;
      index := index + 1;
    }
  }

  lemma SlowExtend(config: Config, mask: ChannelMask, count: nat, clockMin: nat, settleUs: nat, conversionUs: nat,
                   switchUs: nat, settle: nat, convert: nat, switch: nat)
    requires count < MAX_CHANNELS
    requires SlowTimes(config, mask, count, clockMin).NearlyReaches(settleUs, conversionUs, switchUs, count)
    requires if Has(mask, count) then
        && DivisibleHz(config.channel[count], clockMin) > 0
        && ChannelTimes(config.channel[count], DivisibleHz(config.channel[count], clockMin) as real)
             .NearlyReaches(settle, convert, switch, 1)
      else settle == 0 && convert == 0 && switch == 0
    ensures SlowTimes(config, mask, count + 1, clockMin)
      .NearlyReaches(settleUs + settle, conversionUs + convert, switchUs + switch, count + 1)
  {
    hide ChannelTimes, Has, DivisibleHz;
  }

  lemma NothingCovered(config: Config, mask: ChannelMask, clockMin: nat)
    requires clockMin > 0
    ensures SumsCover(config, mask, 0, clockMin, 0, 0, 0)
    ensures SlowTimes(config, mask, 0, clockMin).NearlyReaches(0, 0, 0, 0)
  {
  }
}
