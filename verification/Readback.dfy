/** `expectedConfigurationRegister`: the read-back comparison is right for
    every device the driver trusts, and passing it on every register pins down
    the whole register-visible profile. */
module Readback {
  import opened CommandTable
  import opened Profile
  import opened DriverTypes
  import opened Registers
  import opened RegisterMap
  import opened Validation
  import opened Chip
  import opened Machine
  import opened Engine
  import opened Runs

  /** `step` of the replay writes `register`. */
  predicate WritesAt(config: Config, step: int, register: int) {
    && 0 <= step < ConfigurationTransferCount(ChannelCountFor(config.variant))
    && ConfigWriteAt(config, ChannelCountFor(config.variant), step).value.register == register
  }

  ghost predicate InProfile(config: Config, register: int) {
    exists step :: WritesAt(config, step, register)
  }

  lemma WriterUnique(config: Config, a: int, b: int, register: int)
    requires WritesAt(config, a, register) && WritesAt(config, b, register)
    ensures a == b
  {
    hide ConfigWriteAt, StepOf;
    ReplayRegistersDistinct(config, ChannelCountFor(config.variant), a);
    ReplayRegistersDistinct(config, ChannelCountFor(config.variant), b);
  }

  method ExpectedConfigurationRegister(config: Config, register: uint8)
    returns (status: Err, expected: bv16, mask: bv16)
    ensures status == INVALID_CONFIG <==> !Accepted(config)
    ensures status == OK <==> Accepted(config) && InProfile(config, register)
    ensures status == OK || status == INVALID_CONFIG || status == INVALID_PARAM
    ensures status != OK ==> expected == 0 && mask == 0
    ensures status == OK ==> mask == ConfigurationComparisonMask(register)
    ensures status == OK ==> forall step :: WritesAt(config, step, register) ==>
      expected == ConfigWriteAt(config, ChannelCountFor(config.variant), step).value.value
    ensures status == OK ==> WordShows(config, register, expected, true)
    ensures status == OK ==> mask == (if register == 0x1A then 0xDFFF else if register >= 0x1E then 0xF83F else 0xFFFF)
  {
    hide Accepted, ConfigurationComparisonMask, ChannelWrite, BuildConfigRegister, BuildMuxConfigRegister,
      EncodeErrorReporting, ConfigWriteAt;
    expected, mask := 0, 0;
    status := ValidateConfig(config);
    if status != OK {
      return;
    }
    var channelCount := ChannelCountFor(config.variant);
    var transferCount := ConfigurationTransferCount(channelCount);
    var step := 0;
    while step < transferCount
      invariant 0 <= step <= transferCount
      invariant forall k :: 0 <= k < step ==> !WritesAt(config, k, register)
    {
      StepExists(config, step);
      var write := ConfigWriteAt(config, channelCount, step);
      if write.Some? && write.value.register == register {
        assert WritesAt(config, step, register);
        forall k | WritesAt(config, k, register)
          ensures k == step
        {
          WriterUnique(config, k, step, register);
        }
        MasksByAddress(config, step);
        AcceptedEncodable(config);
        StepShows(config, step);
        return OK, write.value.value, ConfigurationComparisonMask(register);
      }
      step := step + 1;
    }
    status := INVALID_PARAM;
  }

  /** Only the sleep bit, and the bits the part writes itself, are left out of
      the comparison. */
  lemma MasksByAddress(config: Config, step: nat)
    requires step < ConfigurationTransferCount(ChannelCountFor(config.variant))
    ensures ConfigWriteAt(config, ChannelCountFor(config.variant), step).Some?
    ensures var register := ConfigWriteAt(config, ChannelCountFor(config.variant), step).value.register;
      ConfigurationComparisonMask(register)
        == if register == 0x1A then 0xDFFF else if register >= 0x1E then 0xF83F else 0xFFFF
  {
    hide ConfigWriteAt, ConfigurationComparisonMask;
    StepInMap(config, step);
    MapMask(ChannelCountFor(config.variant),
            ConfigWriteAt(config, ChannelCountFor(config.variant), step).value.register);
  }

  lemma MapMask(n: int, register: int)
    requires n <= MAX_CHANNELS && InMap(n, register)
    ensures ConfigurationComparisonMask(register)
      == if register == 0x1A then 0xDFFF else if register >= 0x1E then 0xF83F else 0xFFFF
  {
  }

  lemma StepExists(config: Config, step: nat)
    requires step < ConfigurationTransferCount(ChannelCountFor(config.variant))
    ensures ConfigWriteAt(config, ChannelCountFor(config.variant), step).Some?
  {
    hide ChannelWrite, BuildConfigRegister, BuildMuxConfigRegister, EncodeErrorReporting;
  }

  /** The driver's answer as a function of the step that writes the register. */
  predicate Matches(config: Config, step: int, word: bv16)
    requires 0 <= step < ConfigurationTransferCount(ChannelCountFor(config.variant))
  {
    StepExists(config, step);
    var write := ConfigWriteAt(config, ChannelCountFor(config.variant), step).value;
    EqualUnder(ConfigurationComparisonMask(write.register), word, write.value)
  }

  lemma MaskIgnoresSleep(config: Config, sleeping: bool)
    ensures EqualUnder(ConfigurationComparisonMask(REG_CONFIG), BuildConfigRegister(config, sleeping),
                       BuildConfigRegister(config, true))
  {
  }

  /** What a trusted device holds, asleep or awake, passes the comparison on
      every register of the profile. */
  lemma TrustedDeviceMatches(regs: RegisterFile, config: Config, sleeping: bool, step: nat)
    requires HoldsReplay(regs, config, sleeping)
    requires step < ConfigurationTransferCount(ChannelCountFor(config.variant))
    ensures var write := ConfigWriteAt(config, ChannelCountFor(config.variant), step).value;
      0 <= write.register < REGISTER_COUNT && Matches(config, step, regs[write.register])
  {
    hide BuildConfigRegister, ChannelWrite, BuildMuxConfigRegister, EncodeErrorReporting, ConfigurationComparisonMask;
    MaskIgnoresSleep(config, sleeping);
    StepExists(config, step);
    assert 0 <= step < ConfigurationTransferCount(ChannelCountFor(config.variant));
  }

  // ----- the comparison identifies the profile ------------------------------

  /** Two CONFIG words that differ in the sleep bit only. */
  predicate SleepPair(awake: bv16, asleep: bv16) {
    asleep & MASK_CFG_SLEEP_MODE_EN != 0 && asleep & !MASK_CFG_SLEEP_MODE_EN == awake
  }

  predicate EqualUnder(mask: bv16, held: bv16, want: bv16) { held & mask == want & mask }

  lemma SleepWords(awakeA: bv16, asleepA: bv16, awakeB: bv16, asleepB: bv16, held: bv16)
    requires SleepPair(awakeA, asleepA) && SleepPair(awakeB, asleepB) && (held == asleepB || held == awakeB)
    requires EqualUnder(!MASK_CFG_SLEEP_MODE_EN, held, asleepA)
    ensures asleepA == asleepB
  {
  }

  lemma ConfigPair(config: Config)
    ensures SleepPair(BuildConfigRegister(config, false), BuildConfigRegister(config, true))
  {
    SleepBit(config);
  }

  lemma ConfigMatchDetermines(a: Config, b: Config, sleeping: bool)
    requires EqualUnder(!MASK_CFG_SLEEP_MODE_EN, BuildConfigRegister(b, sleeping), BuildConfigRegister(a, true))
    ensures BuildConfigRegister(b, true) == BuildConfigRegister(a, true)
  {
    hide BuildConfigRegister, SleepPair, EqualUnder;
    ConfigPair(a);
    ConfigPair(b);
    SleepWords(BuildConfigRegister(a, false), BuildConfigRegister(a, true), BuildConfigRegister(b, false),
               BuildConfigRegister(b, true), BuildConfigRegister(b, sleeping));
  }

  lemma DriveMatchDetermines(a: ChannelConfig, b: ChannelConfig)
    requires a.driveCurrentCode <= IDRIVE_MAX && b.driveCurrentCode <= IDRIVE_MAX
    requires EqualUnder(!MASK_INIT_IDRIVE, DriveCurrent(b), DriveCurrent(a))
    ensures DriveCurrent(a) == DriveCurrent(b)
  {
  }

  /** Register, phase and channel of a step depend on the variant alone. */
  lemma SameShape(a: Config, b: Config, step: nat)
    requires a.variant == b.variant && step < ConfigurationTransferCount(ChannelCountFor(a.variant))
    ensures var wa := ConfigWriteAt(a, ChannelCountFor(a.variant), step);
      var wb := ConfigWriteAt(b, ChannelCountFor(a.variant), step);
      && wa.Some? && wb.Some? && wb == Some(wa.value.(value := wb.value.value))
      && (wa.value.register == REG_CONFIG <==> step == 0)
  {
    hide BuildConfigRegister, BuildMuxConfigRegister, EncodeErrorReporting, ClockDividers, DriveCurrent;
  }

  lemma FullMask(register: int, held: bv16, want: bv16)
    requires EqualUnder(ConfigurationComparisonMask(register), held, want)
    requires ConfigurationComparisonMask(register) == 0xFFFF
    ensures held == want
  {
    hide ConfigurationComparisonMask;
  }

  /** Where the mask has holes, legal words hold zeros. */
  lemma DriveStep(a: Config, b: Config, index: nat)
    requires a.variant == b.variant && Encodable(a) && Encodable(b) && index < ChannelCountFor(a.variant)
    requires Matches(a, 5 + index * 5, DriveCurrent(b.channel[index]))
    ensures DriveCurrent(a.channel[index]) == DriveCurrent(b.channel[index])
  {
    hide BuildConfigRegister, BuildMuxConfigRegister, EncodeErrorReporting, ClockDividers, DriveCurrent,
      ConfigurationComparisonMask, EqualUnder;
    MaskShape();
    DriveWrite(a, index);
    DriveMatchDetermines(a.channel[index], b.channel[index]);
  }

  lemma DriveWrite(config: Config, index: nat)
    requires index < ChannelCountFor(config.variant)
    ensures ConfigWriteAt(config, ChannelCountFor(config.variant), 5 + index * 5)
      == Some(ConfigWrite(RegDriveCurrent(index), DriveCurrent(config.channel[index]), WRITE_DRIVE_CURRENT, index))
  {
    hide BuildConfigRegister, BuildMuxConfigRegister, EncodeErrorReporting, ClockDividers, DriveCurrent;
  }

  lemma FullStep(a: Config, step: nat)
    requires 0 < step < ConfigurationTransferCount(ChannelCountFor(a.variant))
    requires step - 1 >= ChannelCountFor(a.variant) * 5 || (step - 1) % 5 != 4
    ensures var write := ConfigWriteAt(a, ChannelCountFor(a.variant), step);
      write.Some? && ConfigurationComparisonMask(write.value.register) == 0xFFFF
  {
    hide BuildConfigRegister, BuildMuxConfigRegister, EncodeErrorReporting, ClockDividers, DriveCurrent,
      ConfigurationComparisonMask;
    MaskShape();
  }

  lemma WordMatchDetermines(a: Config, b: Config, step: nat)
    requires a.variant == b.variant && Encodable(a) && Encodable(b)
    requires 0 < step < ConfigurationTransferCount(ChannelCountFor(a.variant))
    requires ConfigWriteAt(b, ChannelCountFor(a.variant), step).Some?
    requires Matches(a, step, ConfigWriteAt(b, ChannelCountFor(a.variant), step).value.value)
    ensures ConfigWriteAt(a, ChannelCountFor(a.variant), step).Some?
    ensures ConfigWriteAt(a, ChannelCountFor(a.variant), step).value.value
      == ConfigWriteAt(b, ChannelCountFor(a.variant), step).value.value
  {
    hide ConfigWriteAt, DriveCurrent, ConfigurationComparisonMask, Encodable, EqualUnder;
    StepExists(a, step);
    if step - 1 < ChannelCountFor(a.variant) * 5 && (step - 1) % 5 == 4 {
      var index := (step - 1) / 5;
      assert step == 5 + index * 5;
      DriveWrite(a, index);
      DriveWrite(b, index);
      DriveStep(a, b, index);
    } else {
      FullStep(a, step);
      FullMask(ConfigWriteAt(a, ChannelCountFor(a.variant), step).value.register,
               ConfigWriteAt(b, ChannelCountFor(a.variant), step).value.value,
               ConfigWriteAt(a, ChannelCountFor(a.variant), step).value.value);
    }
  }

  lemma MaskShape()
    ensures forall register :: 0x08 <= register <= 0x17 ==> ConfigurationComparisonMask(register) == 0xFFFF
    ensures ConfigurationComparisonMask(REG_ERROR_CONFIG) == 0xFFFF
    ensures ConfigurationComparisonMask(REG_MUX_CONFIG) == 0xFFFF
    ensures forall register :: 0x1E <= register <= 0x21 ==> ConfigurationComparisonMask(register) == !MASK_INIT_IDRIVE
  {
  }

  lemma StepMatchDetermines(a: Config, b: Config, regs: RegisterFile, sleeping: bool, step: nat)
    requires a.variant == b.variant && Encodable(a) && Encodable(b) && HoldsReplay(regs, b, sleeping)
    requires step < ConfigurationTransferCount(ChannelCountFor(a.variant))
    requires Matches(a, step, regs[StepRegister(a, step)])
    ensures ConfigWriteAt(a, ChannelCountFor(a.variant), step) == ConfigWriteAt(b, ChannelCountFor(a.variant), step)
  {
    hide BuildConfigRegister, ConfigWriteAt, ConfigurationComparisonMask, Encodable, EqualUnder;
    SameShape(a, b, step);
    assert 0 <= step < ConfigurationTransferCount(ChannelCountFor(b.variant));
    assert ConfigWriteAt(b, ChannelCountFor(b.variant), step).value.register == StepRegister(a, step);
    if step == 0 {
      FirstWrite(a);
      FirstWrite(b);
      assert ConfigurationComparisonMask(REG_CONFIG) == !MASK_CFG_SLEEP_MODE_EN by { ConfigMask(); }
      ConfigMatchDetermines(a, b, sleeping);
    } else {
      WordMatchDetermines(a, b, step);
    }
  }

  lemma ConfigMask()
    ensures ConfigurationComparisonMask(REG_CONFIG) == !MASK_CFG_SLEEP_MODE_EN
  {
  }

  lemma FirstWrite(config: Config)
    ensures ConfigWriteAt(config, ChannelCountFor(config.variant), 0)
      == Some(ConfigWrite(REG_CONFIG, BuildConfigRegister(config, true), FORCE_SLEEP, NO_CHANNEL))
  {
    hide BuildConfigRegister;
  }

  function StepRegister(config: Config, step: nat): (register: int)
    requires step < ConfigurationTransferCount(ChannelCountFor(config.variant))
    ensures 0 <= register < REGISTER_COUNT
  {
    StepExists(config, step);
    ReplayRegistersDistinct(config, ChannelCountFor(config.variant), step);
    ConfigWriteAt(config, ChannelCountFor(config.variant), step).value.register
  }

  /** A device that some accepted profile `b` was replayed to, and that passes
      the comparison for `a` on every register, shows exactly profile `a`. */
  lemma MatchingDeviceShowsProfile(a: Config, b: Config, regs: RegisterFile, sleeping: bool)
    requires a.variant == b.variant && Accepted(a) && Accepted(b) && HoldsReplay(regs, b, sleeping)
    requires forall step :: 0 <= step < ConfigurationTransferCount(ChannelCountFor(a.variant)) ==>
      Matches(a, step, regs[StepRegister(a, step)])
    ensures SameVisibleProfile(a, b)
  {
    hide Accepted, Encodable, Matches, HoldsReplay, ConfigWriteAt, SameVisibleProfile, StepRegister;
    AcceptedEncodable(a);
    AcceptedEncodable(b);
    forall step | 0 <= step < ConfigurationTransferCount(ChannelCountFor(a.variant))
      ensures ConfigWriteAt(a, ChannelCountFor(a.variant), step) == ConfigWriteAt(b, ChannelCountFor(a.variant), step)
    {
      StepMatchDetermines(a, b, regs, sleeping, step);
    }
    ImageDeterminesProfile(a, b);
  }

  // ----- raw writes and the profile -----------------------------------------

  lemma ProfileRegister(config: Config, register: int)
    requires config.variant != VARIANT_UNSPECIFIED
    requires IsConfigurationRegister(register) && register != REG_RESET_DEV
    requires !(config.variant == LDC1612 && IsLdc1614OnlyRegister(register))
    ensures WritesAt(config, StepOf(ChannelCountFor(config.variant), register), register)
  {
    hide BuildConfigRegister, BuildMuxConfigRegister, EncodeErrorReporting, ClockDividers, DriveCurrent;
  }

  /** The registers a raw write may touch are RESET_DEV and exactly those the
      replay restores: no diagnostic write is out of the replay's reach. */
  lemma RawWritesAreReplayable(config: Config, register: int)
    requires config.variant != VARIANT_UNSPECIFIED
    ensures IsConfigurationRegister(register) && !(config.variant == LDC1612 && IsLdc1614OnlyRegister(register))
      <==> register == REG_RESET_DEV || InProfile(config, register)
  {
    hide ConfigWriteAt, StepOf;
    if IsConfigurationRegister(register) && !(config.variant == LDC1612 && IsLdc1614OnlyRegister(register)) {
      if register != REG_RESET_DEV {
        ProfileRegister(config, register);
      }
    }
    if InProfile(config, register) {
      var step :| WritesAt(config, step, register);
      ReplayIsWritable(config, step);
    }
  }

  /** A raw write and the replay agree on phase and channel of a register;
      only CONFIG is a sleep at replay and a final write when raw. */
  lemma ReplayIsWritable(config: Config, step: nat)
    requires step < ConfigurationTransferCount(ChannelCountFor(config.variant))
    ensures ConfigWriteAt(config, ChannelCountFor(config.variant), step).Some?
    ensures var write := ConfigWriteAt(config, ChannelCountFor(config.variant), step).value;
      && IsConfigurationRegister(write.register) && write.register != REG_RESET_DEV
      && !(config.variant == LDC1612 && IsLdc1614OnlyRegister(write.register))
      && ChannelForRegister(write.register) == write.channel
      && PhaseForRegister(write.register) == (if step == 0 then WRITE_FINAL_CONFIG else write.phase)
  {
    hide BuildConfigRegister, BuildMuxConfigRegister, EncodeErrorReporting, ClockDividers, DriveCurrent;
  }
}
