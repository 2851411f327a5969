/** The replay image: which register each replay step writes and with which
    value, the register builders, and the read-back comparison values. */
module Registers {
  import opened CommandTable
  import opened Profile
  import opened DriverTypes

  // ----- register builders --------------------------------------------------

  /** `(channel << 14) & 0xC000`, zero when no concrete channel is active. */
  function ActiveChannelField(channel: Channel): bv16 {
    if channel == 1 then 0x4000 else if channel == 2 then 0x8000 else if channel == 3 then 0xC000 else 0
  }

  function BuildConfigRegister(config: Config, sleeping: bool): bv16 {
    CONFIG_RESERVED_VALUE
    | ActiveChannelField(config.activeChannel)
    | (if sleeping then MASK_CFG_SLEEP_MODE_EN else 0)
    | (if config.rpOverrideEnabled then MASK_CFG_RP_OVERRIDE_EN else 0)
    | (if config.sensorActivation == LOW_POWER then MASK_CFG_SENSOR_ACTIVATE_SEL else 0)
    | (if !config.autoAmplitudeCorrectionEnabled then MASK_CFG_AUTO_AMP_DIS else 0)
    | (if config.referenceClock.source == EXTERNAL_CLOCK then MASK_CFG_REF_CLK_SRC else 0)
    | (if config.intbDisabled then MASK_CFG_INTB_DIS else 0)
    | (if config.highCurrentDriveEnabled then MASK_CFG_HIGH_CURRENT_DRV else 0)
  }

  function SequenceField(sequence: RRSequence): bv16 {
    match sequence
    case CH0_CH1 => 0x0000
    case CH0_CH1_CH2 => 0x2000
    case CH0_CH1_CH2_CH3 => 0x4000
    case SEQUENCE_UNSPECIFIED => 0x6000
  }

  function DeglitchField(deglitch: Deglitch): bv16 {
    match deglitch
    case DEGLITCH_UNSPECIFIED => 0
    case BW_1MHZ => 1
    case BW_3MHZ => 4
    case BW_10MHZ => 5
    case BW_33MHZ => 7
  }

  function BuildMuxConfigRegister(config: Config): bv16 {
    MUX_CONFIG_RESERVED_VALUE
    | (if config.mode == MULTI_CHANNEL_SEQUENTIAL then MASK_MUX_AUTOSCAN_EN | SequenceField(config.rrSequence) else 0)
    | DeglitchField(config.deglitch)
  }

  function EncodeErrorReporting(r: ErrorReporting): bv16 {
    (if r.dataUnderRange then MASK_ERRCFG_UR_ERR2OUT else 0)
    | (if r.dataOverRange then MASK_ERRCFG_OR_ERR2OUT else 0)
    | (if r.dataWatchdog then MASK_ERRCFG_WD_ERR2OUT else 0)
    | (if r.dataAmplitudeHigh then MASK_ERRCFG_AH_ERR2OUT else 0)
    | (if r.dataAmplitudeLow then MASK_ERRCFG_AL_ERR2OUT else 0)
    | (if r.statusUnderRange then MASK_ERRCFG_UR_ERR2INT else 0)
    | (if r.statusOverRange then MASK_ERRCFG_OR_ERR2INT else 0)
    | (if r.statusWatchdog then MASK_ERRCFG_WD_ERR2INT else 0)
    | (if r.statusAmplitudeHigh then MASK_ERRCFG_AH_ERR2INT else 0)
    | (if r.statusAmplitudeLow then MASK_ERRCFG_AL_ERR2INT else 0)
    | (if r.statusZeroCount then MASK_ERRCFG_ZC_ERR2INT else 0)
    | (if r.dataReady then MASK_ERRCFG_DRDY_2INT else 0)
  }

  function ClockDividers(channel: ChannelConfig): bv16 {
    ((channel.finDivider as bv16) << 12) | (channel.frefDivider & MASK_FREF_DIVIDER)
  }

  function DriveCurrent(channel: ChannelConfig): bv16 {
    (channel.driveCurrentCode as bv16) << 11
  }

  // ----- replay steps -------------------------------------------------------

  function ConfigurationTransferCount(channelCount: int): int {
    1 + channelCount * 5 + 2
  }

  datatype ConfigWrite = ConfigWrite(register: int, value: bv16, phase: JobPhase, channel: Channel)

  function ChannelWrite(channel: ChannelConfig, index: Channel, field: int): ConfigWrite
    requires index < MAX_CHANNELS
  {
    if field == 0 then ConfigWrite(RegRcount(index), channel.rcount, WRITE_RCOUNT, index)
    else if field == 1 then ConfigWrite(RegSettleCount(index), channel.settleCount, WRITE_SETTLECOUNT, index)
    else if field == 2 then ConfigWrite(RegClockDividers(index), ClockDividers(channel), WRITE_CLOCK_DIVIDERS, index)
    else if field == 3 then ConfigWrite(RegOffset(index), channel.offset, WRITE_OFFSET, index)
    else ConfigWrite(RegDriveCurrent(index), DriveCurrent(channel), WRITE_DRIVE_CURRENT, index)
  }

  /** Step `step` of the replay; `None` past the last step. */
  function ConfigWriteAt(config: Config, channelCount: int, step: nat): Option<ConfigWrite>
    requires 0 <= channelCount <= MAX_CHANNELS
  {
    if step >= ConfigurationTransferCount(channelCount) then None
    else if step == 0 then
      Some(ConfigWrite(REG_CONFIG, BuildConfigRegister(config, true), FORCE_SLEEP, NO_CHANNEL))
    else if step - 1 < channelCount * 5 then
      Some(ChannelWrite(config.channel[(step - 1) / 5], (step - 1) / 5, (step - 1) % 5))
    else if step - 1 == channelCount * 5 then
      Some(ConfigWrite(REG_ERROR_CONFIG, EncodeErrorReporting(config.errorReporting), WRITE_ERROR_CONFIG, NO_CHANNEL))
    else
      Some(ConfigWrite(REG_MUX_CONFIG, BuildMuxConfigRegister(config), WRITE_MUX_CONFIG, NO_CHANNEL))
  }

  /** The inverse of the replay order: the step that writes a register. */
  function StepOf(channelCount: int, register: int): int {
    if register == REG_CONFIG then 0
    else if REG_RCOUNT0 <= register < REG_OFFSET0 then 1 + (register - REG_RCOUNT0) * 5
    else if REG_SETTLECOUNT0 <= register < REG_CLOCK_DIVIDERS0 then 2 + (register - REG_SETTLECOUNT0) * 5
    else if REG_CLOCK_DIVIDERS0 <= register < REG_STATUS then 3 + (register - REG_CLOCK_DIVIDERS0) * 5
    else if REG_OFFSET0 <= register < REG_SETTLECOUNT0 then 4 + (register - REG_OFFSET0) * 5
    else if REG_DRIVE_CURRENT0 <= register then 5 + (register - REG_DRIVE_CURRENT0) * 5
    else if register == REG_ERROR_CONFIG then 1 + channelCount * 5
    else 2 + channelCount * 5
  }

  /** Every replay step writes its own persistent register: the step can be
      recovered from the register, no step resets the device or touches a
      read-only register, and only step 0 writes CONFIG. */
  lemma ReplayRegistersDistinct(config: Config, channelCount: int, step: nat)
    requires 0 <= channelCount <= MAX_CHANNELS && step < ConfigurationTransferCount(channelCount)
    ensures var write := ConfigWriteAt(config, channelCount, step).value;
      && StepOf(channelCount, write.register) == step
      && 0x08 <= write.register <= 0x21
      && write.register != REG_STATUS && write.register != REG_RESET_DEV
      && (write.register == REG_CONFIG <==> step == 0)
  {
    if 0 < step <= channelCount * 5 {
      var index, field := (step - 1) / 5, (step - 1) % 5;
      assert step == 1 + index * 5 + field;
    }
  }

  /** Entering and leaving sleep changes exactly the SLEEP_MODE_EN bit. */
  lemma SleepBit(config: Config)
    ensures BuildConfigRegister(config, true) & MASK_CFG_SLEEP_MODE_EN != 0
    ensures BuildConfigRegister(config, false) & MASK_CFG_SLEEP_MODE_EN == 0
    ensures BuildConfigRegister(config, true) & !MASK_CFG_SLEEP_MODE_EN == BuildConfigRegister(config, false)
  {
  }

  /** Every CONFIG bit, by its position in the data sheet's register map. */
  lemma ConfigBits(config: Config, sleeping: bool)
    ensures var w := BuildConfigRegister(config, sleeping);
      && (w & 0x2000 != 0 <==> sleeping)
      && (w & 0x1000 != 0 <==> config.rpOverrideEnabled)
      && (w & 0x0800 != 0 <==> config.sensorActivation == LOW_POWER)
      && (w & 0x0400 == 0 <==> config.autoAmplitudeCorrectionEnabled)
      && (w & 0x0200 != 0 <==> config.referenceClock.source == EXTERNAL_CLOCK)
      && (w & 0x0080 != 0 <==> config.intbDisabled)
      && (w & 0x0040 != 0 <==> config.highCurrentDriveEnabled)
      && (config.activeChannel == 0 ==> w >> 14 == 0) && (config.activeChannel == 1 ==> w >> 14 == 1)
      && (config.activeChannel == 2 ==> w >> 14 == 2) && (config.activeChannel == 3 ==> w >> 14 == 3)
      && (config.activeChannel >= MAX_CHANNELS ==> w >> 14 == 0)
  {
  }

  /** Every MUX_CONFIG field, by its position. */
  lemma MuxBits(config: Config)
    ensures var w := BuildMuxConfigRegister(config);
      && (w & 0x8000 != 0 <==> config.mode == MULTI_CHANNEL_SEQUENTIAL)
      && (config.mode == MULTI_CHANNEL_SEQUENTIAL && config.rrSequence == CH0_CH1 ==> (w >> 13) & 3 == 0)
      && (config.mode == MULTI_CHANNEL_SEQUENTIAL && config.rrSequence == CH0_CH1_CH2 ==> (w >> 13) & 3 == 1)
      && (config.mode == MULTI_CHANNEL_SEQUENTIAL && config.rrSequence == CH0_CH1_CH2_CH3 ==> (w >> 13) & 3 == 2)
      && (config.deglitch == BW_1MHZ ==> w & 7 == 1) && (config.deglitch == BW_3MHZ ==> w & 7 == 4)
      && (config.deglitch == BW_10MHZ ==> w & 7 == 5) && (config.deglitch == BW_33MHZ ==> w & 7 == 7)
  {
  }

  /** The packed channel words give their fields back. */
  lemma ChannelFieldsReadBack(channel: ChannelConfig)
    requires channel.finDivider <= FIN_DIVIDER_MAX && channel.frefDivider <= FREF_DIVIDER_MAX
    requires channel.driveCurrentCode <= IDRIVE_MAX
    ensures ClockDividers(channel) >> 12 == channel.finDivider as bv16
    ensures ClockDividers(channel) & 0x03FF == channel.frefDivider
    ensures DriveCurrent(channel) >> 11 == channel.driveCurrentCode as bv16
  {
  }

  /** Reserved bits of every replay word carry the value the data sheet demands. */
  lemma ReservedBitsLegal(config: Config, sleeping: bool, index: int)
    requires 0 <= index < MAX_CHANNELS
    requires config.deglitch != DEGLITCH_UNSPECIFIED
    requires config.mode == MULTI_CHANNEL_SEQUENTIAL ==> config.rrSequence != SEQUENCE_UNSPECIFIED
    requires config.channel[index].finDivider <= FIN_DIVIDER_MAX
    requires config.channel[index].driveCurrentCode <= IDRIVE_MAX
    ensures BuildConfigRegister(config, sleeping) & 0x013F == CONFIG_RESERVED_VALUE
    ensures BuildMuxConfigRegister(config) & MASK_MUX_RESERVED == MUX_CONFIG_RESERVED_VALUE
    ensures BuildMuxConfigRegister(config) & MASK_MUX_RR_SEQUENCE != MASK_MUX_RR_SEQUENCE
    ensures EncodeErrorReporting(config.errorReporting) & !MASK_ERRCFG_ALLOWED == 0
    ensures ClockDividers(config.channel[index]) & 0x0C00 == 0
    ensures DriveCurrent(config.channel[index]) & 0x07FF == 0
  {
  }

  // ----- the image determines the profile -----------------------------------

  /** The profile fields a device register can show. */
  predicate SameVisibleChannel(a: ChannelConfig, b: ChannelConfig) {
    a.rcount == b.rcount && a.settleCount == b.settleCount && a.finDivider == b.finDivider &&
    a.frefDivider == b.frefDivider && a.offset == b.offset && a.driveCurrentCode == b.driveCurrentCode
  }

  predicate SameVisibleProfile(a: Config, b: Config)
    requires a.variant == b.variant
  {
    && (forall i :: 0 <= i < ChannelCountFor(a.variant) ==> SameVisibleChannel(a.channel[i], b.channel[i]))
    && a.mode == b.mode && a.activeChannel == b.activeChannel && a.rrSequence == b.rrSequence
    && a.deglitch == b.deglitch && a.sensorActivation == b.sensorActivation
    && a.rpOverrideEnabled == b.rpOverrideEnabled
    && a.autoAmplitudeCorrectionEnabled == b.autoAmplitudeCorrectionEnabled
    && a.highCurrentDriveEnabled == b.highCurrentDriveEnabled
    && a.intbDisabled == b.intbDisabled && a.errorReporting == b.errorReporting
    && a.referenceClock.source == b.referenceClock.source
  }

  /** The part of validation the encoders depend on. */
  predicate Encodable(config: Config) {
    && config.deglitch != DEGLITCH_UNSPECIFIED
    && config.referenceClock.source != CLOCK_UNSPECIFIED
    && (forall i :: 0 <= i < ChannelCountFor(config.variant) ==>
         && config.channel[i].finDivider <= FIN_DIVIDER_MAX
         && config.channel[i].frefDivider <= FREF_DIVIDER_MAX
         && config.channel[i].driveCurrentCode <= IDRIVE_MAX)
    && ((config.mode == SINGLE_CHANNEL && config.activeChannel < MAX_CHANNELS
         && config.rrSequence == SEQUENCE_UNSPECIFIED) ||
        (config.mode == MULTI_CHANNEL_SEQUENTIAL && config.activeChannel == NO_CHANNEL
         && config.rrSequence != SEQUENCE_UNSPECIFIED))
  }

  lemma ConfigRegisterDetermines(a: Config, b: Config)
    requires BuildConfigRegister(a, true) == BuildConfigRegister(b, true)
    ensures ActiveChannelField(a.activeChannel) == ActiveChannelField(b.activeChannel)
    ensures a.rpOverrideEnabled == b.rpOverrideEnabled
    ensures a.sensorActivation == b.sensorActivation
    ensures a.autoAmplitudeCorrectionEnabled == b.autoAmplitudeCorrectionEnabled
    ensures a.referenceClock.source == EXTERNAL_CLOCK <==> b.referenceClock.source == EXTERNAL_CLOCK
    ensures a.intbDisabled == b.intbDisabled
    ensures a.highCurrentDriveEnabled == b.highCurrentDriveEnabled
  {
  }

  lemma MuxRegisterDetermines(a: Config, b: Config)
    requires Encodable(a) && Encodable(b)
    requires BuildMuxConfigRegister(a) == BuildMuxConfigRegister(b)
    ensures a.mode == b.mode && a.rrSequence == b.rrSequence && a.deglitch == b.deglitch
  {
  }

  lemma ErrorBits(r: ErrorReporting)
    ensures var w := EncodeErrorReporting(r);
      && (w & 0x8000 != 0 <==> r.dataUnderRange) && (w & 0x4000 != 0 <==> r.dataOverRange)
      && (w & 0x2000 != 0 <==> r.dataWatchdog) && (w & 0x1000 != 0 <==> r.dataAmplitudeHigh)
      && (w & 0x0800 != 0 <==> r.dataAmplitudeLow) && (w & 0x0080 != 0 <==> r.statusUnderRange)
      && (w & 0x0040 != 0 <==> r.statusOverRange) && (w & 0x0020 != 0 <==> r.statusWatchdog)
      && (w & 0x0010 != 0 <==> r.statusAmplitudeHigh) && (w & 0x0008 != 0 <==> r.statusAmplitudeLow)
      && (w & 0x0004 != 0 <==> r.statusZeroCount) && (w & 0x0001 != 0 <==> r.dataReady)
  {
  }

  lemma ErrorRegisterDetermines(a: ErrorReporting, b: ErrorReporting)
    requires EncodeErrorReporting(a) == EncodeErrorReporting(b)
    ensures a == b
  {
    hide EncodeErrorReporting;
    ErrorBits(a);
    ErrorBits(b);
  }

  lemma ChannelRegistersDetermine(a: ChannelConfig, b: ChannelConfig, index: Channel)
    requires index < MAX_CHANNELS
    requires a.finDivider <= 15 && a.frefDivider <= 0x3FF && a.driveCurrentCode <= 31
    requires b.finDivider <= 15 && b.frefDivider <= 0x3FF && b.driveCurrentCode <= 31
    requires forall field :: 0 <= field < 5 ==>
      ChannelWrite(a, index, field).value == ChannelWrite(b, index, field).value
    ensures SameVisibleChannel(a, b)
  {
    assert ChannelWrite(a, index, 0).value == ChannelWrite(b, index, 0).value;
    assert ChannelWrite(a, index, 1).value == ChannelWrite(b, index, 1).value;
    assert ChannelWrite(a, index, 2).value == ChannelWrite(b, index, 2).value;
    assert ChannelWrite(a, index, 3).value == ChannelWrite(b, index, 3).value;
    assert ChannelWrite(a, index, 4).value == ChannelWrite(b, index, 4).value;
  }

  /** Two encodable profiles of one variant with the same replay image agree
      on every profile field a register can show. */
  lemma ImageDeterminesProfile(a: Config, b: Config)
    requires a.variant == b.variant && Encodable(a) && Encodable(b)
    requires forall step :: 0 <= step < ConfigurationTransferCount(ChannelCountFor(a.variant)) ==>
      ConfigWriteAt(a, ChannelCountFor(a.variant), step) == ConfigWriteAt(b, ChannelCountFor(a.variant), step)
    ensures SameVisibleProfile(a, b)
  {
    var n := ChannelCountFor(a.variant);
    assert ConfigWriteAt(a, n, 0) == ConfigWriteAt(b, n, 0);
    assert ConfigWriteAt(a, n, 1 + n * 5) == ConfigWriteAt(b, n, 1 + n * 5);
    assert ConfigWriteAt(a, n, 2 + n * 5) == ConfigWriteAt(b, n, 2 + n * 5);
    ConfigRegisterDetermines(a, b);
    MuxRegisterDetermines(a, b);
    ErrorRegisterDetermines(a.errorReporting, b.errorReporting);
    forall i | 0 <= i < n
      ensures SameVisibleChannel(a.channel[i], b.channel[i])
    {
      forall field | 0 <= field < 5
        ensures ChannelWrite(a.channel[i], i, field).value == ChannelWrite(b.channel[i], i, field).value
      {
        var step := 1 + i * 5 + field;
        assert (step - 1) / 5 == i && (step - 1) % 5 == field;
        assert ConfigWriteAt(a, n, step) == ConfigWriteAt(b, n, step);
      }
      ChannelRegistersDetermine(a.channel[i], b.channel[i], i);
    }
  }

  // ----- comparison masks ---------------------------------------------------

  function ConfigurationComparisonMask(register: int): bv16 {
    if REG_RCOUNT0 <= register < REG_STATUS then 0xFFFF
    else if register == REG_ERROR_CONFIG || register == REG_MUX_CONFIG then 0xFFFF
    else if register == REG_CONFIG then !MASK_CFG_SLEEP_MODE_EN
    else if REG_DRIVE_CURRENT0 <= register <= RegDriveCurrent(3) then !MASK_INIT_IDRIVE
    else 0
  }
}
