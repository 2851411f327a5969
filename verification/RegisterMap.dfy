/** The register map of a profile by address and bit position: what each word
    of the replay means, independent of the tables that produce it. */
module RegisterMap {
  import opened CommandTable
  import opened Profile
  import opened DriverTypes
  import opened Registers
  import opened Validation

  predicate IsRcount(register: int) { 0x08 <= register <= 0x0B }
  predicate IsOffset(register: int) { 0x0C <= register <= 0x0F }
  predicate IsSettleCount(register: int) { 0x10 <= register <= 0x13 }
  predicate IsClockDividers(register: int) { 0x14 <= register <= 0x17 }
  predicate IsDriveCurrent(register: int) { 0x1E <= register <= 0x21 }

  /** The persistent registers of a part with `n` channels. */
  predicate InMap(n: int, register: int) {
    || 0x08 <= register < 0x08 + n || 0x0C <= register < 0x0C + n || 0x10 <= register < 0x10 + n
    || 0x14 <= register < 0x14 + n || 0x1E <= register < 0x1E + n
    || register == 0x19 || register == 0x1A || register == 0x1B
  }

  predicate ErrorShows(w: bv16, r: ErrorReporting) {
    && (w & 0x8000 != 0 <==> r.dataUnderRange) && (w & 0x4000 != 0 <==> r.dataOverRange)
    && (w & 0x2000 != 0 <==> r.dataWatchdog) && (w & 0x1000 != 0 <==> r.dataAmplitudeHigh)
    && (w & 0x0800 != 0 <==> r.dataAmplitudeLow) && (w & 0x0080 != 0 <==> r.statusUnderRange)
    && (w & 0x0040 != 0 <==> r.statusOverRange) && (w & 0x0020 != 0 <==> r.statusWatchdog)
    && (w & 0x0010 != 0 <==> r.statusAmplitudeHigh) && (w & 0x0008 != 0 <==> r.statusAmplitudeLow)
    && (w & 0x0004 != 0 <==> r.statusZeroCount) && (w & 0x0001 != 0 <==> r.dataReady)
    && w & 0x0702 == 0
  }

  predicate ConfigShows(w: bv16, config: Config, sleeping: bool) {
    && w >> 14 == (if config.activeChannel == 1 then 1 else if config.activeChannel == 2 then 2
                   else if config.activeChannel == 3 then 3 else 0)
    && (w & 0x2000 != 0 <==> sleeping)
    && (w & 0x1000 != 0 <==> config.rpOverrideEnabled)
    && (w & 0x0800 != 0 <==> config.sensorActivation == LOW_POWER)
    && (w & 0x0400 == 0 <==> config.autoAmplitudeCorrectionEnabled)
    && (w & 0x0200 != 0 <==> config.referenceClock.source == EXTERNAL_CLOCK)
    && (w & 0x0080 != 0 <==> config.intbDisabled)
    && (w & 0x0040 != 0 <==> config.highCurrentDriveEnabled)
    && w & 0x013F == 0x0001
  }

  predicate MuxShows(w: bv16, config: Config) {
    && (w & 0x8000 != 0 <==> config.mode == MULTI_CHANNEL_SEQUENTIAL)
    && (w >> 13) & 3 == (if config.mode != MULTI_CHANNEL_SEQUENTIAL || config.rrSequence == CH0_CH1 then 0
                         else if config.rrSequence == CH0_CH1_CH2 then 1 else 2)
    && w & 7 == (match config.deglitch
                 case BW_1MHZ => 1 case BW_3MHZ => 4 case BW_10MHZ => 5 case BW_33MHZ => 7
                 case DEGLITCH_UNSPECIFIED => 0)
    && w & 0x1FF8 == 0x0208
  }

  predicate DividersShow(w: bv16, c: ChannelConfig) {
    w >> 12 == c.finDivider as bv16 && w & 0x03FF == c.frefDivider && w & 0x0C00 == 0
  }

  predicate DriveShows(w: bv16, c: ChannelConfig) {
    w >> 11 == c.driveCurrentCode as bv16 && w & 0x07FF == 0
  }

  /** `word` is what the profile demands of the register at this address. */
  predicate WordShows(config: Config, register: int, word: bv16, sleeping: bool) {
    if IsRcount(register) then word == config.channel[register - 0x08].rcount
    else if IsOffset(register) then word == config.channel[register - 0x0C].offset
    else if IsSettleCount(register) then word == config.channel[register - 0x10].settleCount
    else if IsClockDividers(register) then DividersShow(word, config.channel[register - 0x14])
    else if IsDriveCurrent(register) then DriveShows(word, config.channel[register - 0x1E])
    else if register == 0x19 then ErrorShows(word, config.errorReporting)
    else if register == 0x1A then ConfigShows(word, config, sleeping)
    else if register == 0x1B then MuxShows(word, config)
    else false
  }

  lemma ConfigWordShows(config: Config, sleeping: bool)
    ensures ConfigShows(BuildConfigRegister(config, sleeping), config, sleeping)
  {
  }

  lemma MuxWordShows(config: Config)
    requires config.mode == MULTI_CHANNEL_SEQUENTIAL ==> config.rrSequence != SEQUENCE_UNSPECIFIED
    ensures MuxShows(BuildMuxConfigRegister(config), config)
  {
  }

  lemma ErrorWordShows(r: ErrorReporting)
    ensures ErrorShows(EncodeErrorReporting(r), r)
  {
  }

  /** The packed fields fit their places. */
  predicate Fits(c: ChannelConfig) {
    c.finDivider <= FIN_DIVIDER_MAX && c.frefDivider <= FREF_DIVIDER_MAX && c.driveCurrentCode <= IDRIVE_MAX
  }

  lemma ChannelFits(config: Config, index: Channel)
    requires Encodable(config) && index < ChannelCountFor(config.variant)
    ensures Fits(config.channel[index])
  {
  }

  lemma PackedWordsShow(channel: ChannelConfig)
    requires Fits(channel)
    ensures DividersShow(ClockDividers(channel), channel) && DriveShows(DriveCurrent(channel), channel)
  {
  }

  lemma ChannelWordShows(config: Config, index: Channel, field: nat)
    requires Encodable(config) && index < ChannelCountFor(config.variant) && field < 5
    ensures var write := ChannelWrite(config.channel[index], index, field);
      WordShows(config, write.register, write.value, true)
  {
    hide ClockDividers, DriveCurrent, DividersShow, DriveShows, ErrorShows, ConfigShows, MuxShows, Encodable, Fits;
    ChannelFits(config, index);
    PackedWordsShow(config.channel[index]);
  }

  /** Every replay step leaves what the profile demands at its address. */
  lemma StepShows(config: Config, step: nat)
    requires Encodable(config) && step < ConfigurationTransferCount(ChannelCountFor(config.variant))
    ensures var write := ConfigWriteAt(config, ChannelCountFor(config.variant), step).value;
      WordShows(config, write.register, write.value, true)
  {
    hide BuildConfigRegister, BuildMuxConfigRegister, EncodeErrorReporting, ChannelWrite, ErrorShows, ConfigShows,
      MuxShows;
    ConfigWordShows(config, true);
    MuxWordShows(config);
    ErrorWordShows(config.errorReporting);
    if 0 < step <= ChannelCountFor(config.variant) * 5 {
      ChannelWordShows(config, (step - 1) / 5, (step - 1) % 5);
    }
  }

  /** Every replay step writes a register of the map. */
  lemma StepInMap(config: Config, step: nat)
    requires step < ConfigurationTransferCount(ChannelCountFor(config.variant))
    ensures ConfigWriteAt(config, ChannelCountFor(config.variant), step).Some?
    ensures InMap(ChannelCountFor(config.variant),
                  ConfigWriteAt(config, ChannelCountFor(config.variant), step).value.register)
  {
    hide BuildConfigRegister, BuildMuxConfigRegister, EncodeErrorReporting, ClockDividers, DriveCurrent;
  }

  /** Every register of the map is written by one replay step. */
  lemma MapStep(config: Config, register: int)
    requires InMap(ChannelCountFor(config.variant), register)
    ensures var n := ChannelCountFor(config.variant);
      && 0 <= StepOf(n, register) < ConfigurationTransferCount(n)
      && ConfigWriteAt(config, n, StepOf(n, register)).Some?
      && ConfigWriteAt(config, n, StepOf(n, register)).value.register == register
      && (register == 0x1A <==> StepOf(n, register) == 0)
  {
    hide BuildConfigRegister, BuildMuxConfigRegister, EncodeErrorReporting, ClockDividers, DriveCurrent;
  }

  lemma AcceptedEncodable(config: Config)
    requires Accepted(config)
    ensures Encodable(config)
  {
    hide LimitsHold, CountsAndSensorAccepted;
    forall i | 0 <= i < ChannelCountFor(config.variant)
      ensures RegistersAccepted(config.channel[i])
    {
      assert ChannelAccepted(config, i);
    }
    if config.mode == MULTI_CHANNEL_SEQUENTIAL {
      assert config.rrSequence != SEQUENCE_UNSPECIFIED;
    }
  }
}
