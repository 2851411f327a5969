/** The register lists the diagnostic CLI walks, and what a walk covers. */
module RegisterLists {
  import opened CommandTable
  import opened Profile
  import opened DriverTypes
  import opened Registers
  import opened Validation
  import opened Machine
  import opened Engine
  import opened Readback

  const CONFIG_REGISTERS: seq<uint8> := [
    0x08, 0x09, 0x0A, 0x0B, 0x10, 0x11, 0x12, 0x13, 0x14, 0x15, 0x16, 0x17,
    0x0C, 0x0D, 0x0E, 0x0F, 0x1E, 0x1F, 0x20, 0x21, 0x19, 0x1B, 0x1A]
  const ALL_REGISTERS: seq<uint8> := [
    0x00, 0x01, 0x02, 0x03, 0x04, 0x05, 0x06, 0x07, 0x08, 0x09, 0x0A, 0x0B, 0x0C, 0x0D, 0x0E, 0x0F,
    0x10, 0x11, 0x12, 0x13, 0x14, 0x15, 0x16, 0x17, 0x18, 0x19, 0x1A, 0x1B, 0x1C,
    0x1E, 0x1F, 0x20, 0x21, 0x7E, 0x7F]

  /** The part has the register: not one of a missing channel. */
  predicate Available(variant: DeviceVariant, register: uint8) {
    !(variant == LDC1612 && IsLdc1614OnlyRegister(register))
  }

  /** Available registers among the first `n` of a list. */
  function AvailableBefore(variant: DeviceVariant, list: seq<uint8>, n: nat): nat
    requires n <= |list|
  {
    if n == 0 then 0
    else AvailableBefore(variant, list, n - 1) + (if Available(variant, list[n - 1]) then 1 else 0)
  }

  /** The first available register from `from` on, or the end of the list. */
  function NextAvailable(variant: DeviceVariant, list: seq<uint8>, from: nat): (next: nat)
    requires from <= |list|
    ensures from <= next <= |list|
    ensures forall i :: from <= i < next ==> !Available(variant, list[i])
    ensures next < |list| ==> Available(variant, list[next])
    decreases |list| - from
  {
    if from < |list| && !Available(variant, list[from]) then NextAvailable(variant, list, from + 1) else from
  }

  /** Skipping registers the part does not have counts none. */
  lemma {:induction false} SkippedCount(variant: DeviceVariant, list: seq<uint8>, from: nat, next: nat)
    requires from <= next <= |list| && forall i :: from <= i < next ==> !Available(variant, list[i])
    ensures AvailableBefore(variant, list, next) == AvailableBefore(variant, list, from)
    decreases next - from
  {
    if from < next {
      SkippedCount(variant, list, from, next - 1);
    }
  }

  /** Neither list names a register twice. */
  lemma ConfigRegistersDistinct(i: nat, j: nat)
    requires i < j < |CONFIG_REGISTERS|
    ensures CONFIG_REGISTERS[i] != CONFIG_REGISTERS[j]
  {
  }

  lemma AllRegistersAscend(i: nat, j: nat)
    requires i < j < |ALL_REGISTERS|
    ensures ALL_REGISTERS[i] < ALL_REGISTERS[j]
  {
  }

  /** A walk over the configuration registers meets exactly the registers of
      the profile. */
  lemma ConfigRegistersAreProfile(config: Config, register: uint8)
    requires Accepted(config)
    ensures InProfile(config, register) <==> register in CONFIG_REGISTERS && Available(config.variant, register)
  {
    hide ChannelAccepted, InProfile;
    RawWritesAreReplayable(config, register);
    ResetOutsideProfile(config);
    ListedRegister(register);
  }

  lemma ResetOutsideProfile(config: Config)
    ensures !InProfile(config, REG_RESET_DEV)
  {
    hide ChannelWrite, BuildConfigRegister, BuildMuxConfigRegister, EncodeErrorReporting;
    forall step
      ensures !WritesAt(config, step, REG_RESET_DEV)
    {
      if WritesAt(config, step, REG_RESET_DEV) {
        ReplayActionShape(config, step);
      }
    }
  }

  /** The configuration registers are those a raw write may touch but RESET_DEV. */
  lemma ListedRegister(register: uint8)
    ensures IsConfigurationRegister(register) && register != REG_RESET_DEV <==> register in CONFIG_REGISTERS
  {
    var l := CONFIG_REGISTERS;
    assert l[0] == 0x08 && l[1] == 0x09 && l[2] == 0x0A && l[3] == 0x0B && l[4] == 0x10 && l[5] == 0x11;
    assert l[6] == 0x12 && l[7] == 0x13 && l[8] == 0x14 && l[9] == 0x15 && l[10] == 0x16 && l[11] == 0x17;
    assert l[12] == 0x0C && l[13] == 0x0D && l[14] == 0x0E && l[15] == 0x0F && l[16] == 0x1E && l[17] == 0x1F;
    assert l[18] == 0x20 && l[19] == 0x21 && l[20] == 0x19 && l[21] == 0x1B && l[22] == 0x1A;
  }

  lemma CountFour(variant: DeviceVariant, list: seq<uint8>, n: nat)
    requires n + 4 <= |list|
    ensures AvailableBefore(variant, list, n + 4) == AvailableBefore(variant, list, n)
      + (if Available(variant, list[n]) then 1 else 0) + (if Available(variant, list[n + 1]) then 1 else 0)
      + (if Available(variant, list[n + 2]) then 1 else 0) + (if Available(variant, list[n + 3]) then 1 else 0)
  {
    hide Available;
    assert AvailableBefore(variant, list, n + 2) == AvailableBefore(variant, list, n)
      + (if Available(variant, list[n]) then 1 else 0) + (if Available(variant, list[n + 1]) then 1 else 0);
  }

  /** There are as many of them as the replay of the profile has writes. */
  lemma ConfigRegisterCount(variant: DeviceVariant)
    requires variant != VARIANT_UNSPECIFIED
    ensures AvailableBefore(variant, CONFIG_REGISTERS, |CONFIG_REGISTERS|)
      == ConfigurationTransferCount(ChannelCountFor(variant))
  {
    hide AvailableBefore;
    var l := CONFIG_REGISTERS;
    CountFour(variant, l, 0);
    CountFour(variant, l, 4);
    CountFour(variant, l, 8);
    CountFour(variant, l, 12);
    CountFour(variant, l, 16);
    CountFour(variant, l, 19);
    CountLast(variant, l, 20);
    assert AvailableBefore(variant, l, 0) == 0 by { CountNone(variant, l); }
  }

  lemma CountNone(variant: DeviceVariant, list: seq<uint8>)
    ensures AvailableBefore(variant, list, 0) == 0
  {
  }

  lemma CountLast(variant: DeviceVariant, list: seq<uint8>, n: nat)
    requires 0 < n <= |list|
    ensures AvailableBefore(variant, list, n)
      == AvailableBefore(variant, list, n - 1) + (if Available(variant, list[n - 1]) then 1 else 0)
  {
  }
}
