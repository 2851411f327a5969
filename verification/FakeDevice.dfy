/** The behavioural device fixture as an object that transfers update in place,
    behind the adversarial transport. Every method is proved equal to the value
    model of the device. */
module FakeDevice {
  import opened CommandTable
  import opened Profile
  import opened DriverTypes
  import opened Decoding
  import opened Chip

  method SetBits(word: bv16, on: bool, mask: bv16) returns (value: bv16)
    ensures value == Mark(word, on, mask)
  {
    value := word;
    if on {
      value := value | mask;
    }
  }

  /** The STATUS word, evidence by evidence. */
  method ComposeStatus(sticky: bv16, errorChannel: Channel, ready: bool, u0: bool, u1: bool, u2: bool, u3: bool)
    returns (value: bv16)
    ensures value == StatusWord(sticky, errorChannel, ready, u0, u1, u2, u3)
  {
    hide ErrorChannelBits, Mark;
    value := sticky;
    value := SetBits(value, sticky != 0 || ready, ErrorChannelBits(errorChannel));
    value := SetBits(value, ready, MASK_STATUS_DRDY);
    value := SetBits(value, u0, MASK_STATUS_UNREADCONV0);
    value := SetBits(value, u1, MASK_STATUS_UNREADCONV1);
    value := SetBits(value, u2, MASK_STATUS_UNREADCONV2);
    value := SetBits(value, u3, MASK_STATUS_UNREADCONV3);
  }

  class FakeLdc1614Device {
    const reg: array<bv16>
    const ch: array<Latch>
    var stickyStatusErrors: bv16
    var errorChannel: Channel
    var dataReadyLatched: bool
    var transferCalls: nat
    /** What the transport will do with each callback. */
    const script: nat -> Choice

    ghost predicate Valid() {
      reg.Length == REGISTER_COUNT && ch.Length == MAX_CHANNELS
    }

    ghost function Device(): Chip.Device
      reads this, reg, ch
      requires Valid()
    {
      Chip.Device(reg[..], ch[..], stickyStatusErrors, errorChannel, dataReadyLatched)
    }

    constructor (script: nat -> Choice)
      ensures Valid() && fresh(reg) && fresh(ch) && this.script == script && transferCalls == 0
      ensures Device() == Chip.Device(ResetRegisters(), [NO_LATCH, NO_LATCH, NO_LATCH, NO_LATCH], 0, 0, false)
    {
      reg := new bv16[REGISTER_COUNT](_ => 0);
      ch := new Latch[MAX_CHANNELS](_ => NO_LATCH);
      stickyStatusErrors, errorChannel, dataReadyLatched, transferCalls := 0, 0, false, 0;
      this.script := script;
      new;
      ResetDevice();
    }

    method ClearConversionEvidence()
      requires Valid()
      modifies this`stickyStatusErrors, this`errorChannel, this`dataReadyLatched, ch
      ensures Device() == Chip.ClearConversionEvidence(old(Device()))
    {
      var c := 0;
      while c < MAX_CHANNELS
        invariant 0 <= c <= MAX_CHANNELS
        invariant forall k :: 0 <= k < MAX_CHANNELS ==> ch[k] == if k < c then ClearLatch(old(ch[k])) else old(ch[k])
        modifies ch
      {
        ch[c] := ClearLatch(ch[c]);
        c := c + 1;
      }
      stickyStatusErrors, errorChannel, dataReadyLatched := 0, 0, false;
    }

    method ResetDevice()
      requires Valid()
      modifies this`stickyStatusErrors, this`errorChannel, this`dataReadyLatched, ch, reg
      ensures Device() == Chip.ResetDevice(old(Device()))
    {
      ResetRegisterFile();
      ClearConversionEvidence();
    }

    method ResetRegisterFile()
      requires Valid()
      modifies reg
      ensures reg[..] == ResetRegisters()
    {
      var r := 0;
      while r < REGISTER_COUNT
        invariant 0 <= r <= REGISTER_COUNT
        invariant forall k :: 0 <= k < r ==> reg[k] == 0
        modifies reg
      {
        reg[r] := 0;
        r := r + 1;
      }
      reg[REG_MANUFACTURER_ID] := MANUFACTURER_ID_VALUE;
      reg[REG_DEVICE_ID] := DEVICE_ID_VALUE;
      reg[REG_CONFIG] := CONFIG_DEFAULT;
      reg[REG_MUX_CONFIG] := MUX_CONFIG_DEFAULT;
      reg[REG_ERROR_CONFIG] := ERROR_CONFIG_DEFAULT;
      ghost var globals := reg[..];
      var c := 0;
      while c < MAX_CHANNELS
        invariant 0 <= c <= MAX_CHANNELS
        invariant forall k :: 0 <= k < REGISTER_COUNT ==>
          reg[k] == if REG_RCOUNT0 <= k < REG_RCOUNT0 + c then RCOUNT_DEFAULT else globals[k]
        modifies reg
      {
        reg[RegRcount(c)] := RCOUNT_DEFAULT;
        c := c + 1;
      }
      assert forall k :: 0 <= k < REGISTER_COUNT ==> reg[k] == ResetValue(k);
    }

    method LastConversionChannel() returns (channel: int)
      requires Valid()
      ensures channel == Chip.LastConversionChannel(Device())
    {
      var mux := reg[REG_MUX_CONFIG];
      if mux & MASK_MUX_AUTOSCAN_EN == 0 {
        return ErrorChannelField(reg[REG_CONFIG]);
      }
      var sequence := mux & MASK_MUX_RR_SEQUENCE;
      channel := if sequence == 0x2000 then 2 else if sequence == 0x4000 then 3 else 1;
    }

    method InjectConversion(c: Conversion)
      requires Valid()
      modifies this`stickyStatusErrors, this`errorChannel, this`dataReadyLatched, ch
      ensures Device() == Chip.Inject(old(Device()), c)
    {
      if !(0 <= c.ch < MAX_CHANNELS) {
        return;
      }
      var last := LastConversionChannel();
      ch[c.ch] := Convert(ch[c.ch], c);
      var drdyRouted := reg[REG_ERROR_CONFIG] & MASK_ERRCFG_DRDY_2INT != 0;
      if stickyStatusErrors == 0 && !dataReadyLatched {
        stickyStatusErrors := c.statusErrors & STATUS_ERROR_MASK;
        dataReadyLatched := drdyRouted && c.ch == last;
        if stickyStatusErrors != 0 || dataReadyLatched {
          errorChannel := c.ch;
        }
      }
    }

    method RunScheduledInjections(conversions: seq<Conversion>)
      requires Valid()
      modifies this`stickyStatusErrors, this`errorChannel, this`dataReadyLatched, ch
      ensures Device() == InjectAll(old(Device()), conversions)
    {
      var i := 0;
      while i < |conversions|
        invariant 0 <= i <= |conversions|
        invariant InjectAll(Device(), conversions[i..]) == InjectAll(old(Device()), conversions)
      {
        assert conversions[i..][1..] == conversions[i + 1..];
        InjectConversion(conversions[i]);
        i := i + 1;
      }
    }

    method StatusValue() returns (value: bv16)
      requires Valid()
      ensures value == Chip.StatusValue(Device())
    {
      hide StatusWord;
      value := ComposeStatus(stickyStatusErrors, errorChannel, dataReadyLatched,
                             ch[0].unread, ch[1].unread, ch[2].unread, ch[3].unread);
    }

    /** Latches the shadow pair when a DATA MSB register is addressed. */
    method ReadValue(register: int) returns (value: bv16)
      requires Valid()
      modifies ch
      ensures value == Chip.ReadValue(old(Device()), register)
      ensures Device() == LatchShadow(old(Device()), register)
    {
      if register == REG_STATUS {
        value := StatusValue();
        return;
      }
      if IsDataMsb(register) {
        var l := ch[register / 2];
        ch[register / 2] := l.(shadowMsb := l.liveMsb, shadowLsb := l.liveLsb, shadowValid := true,
                               shadowSerial := l.liveSerial);
        return l.liveMsb;
      }
      if IsDataLsb(register) {
        return if ch[register / 2].shadowValid then ch[register / 2].shadowLsb else 0;
      }
      value := if 0 <= register < REGISTER_COUNT then reg[register] else 0;
    }

    method ApplyReadSideEffects(register: int)
      requires Valid()
      modifies this`stickyStatusErrors, this`errorChannel, this`dataReadyLatched, ch
      ensures Device() == ReadSideEffects(old(Device()), register)
    {
      if register == REG_STATUS {
        stickyStatusErrors, errorChannel, dataReadyLatched := 0, 0, false;
        ClearUnreadMask();
        return;
      }
      if !IsDataMsb(register) {
        return;
      }
      ConsumeSample(register);
    }

    method ClearUnreadMask()
      requires Valid()
      modifies ch
      ensures ch[..]
        == [ClearUnread(old(ch[0])), ClearUnread(old(ch[1])), ClearUnread(old(ch[2])), ClearUnread(old(ch[3]))]
    {
      var c := 0;
      while c < MAX_CHANNELS
        invariant 0 <= c <= MAX_CHANNELS
        invariant forall k :: 0 <= k < MAX_CHANNELS ==> ch[k] == if k < c then ClearUnread(old(ch[k])) else old(ch[k])
        modifies ch
      {
        ch[c] := ClearUnread(ch[c]);
        c := c + 1;
      }
    }

    method ConsumeSample(register: int)
      requires Valid() && IsDataMsb(register)
      modifies this`stickyStatusErrors, this`errorChannel, this`dataReadyLatched, ch
      ensures Device() == ReadSideEffects(old(Device()), register)
    {
      hide Consume;
      var l := ch[register / 2];
      ch[register / 2] := Consume(l);
      if (stickyStatusErrors != 0 || dataReadyLatched) && errorChannel == register / 2 {
        stickyStatusErrors, errorChannel, dataReadyLatched := 0, 0, false;
      }
    }

    method ApplyWrite(register: int, value: bv16)
      requires Valid()
      modifies this`stickyStatusErrors, this`errorChannel, this`dataReadyLatched, ch, reg
      ensures Device() == Chip.ApplyWrite(old(Device()), register, value)
    {
      if register == REG_RESET_DEV && value & MASK_RESET_DEV != 0 {
        ResetDevice();
        return;
      }
      if 0 <= register < REGISTER_COUNT {
        reg[register] := value;
      }
      if register == REG_CONFIG && value & MASK_CFG_SLEEP_MODE_EN != 0 {
        ClearConversionEvidence();
      }
    }

    /** Power lost and regained outside the driver's control: any register
        contents, no conversion evidence. */
    method LosePower(regs: RegisterFile)
      requires Valid()
      modifies this`stickyStatusErrors, this`errorChannel, this`dataReadyLatched, ch, reg
      ensures Device() == Chip.ClearConversionEvidence(old(Device()).(regs := regs))
    {
      var r := 0;
      while r < REGISTER_COUNT
        invariant 0 <= r <= REGISTER_COUNT
        invariant forall k :: 0 <= k < r ==> reg[k] == regs[k]
        modifies reg
      {
        reg[r] := regs[r];
        r := r + 1;
      }
      assert reg[..] == regs;
      ClearConversionEvidence();
    }

    /** One write callback. */
    method Write(register: int, value: bv16) returns (status: Err)
      requires Valid()
      modifies this`stickyStatusErrors, this`errorChannel, this`dataReadyLatched, this`transferCalls, ch, reg
      ensures transferCalls == old(transferCalls) + 1
      ensures status == script(old(transferCalls)).status
      ensures Device() == Written(old(Device()), script(old(transferCalls)), register, value)
    {
      var choice := script(transferCalls);
      transferCalls := transferCalls + 1;
      if EffectiveReach(choice) == COMPLETE {
        ApplyWrite(register, value);
      }
      RunScheduledInjections(choice.after);
      status := choice.status;
    }

    /** One read callback; `word` is what the device drove, delivered or not. */
    method WriteRead(register: int) returns (status: Err, value: bv16, ghost word: bv16)
      requires Valid()
      modifies this`stickyStatusErrors, this`errorChannel, this`dataReadyLatched, this`transferCalls, ch
      ensures transferCalls == old(transferCalls) + 1
      ensures status == script(old(transferCalls)).status
      ensures word == Chip.ReadValue(old(Device()), register) && value == if status == OK then word else 0
      ensures Device() == AfterRead(old(Device()), script(old(transferCalls)), register)
    {
      var choice := script(transferCalls);
      var reach := EffectiveReach(choice);
      transferCalls := transferCalls + 1;
      word := Chip.ReadValue(Device(), register);
      value := 0;
      if reach != MISSED {
        value := ReadValue(register);
      }
      if reach == COMPLETE {
        ApplyReadSideEffects(register);
      }
      RunScheduledInjections(choice.after);
      status := choice.status;
      value := if status == OK then value else 0;
    }
  }
}
