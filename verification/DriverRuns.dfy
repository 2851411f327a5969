/** Runs of the driver object: whatever its owner, the bus and the device do,
    the object goes through the states of the abstract run, so every theorem
    about runs is a theorem about its fields. */
module DriverRuns {
  import opened CommandTable
  import opened Profile
  import opened DriverTypes
  import opened Registers
  import opened Validation
  import opened Decoding
  import opened Chip
  import opened Machine
  import opened Engine
  import opened Trust
  import opened Runs
  import opened ResultRing
  import opened DriverFields
  import opened CooperativeDriver

  /** One call of the owner, one conversion or one reported power cycle. */
  method Perform(driver: LDC1614, e: Event)
    requires driver.Valid()
    modifies driver, driver.scratchSamples, driver.results, driver.wire, driver.wire.reg, driver.wire.ch
    ensures driver.Valid() && JobInProgram(old(driver.Abs()).driver)
    ensures driver.Abs() == Apply(driver.wire.script, old(driver.Abs()), e)
  {
    hide Accepted, Contents, ProgramLength, Positioned, ValidFields, DriverOf, Engine.Bind, Engine.End,
      Engine.UpdateDesiredConfig, Engine.Start, Engine.Poll, Engine.Cancel, Engine.TakeResult, Engine.Invalidate,
      Engine.SleepOrWake, Engine.WriteRegister16, Engine.ReadRegister16, Inject, ClearConversionEvidence;
    InProgram(driver.State());
    match e {
      case BindEvent(config) => var status := driver.Bind(config);
      case EndEvent => driver.End();
      case UpdateEvent(config) => var status := driver.UpdateDesiredConfig(config);
      case StartEvent(kind, mask, id, deadlineMs) => StartAny(driver, kind, mask, id, deadlineMs);
      case PollEvent(now, maxTransfers) => var status := driver.Poll(now, maxTransfers);
      case CancelEvent => var status := driver.CancelJob();
      case TakeEvent => var status, result := driver.TakeResult();
      case InvalidateEvent(reason) => driver.InvalidateAppliedState(reason);
      case SleepEvent => var status := driver.Sleep();
      case WakeEvent => var status := driver.Wake();
      case WriteEvent(register, value) => var status := driver.WriteRegister16(register, value);
      case ReadEvent(register) => var status, value := driver.ReadRegister16(register);
      case ConversionEvent(conversion) => driver.wire.InjectConversion(conversion);
      case PowerCycleEvent(regs, cause) =>
        driver.wire.LosePower(regs);
        driver.InvalidateAppliedState(cause);
    }
  }

  method StartAny(driver: LDC1614, kind: JobKind, mask: ChannelMask, id: uint64, deadlineMs: uint64)
    requires driver.Valid()
    modifies driver`progress, driver`scratch, driver`seen, driver.scratchSamples
    ensures driver.Valid()
    ensures driver.Abs() == if kind == NO_JOB then old(driver.Abs())
                            else Engine.Start(old(driver.Abs()), kind, mask, id, deadlineMs).0
  {
    hide Accepted, Contents, ProgramLength, Positioned, ValidFields, DriverOf;
    match kind {
      case INITIALIZE => var status := driver.StartInitialize(id, deadlineMs);
      case APPLY_CONFIG => var status := driver.StartApplyConfig(id, deadlineMs);
      case RESET_AND_REAPPLY => var status := driver.StartResetAndReapply(id, deadlineMs);
      case ACQUIRE => var status := driver.StartAcquire(mask, id, deadlineMs);
      case NO_JOB =>
    }
  }

  /** Any events in any order. */
  method Execute(driver: LDC1614, es: seq<Event>)
    requires driver.Valid() && Trusted(driver.Abs())
    modifies driver, driver.scratchSamples, driver.results, driver.wire, driver.wire.reg, driver.wire.ch
    ensures driver.Valid() && driver.Abs() == Run(driver.wire.script, old(driver.Abs()), es)
  {
    hide Trusted, Apply, DriverOf, Positioned, Accepted, Contents;
    var i := 0;
    while i < |es|
      invariant 0 <= i <= |es|
      invariant driver.Valid() && Trusted(driver.Abs())
      invariant Run(driver.wire.script, driver.Abs(), es[i..]) == Run(driver.wire.script, old(driver.Abs()), es)
    {
      assert es[i..][0] == es[i] && es[i..][1..] == es[i + 1..];
      ghost var before := driver.Abs();
      TrustedParts(before);
      ApplyKeepsTrust(driver.wire.script, before, es[i]);
      Perform(driver, es[i]);
      i := i + 1;
    }
  }

  /** From construction through any run, the fields of the object tell the
      truth about the registers of the device behind it. */
  method Operate(script: Script, es: seq<Event>) returns (driver: LDC1614)
    ensures driver.Valid() && fresh(driver)
    ensures driver.appliedState == APPLIED_SLEEPING ==>
      HoldsProfile(driver.wire.reg[..], driver.config, true) && !driver.configFault.valid
    ensures driver.appliedState == APPLIED_ACTIVE ==>
      HoldsProfile(driver.wire.reg[..], driver.config, false) && !driver.configFault.valid
    ensures driver.appliedState == APPLYING ==> driver.progress.active
  {
    hide Trusted, Initial, Run, HoldsReplay, HoldsProfile, HasConfirmedWrite, Positioned, Accepted, Contents;
    driver := new LDC1614(script);
    ghost var start := driver.Abs();
    TrustIsSound(script, start, es);
    Execute(driver, es);
  }
}
