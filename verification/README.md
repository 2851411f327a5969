# LDC1612/LDC1614 driver: verification model

A Dafny model of the cooperative LDC1612/LDC1614 inductance-to-digital
converter driver, its behavioural device fixture, the diagnostic command line
that drives it, the ESP32 example transport and the batch evidence test of the
hardware-in-the-loop runner.
`dafny verify dfyconfig.toml` checks the whole project.

## How it is built

*The abstract machine.* `Machine.dfy` describes the job engine as pure steps.
A job's program is a function of kind, profile and channel mask; a job is a
position in its program plus the data read so far. `Engine.dfy` adds the
owner's calls. `Chip.dfy` is the device: destructive DATA and STATUS reads,
shadow latching, sticky evidence, sleep and reset. An adversary (`Script`)
chooses the outcome of each transfer: success, an address NACK without effect,
or any other failure whose effect may be absent, a latch only, or complete.
Conversions may land between any two transfers and at any time outside jobs.
An `Observer` watches the wire: transcript, timeouts, identity evidence,
admissions, deliveries, conversion numbers and published samples. No behaviour
depends on it.

*Runs.* `Trust`, `Fence`, `Ledger`, `Outcomes`, `WriteEffects`, `Conversions`,
`Acquisition`, `Sampling` and `Freshness` each prove one invariant over every
event; `Runs.dfy` joins them and states the main theorems for every state a run can
reach. `Deadlines.dfy` covers time, budgets and progress; `Progress.dfy` and
`HealthyRuns.dfy` show that on a healthy bus jobs and whole sessions do succeed.
`Operations.dfy` says what each owner call does in terms of its arguments, and
`RegisterMap.dfy` what each word of the replay means by address and bit; neither
names the tables and steps it speaks about.

*Objects.* `FakeDevice.dfy` and `LDC1614.dfy` are the fixture and the driver
as classes with arrays, a two-slot result ring and nested bounded loops. Each
method is proved to take the abstract machine from its old state to its new
one, and `DriverRuns.dfy` puts them together: the object performs any run, so
the theorems about runs hold of its fields. `DriverFields.dfy` holds the
meaning of those fields. `BusHandles.dfy` and `Cli.dfy` are the
transport and command-line objects; the CLI drives the abstract machine, which
the driver object refines. `Sessions.dfy` holds the records of its sessions and
what their counters mean, `Steps.dfy` what one step, pass or command does from
one moment to the next, `RegisterLists.dfy` the lists it walks, and
`CliRuns.dfy` runs it. A ghost tally judges every item where it happens, so the
reports of a run are compared with what happened and not with the counters.

*Values.* `CommandTable`, `Profile`, `DriverTypes`, `Registers`, `Validation`,
`Acceptance`, `Timing`, `Decoding`, `Batches`, `Readback` and `HilRunner` are the
profile arithmetic, the encoders, the decoders, the read-back comparison and the
runner's independent recomputation of sample batches.

## Reading the theorems

- A device change outside the driver (removal, brownout, power cycle) is one
  event together with the owner's invalidation, as the driver demands of its
  owner. Without the invalidation the trust state would not be sound.
- Trust is by acknowledged writes. The driver never reads registers back to
  gain it; `Readback.dfy` shows what a read-back would tell.
- A failed transfer counts in `completedTransfers`.
- A conversion that lands between STATUS-before and the MSB read is published
  as stale although its word is new. `SamplesAreUntorn` says exactly when a
  sample is fresh, so freshness is neither claimed nor withheld otherwise.
- The code comment at src/LDC1614.cpp:1449-1450 says the divider ratios are
  kept exact so that valid profiles close to a boundary are not rejected. The
  ratios are exact, but the reference clock's own extremes are rounded to
  whole hertz first. "A profile is refused only if a limit fails at some clock
  it admits" is therefore false: `RoundingCanRefuse` gives a profile refused
  for the rounding alone, and `AcceptedExactly` says for every profile exactly
  when that happens.
- The command line reads the bus frequency back after each change it asks for
  and, for display, once more at the end of a bus-frequency session. The model
  takes the frequency to change only through the CLI's own requests; a
  platform that changed it on its own would make the final report stale.
- A callback failure whose code is IN_PROGRESS ends the job like any other
  failure, but the poll that meets it answers OK; `PollStatus` keeps this.
- `_jobStep`, `_jobChannel`, the `_lastWrite` fields and the scalar `_scratch`
  fields of the driver form one record field; the fixture's per-channel arrays
  form one array of channel records, its unread mask one flag per channel.

## Model

| member | source | states |
|---|---|---|
| Runs.TrustIsSound | src/LDC1614.cpp:640-784 | In every state any run can reach, whatever the transport did: APPLIED_SLEEPING (APPLIED_ACTIVE) means every replay register of the variant holds its replay word with the sleep bit set (clear), that is, by numeric address and bit, what the profile demands of it (RCOUNT at 0x08+i, SETTLECOUNT at 0x10+i and so on), and no config fault is valid; APPLYING means a job with a confirmed write is active |
| Runs.IdentityIsFenced | src/LDC1614.cpp:453-462 | In every reachable state trust above UNKNOWN, admission of an apply job and every profile write a job ever made come only after both identity registers were read and matched since trust was last void; the evidence is read off the wire, not off the driver |
| Runs.EveryAdmissionSettlesOnce | src/LDC1614.cpp:874-901 | Between a bind and the next end the admitted ids in order are the delivered ids, then the queued ids, then the active id; live ids are distinct; an active job always has a free slot; each result settles its own admission, follows the pure program, and is SUCCESS exactly when the whole program was acknowledged |
| Runs.SamplesAreUntorn | src/LDC1614.cpp:786-872 | With conversions landing anywhere: each published count is that of one conversion; FRESH is set exactly when the channel converted after its unread mark was last cleared and before STATUS-before; DATA_LOST is set exactly when it converted again between its MSB read and STATUS-after; and no two fresh samples of a channel carry the same conversion |
| Runs.ResultsRepeatCalls | src/LDC1614.cpp:493-625 | Over every run each result repeats id, kind and mask of its call; it is TIMED_OUT exactly when a poll found the admitted deadline due, CANCELLED only by the owner; it carries a batch of the asked channels exactly when an acquisition succeeded, and its counters and read flag tell what the wire saw |
| Runs.ReplayShowsProfile | src/LDC1614.cpp:247-315 | A device that holds the replay of an accepted profile shows, register by register at its numeric address and bit positions, every field of the profile |
| HealthyRuns.HealthySessionSamples | src/LDC1614.cpp:370-1184 | On a healthy bus with the right part, bind, initialize, wake and acquire with in-time polls end awake with one SUCCESS result and one published sample for each selected channel |
| Outcomes.ApplyKeepsOutcomes | src/LDC1614.cpp:493-625 | Every event keeps deadlines, counters and outcomes of live and settled operations those of their calls |
| Runs.TranscriptsArePrefixes | src/LDC1614.cpp:523-543 | However polls are budgeted and whatever the bus does, the wire transcript of every admission is a prefix of one program, a pure function of kind, profile and mask, and all of it, acknowledged throughout, exactly for SUCCESS |
| Runs.RunKeepsInv | src/LDC1614.cpp:370-443 | The conjunction of all invariants survives any sequence of owner calls, conversions and power cycles against any transport script |
| Runs.ApplyKeepsInv | src/LDC1614.cpp:551-638 | One event keeps trust, fence, ledger, effect, acquisition and freshness invariants together |
| Runs.Reached | src/LDC1614.cpp:370-393 | The invariants hold at power-up of the driver object, hence in every reachable state |
| Runs.HoldsIsReplay | src/LDC1614.cpp:247-315 | The indexed image of the invariant is the replay image of the driver, register by register |
| Progress.HealthyJobSucceeds | src/LDC1614.cpp:551-595 | On an acknowledging bus with the right part, in-time nonzero polls carry every admitted job to exactly one SUCCESS result with its id |
| Trust.ApplyKeepsTrust | src/LDC1614.cpp:409-443 | No owner call, conversion or reported power cycle makes the trust state lie about the registers |
| Trust.StepKeepsTrust | src/LDC1614.cpp:640-784 | One transfer, acknowledged, lost or half-effective, keeps the trust state sound |
| Trust.TransfersKeepTrust | src/LDC1614.cpp:581-591 | Any number of transfers of one poll keeps it sound |
| Trust.ReplayStepKeepsTrust | src/LDC1614.cpp:737-782 | A replay write extends the confirmed prefix by exactly its own register, or leaves DIRTY when it may have reached the device |
| Trust.PrefixStepKeepsTrust | src/LDC1614.cpp:653-735 | Reset, identity and acquisition transfers never leave a stale claim about registers |
| Trust.ReplayOutcome | src/LDC1614.cpp:752-775 | Trust after a replay write: APPLYING while steps remain, APPLIED_SLEEPING with a cleared fault at the last, DIRTY on a failure that may have reached the device, untouched on a first-write address NACK |
| Trust.IdentityOutcome | src/LDC1614.cpp:711-735 | A matched identity pair raises UNKNOWN to DIRTY and nothing else; any failed or mismatched identity read leaves UNKNOWN |
| Trust.ResetOutcome | src/LDC1614.cpp:657-682 | A reset that was or may have been accepted leaves UNKNOWN; an address NACK changes neither trust nor fault |
| Trust.AcquireOutcome | src/LDC1614.cpp:786-872 | Acquisitions never change trust or fault and never write |
| Trust.HoldsExtends | src/LDC1614.cpp:247-315 | Writing the next replay word keeps all earlier ones: no step undoes another |
| Trust.HoldsSwitches | src/LDC1614.cpp:1140-1183 | Rewriting CONFIG turns a held sleeping image into the active one and back, touching no other replay word |
| Trust.AbandonKeepsTrust | src/LDC1614.cpp:554-563 | Cancellation or expiry dirties a partly replayed profile, names the last confirmed write in the fault, and leaves an untouched profile trusted |
| Trust.InvalidateKeepsTrust | src/LDC1614.cpp:627-638 | Whatever happened to the registers outside the driver, invalidation restores soundness and cancels the job |
| Trust.SleepOrWakeKeepsTrust | src/LDC1614.cpp:1126-1184 | Sleep and wake keep the claim true for success, loss and ambiguity of the CONFIG write |
| Trust.DirectAccessKeepsTrust | src/LDC1614.cpp:1205-1264 | A raw register write always withdraws the claim it may have broken; a raw read never needs to |
| Trust.StartKeepsTrust | src/LDC1614.cpp:493-545 | Admission keeps ids distinct and a result slot free |
| Fence.ApplyKeepsFence | src/LDC1614.cpp:640-784 | Every event keeps the wire evidence at least as strong as the trust state claims |
| Fence.StepKeepsFence | src/LDC1614.cpp:653-735 | Every transfer keeps it, and every profile write is issued under complete evidence |
| Fence.DirectKeepsFence | src/LDC1614.cpp:1240-1248 | A raw reset write voids evidence and trust together |
| Ledger.ApplyKeepsLedger | src/LDC1614.cpp:597-625 | Every event keeps admissions, transcripts and results in step |
| Ledger.StepKeepsLedger | src/LDC1614.cpp:581-595 | One transfer appends one program action to the transcript of the active admission and settles it exactly when the job ends |
| Ledger.AttemptRecord | src/LDC1614.cpp:652-872 | An attempt either advances by one transfer or ends the job; SUCCESS comes exactly with an acknowledged last transfer, so the zero division and the two fall-through branches of the poll loops cannot happen |
| Ledger.TakeKeepsLedger | src/LDC1614.cpp:615-625 | Taking a result moves the oldest queued one to the delivered ones and loses none |
| ResultRing.PushAppends | src/LDC1614.cpp:893-898 | Writing the tail slot of the two-slot ring appends to the queue and overwrites no unread result |
| ResultRing.PopRemovesOldest | src/LDC1614.cpp:620-623 | Clearing the head slot and stepping past it removes exactly the oldest result |
| Machine.CompleteAdvances | src/LDC1614.cpp:640-872 | For every status, word and progress: a job ends with one result or keeps id, kind, mask, deadline, profile and queue, and which of the two depends on status, action and progress alone |
| Machine.StepKeepsProgram | src/LDC1614.cpp:568-595 | An active job always has a transfer left, so the transfer budget is never divided by zero |
| Machine.AcquireActionShape | src/LDC1614.cpp:72-81 | The acquisition program: STATUS, then MSB and LSB of each selected channel in ascending order, then STATUS |
| Machine.ReplayActionShape | src/LDC1614.cpp:247-315 | Replay never resets, never touches STATUS, and writes CONFIG only first |
| Operations.BindAnswers | src/LDC1614.cpp:370-393 | Which answer a bind gives and the whole bound driver it leaves |
| Operations.EndAnswers | src/LDC1614.cpp:395-407 | The whole driver after an end |
| Operations.UpdateAnswers | src/LDC1614.cpp:409-443 | A profile update is accepted if and only if the driver is bound, idle and not active, the profile valid, the binding the same and a revision left; it dirties trust above UNKNOWN |
| Operations.StartAnswers | src/LDC1614.cpp:445-545 | Every start is refused for the first reason that applies, in the order of the checks, and then changes nothing |
| Operations.StartAdmits | src/LDC1614.cpp:493-545 | An admitted job carries the id, kind, mask, deadline and current revision of the call, with nothing done |
| Operations.PollExpires | src/LDC1614.cpp:551-567 | A poll at or past the deadline ends the job TIMED_OUT with its id, without touching the bus |
| Operations.PollAnswers | src/LDC1614.cpp:551-595 | The answer of a poll is IN_PROGRESS, OK or the failure of the result it left |
| Operations.ProgramIs | src/LDC1614.cpp:653-744 | What each transfer of a configuration job is, by address: the reset word, the two identity reads with the words they demand, then the replay |
| Operations.ReplayAddresses | src/LDC1614.cpp:247-315 | The order of the replay by address: CONFIG, five words a channel, error routing, MUX_CONFIG |
| Operations.WriteFails | src/LDC1614.cpp:657-775 | After a failed write of a job: one FAILED result, its effect flags, trust and the whole fault; only an address NACK before any confirmed write leaves trust and fault alone |
| Operations.IdentityFails | src/LDC1614.cpp:685-735 | A failed or wrong identity read ends the job with UNKNOWN and the fault at that register |
| Operations.ReadFails | src/LDC1614.cpp:786-872 | A failed acquisition read ends the job and leaves trust and fault alone |
| Operations.CancelAnswers | src/LDC1614.cpp:597-613 | A cancel queues one CANCELLED result of the active job and is bus-silent |
| Operations.InvalidateAnswers | src/LDC1614.cpp:627-638 | Invalidation leaves UNKNOWN, no job, and the given cause in the fault |
| Operations.TakeAnswers | src/LDC1614.cpp:615-625 | The oldest queued result is handed over and leaves the queue |
| Operations.SwitchAnswers | src/LDC1614.cpp:1126-1184 | Sleep and wake by state and status: from the opposite trusted state an acknowledged CONFIG write moves device bit and trust there, an address NACK moves neither, any other failure leaves DIRTY with the fault at CONFIG; from the target state OK and from any other CONFIG_DIRTY, both without a transfer |
| Operations.SwitchRefusals | src/LDC1614.cpp:1126-1184 | Unbound and busy drivers refuse both |
| Operations.RawWriteAnswers | src/LDC1614.cpp:1224-1264 | Which registers of which part a raw write reaches, what it leaves in the device, in trust and in the fault, for each status |
| Operations.RawReadAnswers | src/LDC1614.cpp:1205-1222 | Which registers of which part a raw read reaches and the word it delivers |
| WriteEffects.EndedJobEffects | src/LDC1614.cpp:752-768 | A poll or cancel that ends a configuration job with neither write flag left every register as at admission and the trust state too, except UNKNOWN after an identity failure and UNKNOWN raised to DIRTY by both identity reads |
| WriteEffects.PartialIsConfirmedWrite | src/LDC1614.cpp:764-767 | PARTIAL_WRITE is set exactly when the transcript holds a confirmed write, and the remembered place is that of the last one |
| WriteEffects.AbandonNamesLastWrite | src/LDC1614.cpp:597-612 | On cancel or expiry after a confirmed write the fault names the last confirmed write of the wire transcript, with the cause |
| WriteEffects.StepEffects | src/LDC1614.cpp:652-782 | One attempt keeps "no confirmed write, nothing changed" and ends honestly |
| WriteEffects.ApplyKeepsUntouched | src/LDC1614.cpp:597-638 | Every event keeps it |
| Deadlines.DueIsTrueComparison | src/LDC1614.cpp:28-31 | The wrapped 64-bit test equals comparison of true times if and only if they lie less than half the clock range apart |
| Deadlines.BudgetIsTrueDifference | src/LDC1614.cpp:568-576 | A deadline still ahead is ahead by the true difference, also across the wrap |
| Deadlines.PollTimeouts | src/LDC1614.cpp:568-581 | One poll hands each callback a timeout between 1 and the configured cap, at most maxTransfers of them, and their sum fits the time left |
| Deadlines.PollShares | src/LDC1614.cpp:568-591 | With n the least of what the caller allows, what the job still needs and the milliseconds left, every callback of a poll gets the largest timeout up to the cap that fits n times into the time left; a poll that leaves the job active made exactly n transfers |
| Deadlines.QuotientIsFair | src/LDC1614.cpp:577-580 | The capped quotient is that largest timeout |
| Deadlines.CallbacksEndByDeadline | src/LDC1614.cpp:568-591 | Callbacks that honour their timeouts have all ended when the deadline is reached |
| Deadlines.PollAdvances | src/LDC1614.cpp:551-595 | A nonzero poll advances or ends the active job |
| Deadlines.PollsEndAnyJob | src/LDC1614.cpp:551-595 | No job outlives as many nonzero polls as its program has transfers left |
| Deadlines.PollsAdd | src/LDC1614.cpp:568-591 | A poll of a + b is a poll of a then a poll of b at the same time, up to the timeouts handed out, unless the deadline clips the budget |
| Progress.PollsAddOnEveryBus | src/LDC1614.cpp:568-591 | In time and with the right part on the bus: splitting a poll changes nothing but timeouts whatever the bus does if and only if one half is empty or the deadline does not clip the joint budget, which the owner can tell from the snapshot before the call |
| Progress.ClippedSplitDiffers | src/LDC1614.cpp:570-576 | Where the deadline clips the joint budget, an acknowledging bus tells the two apart |
| Deadlines.PollsAddExactly | src/LDC1614.cpp:568-591 | For one given bus and two nonzero budgets, when the split makes a difference: the step from one bus to every bus |
| Sampling.ApplyKeepsAcquisition | src/LDC1614.cpp:786-872 | Every event keeps the meaning of what has been and is being sampled |
| Sampling.StepKeepsAcquisition | src/LDC1614.cpp:786-872 | Every transfer keeps it, publication included |
| Freshness.ApplyKeepsFreshness | src/LDC1614.cpp:903-984 | Every event keeps "fresh exactly if converted between the last clear and STATUS-before" true of what is sampled and of what was published |
| Freshness.PublishedFreshExactly | src/LDC1614.cpp:903-930 | STATUS-after publishes a channel as fresh exactly when it had converted by STATUS-before |
| Sampling.BatchPublished | src/LDC1614.cpp:903-984 | Everything STATUS-after publishes is one untorn conversion per channel, and what is fresh is newer than all published before |
| Sampling.ChannelStep | src/LDC1614.cpp:809-848 | A selected channel keeps its single-conversion knowledge over its own and the other channels' reads |
| Acquisition.TransferKeepsDevice | src/LDC1614.cpp:1024-1047 | Any transfer on any register, successful or failed at any depth, keeps each channel's words those of one conversion |
| Conversions.OkRead | test/support/FakeLdc1614Device.h:285-327 | A completed read latches, clears and strips exactly its own channel; unread afterwards means a later conversion |
| Conversions.AnyWrite | test/support/FakeLdc1614Device.h:329-342 | Writes, resets and sleeps never mix the words of two conversions |
| Conversions.InjectAllEvolves | test/support/FakeLdc1614Device.h:110-137 | Conversions replace the live words as a pair, raise unread and leave the shadow pair alone |
| Conversions.StatusShowsUnread | test/support/FakeLdc1614Device.h:150-164 | STATUS as decoded by the driver shows exactly the unread channels |
| Conversions.StatusShowsEvidence | test/support/FakeLdc1614Device.h:150-158 | STATUS as decoded by the driver gives back the sticky faults, data-ready and the channel they belong to |
| Conversions.ResetWords | test/support/FakeLdc1614Device.h:77-90 | The word of every address after a reset, and nothing unread |
| Conversions.ConversionWords | test/support/FakeLdc1614Device.h:110-121 | A conversion writes the two words of its count and error bits to its own channel and marks it unread |
| Conversions.ConversionEvidence | test/support/FakeLdc1614Device.h:122-137 | Only the first event since the last STATUS read sets faults, data-ready and their channel; data-ready only for the channel that ends the frame and only if routed |
| Conversions.SampleReadOnce | test/support/FakeLdc1614Device.h:285-327 | A completed MSB read delivers the count and, once, the error bits, latches the LSB that belongs to it, and takes the sticky evidence if it is the channel's own |
| Conversions.StatusReadClears | test/support/FakeLdc1614Device.h:305-313 | A completed STATUS read takes all evidence and no sample |
| Conversions.WrittenReadsBack | test/support/FakeLdc1614Device.h:329-342 | Other registers read back what was last written; only putting the device to sleep drops conversions |
| FakeDevice.FakeLdc1614Device.constructor | test/support/FakeLdc1614Device.h:75-75 | A new fixture is a reset device with no conversions |
| FakeDevice.FakeLdc1614Device.InjectConversion | test/support/FakeLdc1614Device.h:110-137 | Updates the arrays in place to the value model of one conversion, first sticky event kept |
| FakeDevice.FakeLdc1614Device.RunScheduledInjections | test/support/FakeLdc1614Device.h:357-363 | Any number of conversions between transfers, in order |
| FakeDevice.FakeLdc1614Device.StatusValue | test/support/FakeLdc1614Device.h:150-164 | The STATUS word of the latched evidence |
| FakeDevice.FakeLdc1614Device.ReadValue | test/support/FakeLdc1614Device.h:285-303 | Delivers the word and latches the shadow pair of an addressed MSB |
| FakeDevice.FakeLdc1614Device.ApplyReadSideEffects | test/support/FakeLdc1614Device.h:305-327 | The destructive part of a completed read |
| FakeDevice.FakeLdc1614Device.ApplyWrite | test/support/FakeLdc1614Device.h:329-342 | Register update, software reset and sleep clearing |
| FakeDevice.FakeLdc1614Device.ResetDevice | test/support/FakeLdc1614Device.h:77-90 | Reset values of every register and no conversion evidence |
| FakeDevice.FakeLdc1614Device.ClearConversionEvidence | test/support/FakeLdc1614Device.h:236-249 | All four channels and the sticky evidence cleared |
| FakeDevice.FakeLdc1614Device.LastConversionChannel | test/support/FakeLdc1614Device.h:251-261 | The channel whose conversion may raise data-ready |
| FakeDevice.FakeLdc1614Device.Write | test/support/FakeLdc1614Device.h:166-190 | One write callback under an adversary who may lose it, report it wrongly or let conversions follow |
| FakeDevice.FakeLdc1614Device.WriteRead | test/support/FakeLdc1614Device.h:192-222 | One read callback under the same adversary; a failed read may have latched or consumed |
| DriverRuns.Perform | src/LDC1614.cpp:370-638 | Any owner call, conversion or reported power cycle takes the driver object from its old abstract state to exactly the abstract machine's next one |
| DriverRuns.Execute | src/LDC1614.cpp:370-638 | Any sequence of them takes the object through the abstract run, so every theorem about runs holds of its fields |
| DriverRuns.Operate | src/LDC1614.cpp:640-784 | From construction through any run the trust field of the object tells the truth about the device's registers, also by numeric address and bit |
| CooperativeDriver.LDC1614.constructor | include/LDC1614/LDC1614.h:240-250 | A new driver is an initial system of the abstract machine |
| CooperativeDriver.LDC1614.Bind | src/LDC1614.cpp:370-393 | Takes the abstract machine's bind step, with the same answer |
| CooperativeDriver.LDC1614.End | src/LDC1614.cpp:395-407 | Discards job and queued results |
| CooperativeDriver.LDC1614.UpdateDesiredConfig | src/LDC1614.cpp:409-443 | Replaces the desired profile only while its replay is not active on the device |
| CooperativeDriver.LDC1614.StartJob | src/LDC1614.cpp:493-545 | The admission order of the abstract machine; refusals change nothing, an admission leaves the job with the call's id, kind, channels and deadline |
| CooperativeDriver.LDC1614.StartInitialize | src/LDC1614.cpp:445-451 | Admits the identify-and-replay program with its exact length, for the id and deadline of the call |
| CooperativeDriver.LDC1614.StartApplyConfig | src/LDC1614.cpp:453-462 | Admits the replay program, only above UNKNOWN, for the id and deadline of the call |
| CooperativeDriver.LDC1614.StartResetAndReapply | src/LDC1614.cpp:464-470 | Admits the reset program with its exact length, for the id and deadline of the call |
| CooperativeDriver.LDC1614.StartAcquire | src/LDC1614.cpp:472-491 | Admits an acquisition of the asked channels whose counted length is that of its program, for the id and deadline of the call |
| CooperativeDriver.LDC1614.OperationIdInUse | src/LDC1614.cpp:1002-1014 | Scans the ring for exactly the live ids |
| CooperativeDriver.LDC1614.Poll | src/LDC1614.cpp:551-595 | The two nested bounded loops take exactly the abstract poll step, snapshot and ring included, with the answer the abstract states dictate; every callback gets its fair share of the time left |
| CooperativeDriver.LDC1614.GetJobProgress | include/LDC1614/LDC1614.h:344-344 | The active snapshot names exactly the next transfer of the pure program, its counters and effects |
| CooperativeDriver.LDC1614.PollInitializeOrApply | src/LDC1614.cpp:640-784 | The inner loop makes the abstract transfers one by one until budget or job ends |
| CooperativeDriver.LDC1614.PollAcquire | src/LDC1614.cpp:786-872 | Likewise for acquisitions |
| CooperativeDriver.LDC1614.ResetStep | src/LDC1614.cpp:653-683 | The reset transfer is the abstract step |
| CooperativeDriver.LDC1614.IdentityStep | src/LDC1614.cpp:685-735 | Each identity read is the abstract step |
| CooperativeDriver.LDC1614.WriteStep | src/LDC1614.cpp:737-782 | Each replay write is the abstract step and re-aims the snapshot at the next one |
| CooperativeDriver.LDC1614.StatusBeforeStep | src/LDC1614.cpp:790-807 | STATUS-before is the abstract step |
| CooperativeDriver.LDC1614.MsbStep | src/LDC1614.cpp:809-828 | An MSB read is the abstract step |
| CooperativeDriver.LDC1614.LsbStep | src/LDC1614.cpp:830-848 | An LSB read is the abstract step and moves to the next selected channel |
| CooperativeDriver.LDC1614.StatusAfterStep | src/LDC1614.cpp:850-865 | STATUS-after is the abstract step and publishes the batch |
| CooperativeDriver.LDC1614.AdvanceAcquireChannel | src/LDC1614.cpp:72-81 | Re-aims snapshot and cursor at the program's next read |
| CooperativeDriver.LDC1614.FinishJob | src/LDC1614.cpp:874-901 | Publishes one terminal result at the ring's tail and clears the job |
| CooperativeDriver.LDC1614.CancelJob | src/LDC1614.cpp:597-613 | The abstract cancel; always OK, never a callback |
| CooperativeDriver.LDC1614.TakeResult | src/LDC1614.cpp:615-625 | The abstract take; the oldest result or RESULT_NOT_READY |
| CooperativeDriver.LDC1614.InvalidateAppliedState | src/LDC1614.cpp:627-638 | The abstract invalidation |
| CooperativeDriver.LDC1614.Sleep | src/LDC1614.cpp:1126-1154 | The abstract sleep; from APPLIED_ACTIVE an acknowledged write ends APPLIED_SLEEPING with the sleep bit set, an address NACK changes nothing, and other states make no transfer |
| CooperativeDriver.LDC1614.Wake | src/LDC1614.cpp:1156-1184 | The abstract wake; from APPLIED_SLEEPING an acknowledged write ends APPLIED_ACTIVE with the sleep bit clear, an address NACK changes nothing, and other states make no transfer |
| CooperativeDriver.LDC1614.ReadRegister16 | src/LDC1614.cpp:1205-1222 | The abstract raw read, word zero on failure |
| CooperativeDriver.LDC1614.WriteRegister16 | src/LDC1614.cpp:1224-1264 | The abstract raw write with its fault provenance |
| CooperativeDriver.LDC1614.ReadDeviceStatus | src/LDC1614.cpp:1076-1090 | A raw STATUS read, decoded |
| DriverFields.FinishedFields | src/LDC1614.cpp:874-901 | Clearing the job and appending its snapshot as a result is the abstract finish |
| DriverFields.NextIsSelected | src/LDC1614.cpp:61-70 | The scan for the next channel yields the selected channels in ascending order, then none |
| DriverFields.PhaseTells | src/LDC1614.cpp:790-869 | The phase alone identifies the program's next read; the invalid-phase branch cannot be reached |
| DriverFields.StepTells | src/LDC1614.cpp:643-744 | The step counter alone identifies the part of the program; the invalid-write branch cannot be reached |
| DriverFields.ReplayNextMeans | src/LDC1614.cpp:764-781 | A confirmed write leaves a snapshot naming the next program action |
| DriverFields.StartedMeans | src/LDC1614.cpp:493-545 | A fresh job's snapshot names its first program action |
| Validation.ValidateConfig | src/LDC1614.cpp:1302-1467 | The early-return chain accepts exactly the profiles whose rational limits hold at the integer clock extremes; every 64-bit intermediate fits |
| Validation.ReferenceClockBounds | src/LDC1614.cpp:347-358 | Clock extremes rounded outwards, without overflow |
| Validation.ValidateLimits | src/LDC1614.cpp:1424-1464 | The four integer cross products decide the four rational limits |
| Validation.FrefLimitExact | src/LDC1614.cpp:1424-1436 | The ceiling test is the rational fREF limit |
| Validation.WindowExact | src/LDC1614.cpp:1440-1448 | The window cross product is "a conversion lasts a divided sensor period" |
| Validation.OffsetExact | src/LDC1614.cpp:1449-1457 | The OFFSET cross product is the rational sensor-minimum limit |
| Validation.QuarterFrefExact | src/LDC1614.cpp:1458-1464 | The input cross product is fIN < fREF / 4 |
| Validation.AcceptedAtEveryClock | src/LDC1614.cpp:1384-1465 | An accepted profile meets all limits at every real clock of the tolerance interval, 35 to 55 MHz for the internal one |
| Validation.AcceptedExactly | src/LDC1614.cpp:1302-1467 | For every profile: the driver accepts it if and only if it is sound at every reference clock it admits and no selected channel loses an integer product to the rounding of the clock to whole hertz; it never accepts an unsound one |
| Acceptance.AcceptedIsListed | src/LDC1614.cpp:1302-1467 | Acceptance is exactly the list of numeric bounds on the profile, its mode, its clock with tolerance, its channels and their sensors, and the four limits |
| Acceptance.AcceptedMeans | src/LDC1614.cpp:1384-1465 | The four limits multiplied out, in numbers, at every clock an accepted profile admits |
| Validation.ChannelVerdictExactly | src/LDC1614.cpp:1384-1465 | For every accepted clock the verdict on a channel is the every-clock verdict if and only if not all four scaled products hold while one fails at the rounded extremes |
| Validation.EveryClockExactly | src/LDC1614.cpp:343-358 | A channel meets its four limits at every real clock of the interval if and only if four integer products hold at its true extremes |
| Validation.RoundingEffect | src/LDC1614.cpp:355-357 | Rounding never changes the fREF verdict and only ever turns the other three into refusals |
| Validation.ExactForWholeHertz | src/LDC1614.cpp:343-358 | Where the clock extremes are whole hertz nothing is lost to rounding |
| Validation.RoundingCanRefuse | src/LDC1614.cpp:355-357 | A whole profile that meets every requirement at every clock it admits and is refused for the rounding alone |
| Timing.EstimateFrameTiming | src/LDC1614.cpp:1589-1651 | For every accepted profile and legal mask the three estimates bound wake-up and settling time, conversion time and the whole first frame at every clock in exact rationals, and lie above the exact times at each channel's slowest clock, rounded down to one its divider divides, by the whole-microsecond roundings only; nothing overflows, and the transfer count is what an acquisition is admitted with |
| Timing.ChannelEstimate | src/LDC1614.cpp:1625-1644 | One channel's rounded times cover its exact times at every clock at least as fast, and exceed those at the slowest divided clock by less than one microsecond each |
| Timing.CeilCoversCycles | src/LDC1614.cpp:1626-1640 | Rounding the divided clock down and the quotient up never loses time |
| Timing.CeilNearlyExact | src/LDC1614.cpp:343-346 | A quotient rounded up is less than one above the exact one |
| Registers.ReplayRegistersDistinct | src/LDC1614.cpp:247-315 | Every step writes its own persistent register and the step can be recovered from the register |
| Registers.ReservedBitsLegal | src/LDC1614.cpp:191-233 | Reserved bits of every replay word carry the demanded values |
| Registers.ConfigBits | src/LDC1614.cpp:191-221 | Each bit of the CONFIG word, at its numeric position, means exactly its profile field |
| Registers.MuxBits | src/LDC1614.cpp:223-233 | Each field of the MUX_CONFIG word, at its numeric position, means its profile field |
| Registers.ChannelFieldsReadBack | src/LDC1614.cpp:281-296 | The packed divider and drive words give their fields back |
| Registers.SleepBit | src/LDC1614.cpp:191-201 | The sleeping and active CONFIG words differ in the sleep bit only |
| Registers.ImageDeterminesProfile | src/LDC1614.cpp:247-315 | Two profiles with the same replay image agree on every field a register can show |
| Registers.ErrorRegisterDetermines | src/LDC1614.cpp:1469-1485 | Error routing can be read back from its register |
| RegisterMap.StepShows | src/LDC1614.cpp:247-315 | Every replay step leaves what the profile demands at its numeric address: counts and offsets whole, dividers, drive, error routing, CONFIG and MUX_CONFIG bit by bit |
| RegisterMap.MapStep | src/LDC1614.cpp:247-315 | Every persistent register of the part is written by one replay step, CONFIG by the first |
| RegisterMap.StepInMap | src/LDC1614.cpp:247-315 | The replay writes no other register |
| Readback.ExpectedConfigurationRegister | src/LDC1614.cpp:1277-1300 | Answers for exactly the registers of an accepted profile, with the replay value and mask of the one step that writes it: by numeric address and bit what the profile demands, under the numeric mask of the register |
| Readback.TrustedDeviceMatches | src/LDC1614.cpp:317-341 | What a trusted device holds, asleep or awake, passes the comparison on every profile register |
| Readback.MatchingDeviceShowsProfile | src/LDC1614.cpp:317-341 | Passing the comparison on every register pins down the whole register-visible profile: the masks hide nothing a profile can choose |
| Readback.RawWritesAreReplayable | src/LDC1614.cpp:125-141 | The registers a raw write may touch are RESET_DEV and exactly those the replay of the profile restores |
| Readback.ReplayIsWritable | src/LDC1614.cpp:147-189 | Raw-write provenance names the phase and channel under which the replay writes the same register |
| Profile.Popcount | src/LDC1614.cpp:51-59 | The shifting count equals the number of selected channels |
| Profile.NextChannel | src/LDC1614.cpp:61-70 | The least selected channel above the given one, or none |
| Batches.BuildAcquisition | src/LDC1614.cpp:903-984 | The channel loop builds the specified batch: masks, merged quality and samples |
| Decoding.BatchMasks | src/LDC1614.cpp:910-980 | For all words: each selected channel is exactly one of fresh and stale, valid is fresh without error, overrun and error masks agree with the published quality |
| Decoding.EvidenceMembership | src/LDC1614.cpp:910-913 | Fresh and overrun are the selected unread channels of the two STATUS reads and nothing outside the selection |
| Decoding.VerdictMembership | src/LDC1614.cpp:964-980 | Valid and error bits follow the merged quality and stay within the selection |
| HilRunner.BatchEvidenceFailure | tools/ldc1614_hil_runner.py:1042-1124 | The hardware-in-the-loop runner accepts a record if and only if it is exactly what the driver publishes for the record's raw words, of the channels the command asked for, with plausible frequencies and, with a sensor attached, fresh faultless samples within bounds |
| HilRunner.SensorBatchIsClean | tools/ldc1614_hil_runner.py:1121-1124 | A record accepted with a sensor attached means the driver's own batch has every selected channel fresh and valid and none overrun or in error |
| HilRunner.SelectionFails | tools/ldc1614_hil_runner.py:1044-1050 | The selected mask is the requested one, or the requested channel alone |
| HilRunner.QualityAgreement | tools/ldc1614_hil_runner.py:1091-1108 | Both implementations compute the same quality word for all STATUS and DATA words |
| HilRunner.RowFails | tools/ldc1614_hil_runner.py:1085-1123 | One row is accepted exactly when its words, quality and verdict bits are the driver's and its frequency and bounds are plausible |
| HilRunner.StatusLineFails | tools/ldc1614_hil_runner.py:1062-1071 | A status line is accepted exactly when it decodes its raw word |
| HilRunner.HeaderFails | tools/ldc1614_hil_runner.py:1042-1076 | Masks and status lines are accepted exactly when they follow the raw STATUS words and the request |
| BusHandles.Context.constructor | examples/esp32/I2cMasterTransport.h:37-47 | A new context owns no handle |
| BusHandles.Context.Open | examples/esp32/I2cMasterTransport.cpp:108-155 | All or nothing; after a failed rollback the context still owns the live bus |
| BusHandles.Context.Close | examples/esp32/I2cMasterTransport.cpp:157-186 | Success exactly when nothing is left alive; a refusal keeps what still is |
| BusHandles.Context.Reopen | examples/esp32/I2cMasterTransport.cpp:188-200 | Only a fully closed context reopens, with its recorded configuration |
| BusHandles.Context.Recover | examples/esp32/I2cMasterTransport.cpp:202-228 | Success means fresh handles at the recorded frequency; the inconsistent-handles answer is unreachable |
| BusHandles.Context.SetFrequency | examples/esp32/I2cMasterTransport.cpp:234-285 | The recorded frequency changes exactly when the device runs at it; a failed change leaves the old one recorded on every path |
| BusHandles.Context.ReadRegisterAt | examples/esp32/I2cMasterTransport.cpp:339-386 | Each transaction uses a live handle on the live bus, set to the asked address and the recorded frequency |
| CliRuns.Operate | examples/common/Ldc1614Cli.cpp:3367-4212 | After any sequence of command lines and scheduler passes on any bus: every report's counters are the tally of the items judged where they happened, SUCCESS means that no item went wrong and none asked for is missing, FAILED that one did; and each call took exactly the step its contract tells |
| DiagnosticCli.Cli.constructor | examples/common/Ldc1614Cli.cpp:773-774 | A new CLI owes no prompt and has no work |
| DiagnosticCli.Cli.Service | examples/common/Ldc1614Cli.cpp:3367-3391 | A pass polls the active job for one transfer and hands over its result, or hands over that of a cancelled one, or takes one step of the session; at most one transport callback; PRINT exactly when the pass ends the active work |
| DiagnosticCli.Cli.ProcessCommand | examples/common/Ldc1614Cli.cpp:4198-4212 | Each command makes its own driver call or session and nothing else; while work is active only a cancel does anything; at most one transport callback; PRINT exactly when no work is active afterwards; each accepted asynchronous command gets exactly one prompt, also through cancel |
| DiagnosticCli.Cli.DirectCommand | examples/common/Ldc1614Cli.cpp:3489-3740 | Which driver call each command for the idle driver makes, with which arguments; a frequency change invalidates a bound device unless the bus kept its frequency |
| DiagnosticCli.Cli.DrainResults | examples/common/Ldc1614Cli.cpp:3301-3342 | The drained result always matches the pending operation, goes to its owner and is judged there; a pending operation without job or result does not exist: both error branches are unreachable |
| DiagnosticCli.Cli.HandleSessionOperationResult | examples/common/Ldc1614Cli.cpp:3044-3280 | For each session kind, by outcome, status, batch and failed iteration: what a result does to counters, tally, phase and report; cancelled work ends its session at once |
| DiagnosticCli.Cli.JudgeSample | examples/common/Ldc1614Cli.cpp:3187-3240 | When a sample-rate batch is stale and when it is accepted |
| DiagnosticCli.Cli.FinishSession | examples/common/Ldc1614Cli.cpp:2308-2335 | SUCCESS is reported only with counters that are the tally, no item gone wrong and, for counted sessions, all requested iterations; a bus-frequency run also ends at its initial frequency with the profile replayed; a verify run has matched as many registers as the profile has and skipped none; a dump has read every register of its list the part has |
| DiagnosticCli.Cli.ScheduleCommandJob | examples/common/Ldc1614Cli.cpp:1868-1909 | A job command asks the driver for its kind and channels with the next id and its deadline from now, and becomes pending exactly when the driver admits it |
| DiagnosticCli.Cli.ScheduleSessionJob | examples/common/Ldc1614Cli.cpp:1935-1961 | Likewise for the job a session waits for |
| DiagnosticCli.Cli.ScheduleSessionAcquire | examples/common/Ldc1614Cli.cpp:1911-1933 | Likewise for acquisitions of the session's channels, with two seconds or the sample's own deadline, moving the session to its waiting phase |
| DiagnosticCli.Cli.StartSession | examples/common/Ldc1614Cli.cpp:1963-2064 | A session is refused for the first reason that applies and then leaves no trace, or begins with the asked count, mask, period and channel, its first phase, the time and the bus frequency, nothing counted, and owes a prompt |
| DiagnosticCli.Cli.StopActiveWork | examples/common/Ldc1614Cli.cpp:3344-3365 | A stop is bus-silent: it cancels the driver's job and marks its session, or ends a session between two operations at once |
| DiagnosticCli.Cli.AdvanceSession | examples/common/Ldc1614Cli.cpp:3022-3042 | One step of the running session is the step of its kind, with at most one transport callback |
| DiagnosticCli.Cli.AdvanceBusFrequencyStressSession | examples/common/Ldc1614Cli.cpp:2662-2738 | Iterations switch between 100 and 400 kHz, invalidate and ask for INITIALIZE; it is awaited only on an open bus at that frequency with trust voided; every refusal is counted and answered by restoring the initial frequency, a refused restore by failure; no step makes a transport callback |
| DiagnosticCli.Cli.AdvanceSamplingSession | examples/common/Ldc1614Cli.cpp:2337-2401 | Stopped, over, too late, due or not due: each ends, fails closed with one more failure counted, asks for one acquisition with its deadline, or waits, as the state and clock before the step dictate |
| DiagnosticCli.Cli.AdvanceMixedSession | examples/common/Ldc1614Cli.cpp:2403-2484 | Each step makes exactly the observation its phase names, in fixed order, then the acquisition; a missing INTB is skipped, any other trouble or a refused acquisition fails the iteration |
| DiagnosticCli.Cli.AdvanceProbeSession | examples/common/Ldc1614Cli.cpp:2486-2520 | A probe reads the two identity registers and passes exactly when both answered with the words of the part |
| DiagnosticCli.Cli.AdvanceDiscoverSession | examples/common/Ldc1614Cli.cpp:2522-2603 | Discovery reads both identity words at both addresses, one read a step, and succeeds exactly if some address answered with both |
| DiagnosticCli.Cli.AdvanceIdentityStressSession | examples/common/Ldc1614Cli.cpp:2605-2644 | An iteration passes only when both identity registers answered with their constants; the first wrong answer ends the session |
| DiagnosticCli.Cli.AdvanceResetStressSession | examples/common/Ldc1614Cli.cpp:2646-2660 | Each iteration asks for one reset-and-reapply; a refusal ends the session |
| DiagnosticCli.Cli.AdvanceDumpSession | examples/common/Ldc1614Cli.cpp:2740-2771 | Each step reads the next register of the list the part has, counts it once and moves past it; past the last one it reports |
| DiagnosticCli.Cli.AdvanceVerifySession | examples/common/Ldc1614Cli.cpp:2773-2840 | Each step compares the next register of the profile, under its mask, with what the replay writes there; SUCCESS exactly if none differed and none was unreadable |
| DiagnosticCli.Cli.AdvanceSelfTestSession | examples/common/Ldc1614Cli.cpp:2842-3020 | Each step makes the check its phase names, in order, and counts it as passed, failed or skipped |
| DiagnosticCli.Cli.ReadDataReady | src/LDC1614.cpp:1092-1124 | Refused unless bound with data-ready routed and awake; a wired INTB answers without a transfer unless asserted; anything else reads STATUS once |
| DiagnosticCli.Cli.ReadInitDriveCurrent | src/LDC1614.cpp:1186-1203 | One read of the DRIVE_CURRENT register of a channel the part has |
| RegisterLists.ConfigRegistersAreProfile | examples/common/Ldc1614Cli.cpp:371-384 | The available configuration registers are exactly those the replay of an accepted profile writes |
| RegisterLists.ConfigRegisterCount | examples/common/Ldc1614Cli.cpp:371-384 | There are as many of them as the replay has writes |
| RegisterLists.ConfigRegistersDistinct | examples/common/Ldc1614Cli.cpp:371-384 | The configuration list names no register twice |
| RegisterLists.AllRegistersAscend | examples/common/Ldc1614Cli.cpp:386-404 | The full list names no register twice |
| CliDevice.PollOne | examples/common/Ldc1614Cli.cpp:3369-3373 | A poll of one transfer keeps the one live operation live, makes at most one callback, and a queued success tells the truth about trust or batch |
| CliDevice.StartLive | src/LDC1614.cpp:493-545 | An admission on a quiet driver makes exactly that operation live; a refusal changes nothing |
| CliDevice.CancelLive | src/LDC1614.cpp:597-613 | Cancelling keeps the operation correlated through its queued result |

## Left out

- Status message strings and numeric `detail` values: only codes and classes matter to the properties.
- Transport statistics, the nominal drive-current table and the floating-point sensor frequency: easy members; the CLI model takes "frequency available" and "within bounds" as inputs.
- The native I2C callbacks, GPIO and clocks: parameters of each call, or the adversary's choice.
- INTB level and the `intbAsserted` latch of the fixture: observed by no modelled property; the CLI model takes the callback's answer as input.
- The fixture's address check, transfer log and call counters: the transport adversary covers a NACKed address.
- Configurations whose enumerations hold values outside their declared members: the model's types exclude them.
- CLI parsing, printing, profile staging, help and name tables; latency and per-channel statistics of a session; the `sd` and `busrecover` commands, which act on the driver as an invalidation.
- The ready flag of `readDataReady` and the decoded drive current: displayed only, their transfers and answers are modelled.
- The three checks of the self test on constants (drive-current table, zero words, error encoder): counted as passed.
- The native ESP-IDF command line: it is checked as a copy elsewhere in the repository.
- The hardware-in-the-loop runner's regular expressions and number parsing: the model starts from parsed fields.
- Transfer statistics of the ESP32 context and the INTB pin read.
- Handles passed between several contexts of one bus: the model has one context per native driver.
- Deadlines.PollsAdd: compares everything but the timeouts handed to callbacks, which a smaller budget makes larger; where the deadline clips the budget the equality fails on some bus, and `Progress.PollsAddOnEveryBus` says exactly when.
- Deadlines.PollsAddExactly: speaks of one given bus, so its condition names what that bus does; `Progress.PollsAddOnEveryBus` is the form an owner can check.
- Deadlines.CallbacksEndByDeadline: callbacks run back to back from the poll's own time reading; time spent between callbacks is not modelled.
- DiagnosticCli.Cli.Service: assumes, as the CLI does, that nothing else calls the driver.
