/** Deadlines, callback budgets, progress and the irrelevance of how polls
    divide a job's transfers. */
module Deadlines {
  import opened CommandTable
  import opened Profile
  import opened DriverTypes
  import opened Registers
  import opened Validation
  import opened Decoding
  import opened Chip
  import opened Machine
  import opened Engine
  import opened Trust

  // ----- wrapped time -------------------------------------------------------

  /** The 64-bit clock reading at true time `t`. */
  function Wrapped(t: int): uint64 { t % TWO_TO_THE_64 }

  lemma WrapOnce(t: int)
    requires -TWO_TO_THE_64 <= t < TWO_TO_THE_64
    ensures Wrapped(t) == if t < 0 then t + TWO_TO_THE_64 else t
  {
  }

  lemma DifferenceWraps(a: int, b: int)
    ensures WrappedDifference(Wrapped(a), Wrapped(b)) == Wrapped(a - b)
  {
    var qa, qb := a / TWO_TO_THE_64, b / TWO_TO_THE_64;
    var q := (Wrapped(a) - Wrapped(b)) / TWO_TO_THE_64;
    assert a - b == (qa - qb + q) * TWO_TO_THE_64 + (Wrapped(a) - Wrapped(b)) % TWO_TO_THE_64;
    UniqueRemainder(a - b, qa - qb + q, (Wrapped(a) - Wrapped(b)) % TWO_TO_THE_64);
  }

  lemma UniqueRemainder(n: int, q: int, r: int)
    requires n == q * TWO_TO_THE_64 + r && 0 <= r < TWO_TO_THE_64
    ensures n % TWO_TO_THE_64 == r
  {
    assert (n / TWO_TO_THE_64 - q) * TWO_TO_THE_64 == r - n % TWO_TO_THE_64;
  }

  /** Comparison of wrapped readings is comparison of true times exactly when
      the two times are less than half the clock range apart. */
  lemma DueIsTrueComparison(now: int, deadline: int)
    requires -TWO_TO_THE_64 < now - deadline < TWO_TO_THE_64
    ensures (DueOrPast(Wrapped(now), Wrapped(deadline)) <==> now >= deadline)
      <==> -TWO_TO_THE_63 <= now - deadline < TWO_TO_THE_63
  {
    DifferenceWraps(now, deadline);
    WrapOnce(now - deadline);
  }

  /** A deadline still ahead is ahead by the true difference. */
  lemma BudgetIsTrueDifference(now: int, deadline: int)
    requires -TWO_TO_THE_63 <= now - deadline < TWO_TO_THE_63 && !DueOrPast(Wrapped(now), Wrapped(deadline))
    ensures WrappedDifference(Wrapped(deadline), Wrapped(now)) == deadline - now > 0
  {
    DueIsTrueComparison(now, deadline);
    DifferenceWraps(deadline, now);
    WrapOnce(deadline - now);
  }

  // ----- one poll -----------------------------------------------------------

  lemma StepTimeout(script: Script, s: System, now: uint64, timeout: nat)
    requires s.driver.job.Some? && JobInProgram(s.driver)
    ensures var after := TransferStep(script, s, now, timeout);
      after.seen.timeouts == s.seen.timeouts + [timeout] && |after.seen.log| == |s.seen.log| + 1
  {
    hide Complete, Written, AfterRead, ReadValue, CurrentAction, PublishSelected, PublishedBatch, MaxTransfers,
      LatchedAfter, ConvertedAfter;
  }

  lemma StepAdvances(script: Script, s: System, now: uint64, timeout: nat)
    requires s.driver.job.Some? && JobInProgram(s.driver)
    ensures var after := TransferStep(script, s, now, timeout);
      && after.seen.timeouts == s.seen.timeouts + [timeout] && |after.seen.log| == |s.seen.log| + 1
      && (after.driver.job.Some? ==>
           && after.driver.job.value.done == s.driver.job.value.done + 1
           && after.driver.job.value.deadlineMs == s.driver.job.value.deadlineMs
           && MaxTransfers(after.driver, after.driver.job.value) == MaxTransfers(s.driver, s.driver.job.value)
           && after.driver.config == s.driver.config)
  {
    hide Complete, Written, AfterRead, ReadValue, CurrentAction, ProgramLength, TransferStep;
    StepTimeout(script, s, now, timeout);
    StepDriver(script, s, now, timeout);
    var action := CurrentAction(s.driver);
    CompleteAdvances(s.driver, action, script(|s.seen.log|).status,
                     if action.write then action.value else ReadValue(s.device, action.register), now);
  }

  function Repeated(timeout: nat, n: nat): seq<nat> { seq(n, _ => timeout) }

  function Sum(xs: seq<nat>): nat {
    if xs == [] then 0 else xs[0] + Sum(xs[1..])
  }

  lemma {:induction false} SumRepeated(timeout: nat, n: nat)
    ensures Sum(Repeated(timeout, n)) == n * timeout
  {
    if n > 0 {
      assert Repeated(timeout, n)[1..] == Repeated(timeout, n - 1);
      SumRepeated(timeout, n - 1);
    }
  }

  /** `remaining` transfers advance an unfinished job by exactly that many, and
      every callback gets the same timeout. */
  lemma {:induction false} TransfersAdvance(script: Script, s: System, now: uint64, timeout: nat, remaining: nat)
    returns (made: nat)
    requires JobInProgram(s.driver)
    ensures made <= remaining && (s.driver.job.Some? && remaining > 0 ==> made > 0)
    ensures var after := Transfers(script, s, now, timeout, remaining);
      && JobInProgram(after.driver)
      && after.seen.timeouts == s.seen.timeouts + Repeated(timeout, made) && |after.seen.log| == |s.seen.log| + made
      && (after.driver.job.Some? ==>
           && s.driver.job.Some? && made == remaining
           && after.driver.job.value.done == s.driver.job.value.done + remaining
           && after.driver.job.value.deadlineMs == s.driver.job.value.deadlineMs
           && MaxTransfers(after.driver, after.driver.job.value) == MaxTransfers(s.driver, s.driver.job.value)
           && after.driver.config == s.driver.config)
    decreases remaining
  {
    hide TransferStep, MaxTransfers;
    if remaining == 0 || s.driver.job.None? {
      made := 0;
      assert s.seen.timeouts + Repeated(timeout, 0) == s.seen.timeouts;
    } else {
      var next := TransferStep(script, s, now, timeout);
      StepKeepsProgram(script, s, now, timeout);
      StepAdvances(script, s, now, timeout);
      var rest := TransfersAdvance(script, next, now, timeout, remaining - 1);
      made := rest + 1;
      assert s.seen.timeouts + [timeout] + Repeated(timeout, rest) == s.seen.timeouts + Repeated(timeout, made);
    }
  }

  lemma BudgetBounds(d: Driver, now: uint64, maxTransfers: uint8)
    requires d.job.Some? && JobInProgram(d) && d.config.i2cTimeoutMs > 0
    requires PollBudget(d, now, maxTransfers) > 0
    ensures 1 <= PollTimeout(d, now, maxTransfers) <= d.config.i2cTimeoutMs
    ensures PollBudget(d, now, maxTransfers) * PollTimeout(d, now, maxTransfers)
      <= WrappedDifference(d.job.value.deadlineMs, now)
    ensures PollBudget(d, now, maxTransfers) <= maxTransfers
  {
    hide MaxTransfers;
    var budget, left := PollBudget(d, now, maxTransfers), WrappedDifference(d.job.value.deadlineMs, now);
    assert budget <= left;
    QuotientFits(left, budget);
    if PollTimeout(d, now, maxTransfers) < left / budget {
      Monotone(budget, PollTimeout(d, now, maxTransfers), left / budget);
    }
  }

  lemma QuotientFits(left: nat, budget: nat)
    requires 0 < budget <= left
    ensures left / budget >= 1 && budget * (left / budget) <= left
  {
  }

  lemma Monotone(k: nat, a: nat, b: nat)
    requires a <= b
    ensures k * a <= k * b
  {
  }

  /** What one poll hands its callbacks: at most `maxTransfers` timeouts, each
      between 1 and the configured cap, and together within the time left. */
  lemma PollTimeouts(script: Script, s: System, now: uint64, maxTransfers: uint8) returns (made: seq<nat>)
    requires Trusted(s)
    ensures JobInProgram(s.driver)
    ensures Poll(script, s, now, maxTransfers).seen.timeouts == s.seen.timeouts + made
    ensures |Poll(script, s, now, maxTransfers).seen.log| == |s.seen.log| + |made| && |made| <= maxTransfers
    ensures forall i :: 0 <= i < |made| ==> 1 <= made[i] <= s.driver.config.i2cTimeoutMs
    ensures made != [] ==> s.driver.job.Some? && !DueOrPast(now, s.driver.job.value.deadlineMs)
    ensures s.driver.job.Some? ==> Sum(made) <= WrappedDifference(s.driver.job.value.deadlineMs, now)
  {
    hide Trusted, Transfers, Abandon, PollBudget, PollTimeout;
    TrustedParts(s);
    made := [];
    assert s.seen.timeouts + [] == s.seen.timeouts;
    if s.driver.job.Some? && !DueOrPast(now, s.driver.job.value.deadlineMs)
       && PollBudget(s.driver, now, maxTransfers) > 0 {
      CapPositive(s);
      var timeout, budget := PollTimeout(s.driver, now, maxTransfers), PollBudget(s.driver, now, maxTransfers);
      BudgetBounds(s.driver, now, maxTransfers);
      var n := TransfersAdvance(script, s, now, timeout, budget);
      made := Repeated(timeout, n);
      SumRepeated(timeout, n);
      Monotone(timeout, n, budget);
    }
  }

  /** `t` is the largest timeout up to `cap` that `n` transfers can each use
      within `left` milliseconds. */
  predicate FairShare(t: nat, cap: nat, left: nat, n: nat) {
    t <= cap && n * t <= left && (t == cap || left < n * (t + 1))
  }

  function Least(a: nat, b: nat, c: nat): nat {
    if a <= b && a <= c then a else if b <= c then b else c
  }

  lemma QuotientIsFair(left: nat, n: nat, cap: nat)
    requires n > 0
    ensures FairShare(if left / n < cap then left / n else cap, cap, left, n)
  {
    var q := left / n;
    assert n * q <= left < n * (q + 1);
    if cap <= q { Monotone(n, cap, q); }
  }

  /** Every callback of a poll gets the fair share of the time left: with `n`
      the least of what the caller allows, what the job still needs and the
      milliseconds left, the largest timeout up to the cap that fits `n` times.
      A poll that leaves the job active made exactly `n` transfers. */
  lemma PollShares(script: Script, s: System, now: uint64, maxTransfers: uint8) returns (made: seq<nat>)
    requires JobInProgram(s.driver)
    ensures Poll(script, s, now, maxTransfers).seen.timeouts == s.seen.timeouts + made
    ensures made != [] ==> s.driver.job.Some? && !DueOrPast(now, s.driver.job.value.deadlineMs)
    ensures s.driver.job.Some? ==>
      var left := WrappedDifference(s.driver.job.value.deadlineMs, now);
      var n := Least(maxTransfers, MaxTransfers(s.driver, s.driver.job.value) - s.driver.job.value.done, left);
      && (forall i :: 0 <= i < |made| ==> FairShare(made[i], s.driver.config.i2cTimeoutMs, left, n))
      && (Poll(script, s, now, maxTransfers).driver.job.Some? ==> |made| == n)
  {
    hide Transfers, Abandon, MaxTransfers, FairShare;
    made := [];
    assert s.seen.timeouts + [] == s.seen.timeouts;
    if s.driver.job.Some? {
      if DueOrPast(now, s.driver.job.value.deadlineMs) {
        AbandonGoesIdle(s.driver, TIMED_OUT, TIMEOUT, now);
      } else if PollBudget(s.driver, now, maxTransfers) > 0 {
        var timeout, budget := PollTimeout(s.driver, now, maxTransfers), PollBudget(s.driver, now, maxTransfers);
        QuotientIsFair(WrappedDifference(s.driver.job.value.deadlineMs, now), budget, s.driver.config.i2cTimeoutMs);
        var n := TransfersAdvance(script, s, now, timeout, budget);
        made := Repeated(timeout, n);
      }
    }
  }

  lemma CapPositive(s: System)
    requires Trusted(s) && s.driver.job.Some?
    ensures s.driver.config.i2cTimeoutMs > 0
  {
    hide Holds, QueueInv, JobInv, ChannelAccepted;
  }

  lemma {:induction false} SumMonotone(taken: seq<nat>, allowed: seq<nat>)
    requires |taken| <= |allowed| && forall i :: 0 <= i < |taken| ==> taken[i] <= allowed[i]
    ensures Sum(taken) <= Sum(allowed)
  {
    if taken != [] {
      SumMonotone(taken[1..], allowed[1..]);
    }
  }

  /** Callbacks that honour their timeouts, run back to back from true time
      `now`, have all ended when the deadline is reached. */
  lemma CallbacksEndByDeadline(script: Script, s: System, now: int, deadline: int, maxTransfers: uint8, made: seq<nat>,
                               durations: seq<nat>)
    requires Trusted(s) && s.driver.job.Some? && s.driver.job.value.deadlineMs == Wrapped(deadline)
    requires -TWO_TO_THE_63 <= now - deadline < TWO_TO_THE_63 && JobInProgram(s.driver)
    requires made != [] && Poll(script, s, Wrapped(now), maxTransfers).seen.timeouts == s.seen.timeouts + made
    requires |durations| <= |made| && forall i :: 0 <= i < |durations| ==> durations[i] <= made[i]
    ensures now + Sum(durations) <= deadline
  {
    hide Trusted, Poll, DueOrPast, WrappedDifference;
    var observed := PollTimeouts(script, s, Wrapped(now), maxTransfers);
    assert (s.seen.timeouts + observed)[|s.seen.timeouts|..] == observed;
    assert (s.seen.timeouts + made)[|s.seen.timeouts|..] == made;
    BudgetIsTrueDifference(now, deadline);
    SumMonotone(durations, made);
  }

  // ----- termination --------------------------------------------------------

  /** An in-time poll with a nonzero budget advances or ends the job; a late
      poll ends it. */
  lemma PollAdvances(script: Script, s: System, now: uint64, maxTransfers: uint8)
    requires Trusted(s) && s.driver.job.Some? && maxTransfers > 0
    ensures JobInProgram(s.driver)
    ensures var after := Poll(script, s, now, maxTransfers).driver;
      after.job.Some? ==>
        && after.job.value.done > s.driver.job.value.done
        && MaxTransfers(after, after.job.value) == MaxTransfers(s.driver, s.driver.job.value)
  {
    hide Trusted, Transfers, Abandon, MaxTransfers, PollTimeout;
    TrustedParts(s);
    if DueOrPast(now, s.driver.job.value.deadlineMs) {
      AbandonKeepsTrust(s.driver, s.device.regs, TIMED_OUT, TIMEOUT, now);
    } else {
      InTimeBudget(s.driver, now, maxTransfers);
      var made := TransfersAdvance(script, s, now, PollTimeout(s.driver, now, maxTransfers),
                                   PollBudget(s.driver, now, maxTransfers));
    }
  }

  lemma InTimeBudget(d: Driver, now: uint64, maxTransfers: uint8)
    requires d.job.Some? && JobInProgram(d) && maxTransfers > 0 && !DueOrPast(now, d.job.value.deadlineMs)
    ensures PollBudget(d, now, maxTransfers) > 0
  {
    hide MaxTransfers;
    assert WrappedDifference(d.job.value.deadlineMs, now) > 0;
  }

  datatype PollCall = PollCall(now: uint64, maxTransfers: uint8)

  ghost function Polls(script: Script, s: System, calls: seq<PollCall>): (after: System)
    requires Trusted(s)
    ensures Trusted(after)
    decreases |calls|
  {
    if calls == [] then s
    else
      TrustedParts(s);
      PollKeepsTrust(script, s, calls[0].now, calls[0].maxTransfers);
      Polls(script, Poll(script, s, calls[0].now, calls[0].maxTransfers), calls[1..])
  }

  /** No job outlives as many nonzero polls as its program has transfers left,
      whatever the clock says. */
  lemma {:induction false} PollsEndAnyJob(script: Script, s: System, calls: seq<PollCall>)
    requires Trusted(s) && forall i :: 0 <= i < |calls| ==> calls[i].maxTransfers > 0
    requires s.driver.job.Some? ==> |calls| >= MaxTransfers(s.driver, s.driver.job.value) - s.driver.job.value.done
    ensures Polls(script, s, calls).driver.job.None?
    decreases |calls|
  {
    hide Trusted, Poll, MaxTransfers;
    InProgram(s);
    if calls != [] {
      var next := Poll(script, s, calls[0].now, calls[0].maxTransfers);
      PollKeepsTrust(script, s, calls[0].now, calls[0].maxTransfers);
      if s.driver.job.Some? {
        PollAdvances(script, s, calls[0].now, calls[0].maxTransfers);
      } else {
        IdlePoll(script, s, calls[0].now, calls[0].maxTransfers);
      }
      PollsEndAnyJob(script, next, calls[1..]);
    }
  }

  lemma InProgram(s: System)
    requires Trusted(s)
    ensures JobInProgram(s.driver)
    ensures s.driver.job.Some? ==> s.driver.job.value.done < MaxTransfers(s.driver, s.driver.job.value)
  {
    hide MaxTransfers, QueueInv, JobInv, Accepted, Holds;
  }

  lemma IdlePoll(script: Script, s: System, now: uint64, maxTransfers: uint8)
    requires s.driver.job.None?
    ensures JobInProgram(s.driver) && Poll(script, s, now, maxTransfers) == s
  {
  }

  // ----- how polls divide a job does not matter -----------------------------

  /** Equal but for the timeouts handed to callbacks. */
  predicate SameButTimeouts(a: System, b: System) {
    a.driver == b.driver && a.device == b.device && SameObservation(a.seen, b.seen)
  }

  predicate SameObservation(a: Observer, b: Observer) { a.(timeouts := []) == b.(timeouts := []) }

  lemma ObservationIgnoresTimeout(a: Observer, b: Observer, device: Device, action: Action, value: bv16, status: Err,
                                  ta: nat, tb: nat)
    requires SameObservation(a, b)
    ensures SameObservation(ObserveTransfer(a, device, true, action.write, action.register, value, status, ta),
                            ObserveTransfer(b, device, true, action.write, action.register, value, status, tb))
  {
    hide LatchedAfter, ConvertedAfter;
  }

  lemma ResultIgnoresTimeout(a: Observer, b: Observer, device: Device, before: Driver, after: Driver)
    requires SameObservation(a, b)
    ensures SameObservation(ObserveResult(a, device, before, after), ObserveResult(b, device, before, after))
  {
    hide PublishedBatch, PublishSelected;
  }

  /** A transfer step with its observation spelled out. */
  lemma StepParts(script: Script, s: System, now: uint64, timeout: nat)
    requires s.driver.job.Some? && JobInProgram(s.driver)
    ensures var action := CurrentAction(s.driver);
      var choice := script(|s.seen.log|);
      var value := if action.write then action.value else ReadValue(s.device, action.register);
      TransferStep(script, s, now, timeout).seen
        == ObserveResult(ObserveTransfer(s.seen, s.device, true, action.write, action.register, value, choice.status,
                                         timeout),
                         s.device, s.driver, TransferStep(script, s, now, timeout).driver)
  {
    hide Complete, Written, AfterRead, ReadValue, CurrentAction, ObserveTransfer, ObserveResult, MaxTransfers;
  }

  lemma StepIgnoresTimeout(script: Script, a: System, b: System, now: uint64, ta: nat, tb: nat)
    requires SameButTimeouts(a, b) && a.driver.job.Some? && JobInProgram(a.driver)
    ensures SameButTimeouts(TransferStep(script, a, now, ta), TransferStep(script, b, now, tb))
  {
    hide Complete, Written, AfterRead, ReadValue, CurrentAction, ObserveTransfer, ObserveResult, MaxTransfers,
      TransferStep;
    StepDriver(script, a, now, ta);
    StepDriver(script, b, now, tb);
    StepParts(script, a, now, ta);
    StepParts(script, b, now, tb);
    var action := CurrentAction(a.driver);
    var status := script(|a.seen.log|).status;
    var value := if action.write then action.value else ReadValue(a.device, action.register);
    ObservationIgnoresTimeout(a.seen, b.seen, a.device, action, value, status, ta, tb);
    ResultIgnoresTimeout(ObserveTransfer(a.seen, a.device, true, action.write, action.register, value, status, ta),
                         ObserveTransfer(b.seen, b.device, true, action.write, action.register, value, status, tb),
                         a.device, a.driver, TransferStep(script, a, now, ta).driver);
  }

  lemma {:induction false} TransfersIgnoreTimeout(script: Script, a: System, b: System, now: uint64, ta: nat, tb: nat,
                                                  n: nat)
    requires SameButTimeouts(a, b) && JobInProgram(a.driver)
    ensures SameButTimeouts(Transfers(script, a, now, ta, n), Transfers(script, b, now, tb, n))
    decreases n
  {
    hide TransferStep, MaxTransfers;
    if n > 0 && a.driver.job.Some? {
      StepKeepsProgram(script, a, now, ta);
      StepKeepsProgram(script, b, now, tb);
      StepIgnoresTimeout(script, a, b, now, ta, tb);
      TransfersIgnoreTimeout(script, TransferStep(script, a, now, ta), TransferStep(script, b, now, tb), now, ta, tb,
                             n - 1);
    }
  }

  lemma {:induction false} TransfersCompose(script: Script, s: System, now: uint64, timeout: nat, m: nat, n: nat)
    requires JobInProgram(s.driver)
    ensures JobInProgram(Transfers(script, s, now, timeout, m).driver)
    ensures Transfers(script, s, now, timeout, m + n)
      == Transfers(script, Transfers(script, s, now, timeout, m), now, timeout, n)
    decreases m
  {
    hide TransferStep, MaxTransfers;
    if m > 0 && s.driver.job.Some? {
      StepKeepsProgram(script, s, now, timeout);
      TransfersCompose(script, TransferStep(script, s, now, timeout), now, timeout, m - 1, n);
    }
  }

  /** The deadline leaves at least one millisecond for each of `n` transfers,
      or for each the job still needs. */
  predicate NotClipped(d: Driver, now: uint64, n: nat)
    requires d.job.Some? && JobInProgram(d)
  {
    WrappedDifference(d.job.value.deadlineMs, now) >= Min(n, MaxTransfers(d, d.job.value) - d.job.value.done)
  }

  lemma PollIsTransfers(script: Script, s: System, now: uint64, n: uint8)
    requires s.driver.job.Some? && JobInProgram(s.driver) && !DueOrPast(now, s.driver.job.value.deadlineMs)
    requires NotClipped(s.driver, now, n)
    ensures var count := Min(n, MaxTransfers(s.driver, s.driver.job.value) - s.driver.job.value.done);
      SameButTimeouts(Poll(script, s, now, n), Transfers(script, s, now, 0, count))
  {
    hide Transfers, MaxTransfers;
    var count := Min(n, MaxTransfers(s.driver, s.driver.job.value) - s.driver.job.value.done);
    if count > 0 {
      TransfersIgnoreTimeout(script, s, s, now, PollTimeout(s.driver, now, n), 0, count);
    } else {
      NoTransfers(script, s, now, 0);
    }
  }

  lemma NoTransfers(script: Script, s: System, now: uint64, timeout: nat)
    requires JobInProgram(s.driver)
    ensures Transfers(script, s, now, timeout, 0) == s
    ensures s.driver.job.None? ==> forall n: nat :: Transfers(script, s, now, timeout, n) == s
  {
    hide TransferStep, MaxTransfers;
  }

  /** One poll of `a + b` transfers is a poll of `a` then a poll of `b` at the
      same time, up to the timeouts handed to the callbacks, unless the
      deadline clips the budget. */
  lemma PollsAdd(script: Script, s: System, now: uint64, a: uint8, b: uint8)
    requires a + b <= 0xFF && JobInProgram(s.driver)
    requires s.driver.job.Some? ==> NotClipped(s.driver, now, a + b)
    ensures JobInProgram(Poll(script, s, now, a).driver)
    ensures SameButTimeouts(Poll(script, s, now, a + b), Poll(script, Poll(script, s, now, a), now, b))
  {
    hide Transfers, MaxTransfers, Abandon, PollBudget, PollTimeout;
    if s.driver.job.Some? {
      if DueOrPast(now, s.driver.job.value.deadlineMs) {
        AbandonGoesIdle(s.driver, TIMED_OUT, TIMEOUT, now);
      } else {
        PollsAddInTime(script, s, now, a, b);
      }
    }
  }

  lemma AbandonGoesIdle(d: Driver, outcome: Outcome, status: Err, now: uint64)
    requires d.job.Some? && JobInProgram(d)
    ensures Abandon(d, outcome, status, now).job.None?
  {
    hide CurrentAction, MaxTransfers;
  }

  lemma PollsAddInTime(script: Script, s: System, now: uint64, a: uint8, b: uint8)
    requires a + b <= 0xFF && JobInProgram(s.driver) && s.driver.job.Some?
    requires NotClipped(s.driver, now, a + b) && !DueOrPast(now, s.driver.job.value.deadlineMs)
    ensures JobInProgram(Poll(script, s, now, a).driver)
    ensures SameButTimeouts(Poll(script, s, now, a + b), Poll(script, Poll(script, s, now, a), now, b))
  {
    hide Transfers, MaxTransfers, Abandon, PollBudget, PollTimeout, Poll;
    var rest := MaxTransfers(s.driver, s.driver.job.value) - s.driver.job.value.done;
    var first, both := Min(a, rest), Min(a + b, rest);
    PollIsTransfers(script, s, now, a + b);
    PollIsTransfers(script, s, now, a);
    var middle, ideal := Poll(script, s, now, a), Transfers(script, s, now, 0, first);
    var made := TransfersAdvance(script, s, now, 0, first);
    TransfersCompose(script, s, now, 0, first, both - first);
    TransfersIgnoreTimeout(script, middle, ideal, now, 0, 0, both - first);
    if middle.driver.job.Some? {
      assert both - first == Min(b, rest - first);
      PollIsTransfers(script, middle, now, b);
    } else {
      NoTransfers(script, middle, now, 0);
      IdlePoll(script, middle, now, b);
    }
  }

  // ----- and exactly when it does -------------------------------------------

  lemma PollIsBudget(script: Script, s: System, now: uint64, n: uint8)
    requires s.driver.job.Some? && JobInProgram(s.driver) && !DueOrPast(now, s.driver.job.value.deadlineMs)
    ensures SameButTimeouts(Poll(script, s, now, n), Transfers(script, s, now, 0, PollBudget(s.driver, now, n)))
  {
    hide Transfers, MaxTransfers, PollBudget, PollTimeout;
    var budget := PollBudget(s.driver, now, n);
    if budget > 0 {
      TransfersIgnoreTimeout(script, s, s, now, PollTimeout(s.driver, now, n), 0, budget);
    } else {
      NoTransfers(script, s, now, 0);
    }
  }

  /** Once the job has ended further transfers change nothing. */
  lemma TransfersStay(script: Script, s: System, now: uint64, m: nat, n: nat)
    requires JobInProgram(s.driver) && m <= n && Transfers(script, s, now, 0, m).driver.job.None?
    ensures Transfers(script, s, now, 0, n) == Transfers(script, s, now, 0, m)
  {
    hide Transfers, MaxTransfers;
    TransfersCompose(script, s, now, 0, m, n - m);
    NoTransfers(script, Transfers(script, s, now, 0, m), now, 0);
  }

  /** A poll of `a` then of `b` attempts this many transfers in all. */
  function SplitBudget(d: Driver, now: uint64, a: uint8, b: uint8): nat
    requires d.job.Some? && JobInProgram(d)
  {
    var rest := MaxTransfers(d, d.job.value) - d.job.value.done;
    var left := WrappedDifference(d.job.value.deadlineMs, now);
    var first := Min(Min(a, rest), left);
    first + Min(Min(b, rest - first), left)
  }

  lemma SplitIsTransfers(script: Script, s: System, now: uint64, a: uint8, b: uint8)
    requires s.driver.job.Some? && JobInProgram(s.driver) && !DueOrPast(now, s.driver.job.value.deadlineMs)
    ensures JobInProgram(Poll(script, s, now, a).driver)
    ensures SameButTimeouts(Poll(script, Poll(script, s, now, a), now, b),
                            Transfers(script, s, now, 0, SplitBudget(s.driver, now, a, b)))
  {
    hide Transfers, MaxTransfers, Poll;
    var first, total := PollBudget(s.driver, now, a), SplitBudget(s.driver, now, a, b);
    PollIsBudget(script, s, now, a);
    var middle, ideal := Poll(script, s, now, a), Transfers(script, s, now, 0, first);
    var made := TransfersAdvance(script, s, now, 0, first);
    TransfersCompose(script, s, now, 0, first, total - first);
    TransfersIgnoreTimeout(script, middle, ideal, now, 0, 0, total - first);
    if middle.driver.job.Some? {
      PollIsBudget(script, middle, now, b);
    } else {
      NoTransfers(script, middle, now, 0);
      IdlePoll(script, middle, now, b);
    }
  }

  /** For two nonzero budgets, splitting a poll changes nothing but timeouts if
      and only if the deadline does not clip the joint budget or the job ends
      within the transfers the clipped budget still allows. */
  lemma PollsAddExactly(script: Script, s: System, now: uint64, a: uint8, b: uint8)
    requires a > 0 && b > 0 && a + b <= 0xFF && JobInProgram(s.driver) && s.driver.job.Some?
    requires !DueOrPast(now, s.driver.job.value.deadlineMs)
    ensures JobInProgram(Poll(script, s, now, a).driver)
    ensures SameButTimeouts(Poll(script, s, now, a + b), Poll(script, Poll(script, s, now, a), now, b))
      <==> NotClipped(s.driver, now, a + b)
           || Transfers(script, s, now, 0, WrappedDifference(s.driver.job.value.deadlineMs, now)).driver.job.None?
  {
    hide Transfers, MaxTransfers, Poll, WrappedDifference;
    var left := WrappedDifference(s.driver.job.value.deadlineMs, now);
    var total := SplitBudget(s.driver, now, a, b);
    SplitIsTransfers(script, s, now, a, b);
    if NotClipped(s.driver, now, a + b) {
      PollsAdd(script, s, now, a, b);
    } else {
      PollIsBudget(script, s, now, a + b);
      LeftPositive(s.driver, now);
      assert PollBudget(s.driver, now, a + b) == left && total > left;
      if Transfers(script, s, now, 0, left).driver.job.None? {
        TransfersStay(script, s, now, left, total);
      } else {
        var made := TransfersAdvance(script, s, now, 0, left);
        TransfersCompose(script, s, now, 0, left, total - left);
        var more := TransfersAdvance(script, Transfers(script, s, now, 0, left), now, 0, total - left);
      }
    }
  }

  lemma LeftPositive(d: Driver, now: uint64)
    requires d.job.Some? && !DueOrPast(now, d.job.value.deadlineMs)
    ensures WrappedDifference(d.job.value.deadlineMs, now) > 0
  {
  }
}
