/** Whole runs of the diagnostic CLI: any command lines and scheduler passes in
    any order, on any bus. */
module CliRuns {
  import opened DriverTypes
  import opened Machine
  import opened Engine
  import opened DiagnosticSessions
  import opened SessionSteps
  import opened DiagnosticCli

  datatype Call =
    | Pass(world: World)
    | Line(command: Command, world: World)

  /** The parser only makes commands that name a job or a session. */
  predicate Parsed(call: Call) {
    call.Line? ==>
      && (call.command.JobCommand? ==> call.command.kind != NO_JOB)
      && (call.command.SessionCommand? ==> call.command.session != NO_SESSION_KIND)
  }

  /** One call took the CLI from `m` to `n`. */
  ghost predicate Called(script: Script, m: Moment, n: Moment, call: Call)
    requires Parsed(call)
  {
    && JobInProgram(m.device.driver)
    && match call
       case Pass(world) => Passed(script, m, n, world)
       case Line(command, world) => CommandDone(script, m, n, command, world)
  }

  /** The moments of a run, one more than its calls. */
  ghost predicate Traced(script: Script, trace: seq<Moment>, calls: seq<Call>)
    requires forall i :: 0 <= i < |calls| ==> Parsed(calls[i])
  {
    && |trace| == |calls| + 1
    && forall i :: 0 <= i < |calls| ==> Called(script, trace[i], trace[i + 1], calls[i])
  }

  lemma TraceExtends(script: Script, trace: seq<Moment>, calls: seq<Call>, call: Call, n: Moment)
    requires (forall i :: 0 <= i < |calls| ==> Parsed(calls[i])) && Parsed(call)
    requires Traced(script, trace, calls) && Called(script, trace[|calls|], n, call)
    ensures forall i :: 0 <= i < |calls + [call]| ==> Parsed((calls + [call])[i])
    ensures Traced(script, trace + [n], calls + [call])
  {
    hide Called, Parsed;
    var longer, more := trace + [n], calls + [call];
    forall i | 0 <= i < |more|
      ensures Parsed(more[i]) && Called(script, longer[i], longer[i + 1], more[i])
    {
      assert i < |calls| ==> more[i] == calls[i] && longer[i] == trace[i] && longer[i + 1] == trace[i + 1];
    }
  }

  /** What a report of any run means: the counters are the tally of what
      happened, and SUCCESS says that nothing went wrong and nothing asked for
      is missing. */
  predicate Truthful(r: Report) {
    && r.stats.passed == r.tally.good && r.stats.failed <= r.tally.bad
    && (r.outcome == SESSION_SUCCESS ==> r.tally.bad == 0 && r.stats.failed == 0)
    && (r.outcome == SESSION_FAILED && r.kind != DISCOVER ==> r.tally.bad > 0)
    && (r.outcome == SESSION_SUCCESS && r.kind == DISCOVER ==> r.discoveryMatched > 0)
    && (r.outcome == SESSION_SUCCESS
        && (r.kind == WATCH || r.kind == SAMPLE_RATE || r.kind == STRESS || r.kind == STRESS_MIX
            || r.kind == STRESS_ID || r.kind == STRESS_RESET || r.kind == STRESS_BUS_FREQ) ==>
         r.stats.passed == r.stats.completed == r.stats.requested)
    && (r.outcome == SESSION_SUCCESS && r.kind == SOAK ==> r.stats.passed == r.stats.completed)
    && (r.outcome == SESSION_SUCCESS && r.kind == STRESS_BUS_FREQ ==>
         r.bus.isOpen && r.bus.frequencyHz == r.initialFrequencyHz && r.applied == APPLIED_SLEEPING)
  }

  lemma ReportIsTruthful(r: Report)
    requires ReportOk(r)
    ensures Truthful(r)
  {
  }

  /** After any run every report made is truthful, a prompt is owed exactly
      while work is active, and each call did what its step says. */
  method Operate(start: System, bus: BusInfo, script: Script, calls: seq<Call>)
    returns (cli: Cli, ghost trace: seq<Moment>)
    requires Initial(start) && forall i :: 0 <= i < |calls| ==> Parsed(calls[i])
    ensures fresh(cli) && cli.Valid() && cli.Prompted()
    ensures forall r :: r in cli.reports ==> Truthful(r)
    ensures Traced(script, trace, calls) && trace[|calls|] == cli.Now()
    ensures trace[0] == Moment(start, NO_PENDING, NO_SESSION, Tally(0, 0), bus, [], 1)
  {
    hide Initial, Consistent, Called, ReportOk, Truthful;
    cli := new Cli(start, bus, script);
    trace := [cli.Now()];
    var i := 0;
    while i < |calls|
      invariant 0 <= i <= |calls| && cli.Valid() && cli.Prompted() && fresh(cli) && cli.script == script
      invariant Traced(script, trace, calls[..i]) && trace[i] == cli.Now()
      invariant trace[0] == Moment(start, NO_PENDING, NO_SESSION, Tally(0, 0), bus, [], 1)
    {
      Perform(cli, calls[i]);
      TraceExtends(script, trace, calls[..i], calls[i], cli.Now());
      trace := trace + [cli.Now()];
      assert calls[..i + 1] == calls[..i] + [calls[i]];
      i := i + 1;
    }
    assert calls[..i] == calls;
    forall r | r in cli.reports
      ensures Truthful(r)
    {
      ReportIsTruthful(r);
    }
  }

  method Perform(cli: Cli, call: Call)
    requires cli.Valid() && cli.Prompted() && Parsed(call)
    modifies cli
    ensures cli.Valid() && cli.Prompted() && Called(cli.script, old(cli.Now()), cli.Now(), call)
  {
    hide Consistent, Passed, CommandDone, JobInProgram;
    match call
    case Pass(world) => var action := cli.Service(world);
    case Line(command, world) => var action := cli.ProcessCommand(command, world);
  }
}
