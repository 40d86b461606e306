/** A session over its lifetime: any sequence of public calls. A session
    checks out at most one control connection, ever; once it holds one, every
    further fetch is refused by the assertion in `_init_stream`, and `clean`
    and `close` keep returning the same connection to the pool. */
module FtpLifetime {
  import opened Wrappers
  import opened FtpTypes
  import opened FtpBody
  import opened FtpTrace
  import opened FtpClient
  import opened FtpClientProperties

  /** One public call on a session, with what the world does during it. */
  datatype Call =
    | FetchCall(req: Request, sink: SinkChoice, server: Server)
    | ListingCall(req: Request, sink: SinkChoice, server: Server)
    | CleanCall
    | CloseCall

  function Step(s: Session, c: Call): (Session, seq<Event>)
  {
    match c
    case FetchCall(req, sink, server) =>
      var o := Fetch(s, req, sink, server);
      (o.session, o.events)
    case ListingCall(req, sink, server) =>
      var o := FetchFileListing(s, req, sink, server);
      (o.session, o.events)
    case CleanCall => Clean(s)
    case CloseCall => Close(s)
  }

  /** The session after some calls and the events they appended, in order. */
  function Run(s: Session, calls: seq<Call>): (Session, seq<Event>)
    decreases |calls|
  {
    if calls == [] then (s, [])
    else
      var first := Step(s, calls[0]);
      var rest := Run(first.0, calls[1..]);
      (rest.0, first.1 + rest.1)
  }

  /** The number of control connections checked out in a trace. */
  function ControlCheckOuts(s: seq<Event>): nat {
    |Filter(s, IsControlCheckOut)|
  }

  /** Only phase markers can be control check-outs. */
  lemma {:induction false} CheckOutsAreMilestones(s: seq<Event>)
    ensures Filter(s, IsControlCheckOut) == Filter(Milestones(s), IsControlCheckOut)
    decreases |s|
  {
    if s != [] {
      CheckOutsAreMilestones(s[1..]);
      FilterAppend(if s[0].IsMilestone() then [s[0]] else [], Milestones(s[1..]), IsControlCheckOut);
      if s[0].IsMilestone() {
        FilterSingleton(s[0], IsControlCheckOut);
      }
    }
  }

  /** A data-channel command checks out no control connection. */
  lemma RunChecksOutNoControl(rec: bool, cmd: Command, body: Body, script: CommandScript)
    ensures ControlCheckOuts(FetchWithCommand(rec, cmd, body, script).events) == 0
  {
    var events := FetchWithCommand(rec, cmd, body, script).events;
    FetchWithCommandEvents(rec, cmd, body, script);
    CheckOutsAreMilestones(events);
    if script.setup.SetupDone? {
      FilterSingleton(SendCommand(cmd), IsControlCheckOut);
    }
  }

  /** Whether a call made on `s` gets a control connection: only when none
      is held and the pool hands one out. */
  predicate ChecksOut(s: Session, c: Call) {
    && (c.FetchCall? || c.ListingCall?)
    && s.connection.None?
    && c.server.controlCheckOut.Success?
  }

  lemma FetchCheckOuts(s: Session, req: Request, sink: SinkChoice, server: Server)
    ensures ControlCheckOuts(Fetch(s, req, sink, server).events)
      == if s.connection.None? && server.controlCheckOut.Success? then 1 else 0
  {
    var p := PrepareFetch(s, req, sink, server);
    PrepareFetchTrace(s, req, sink, server);
    if p.result.Success? {
      var addressed := p.result.value.0;
      var run := FetchWithCommand(s.hasRecorder, RetrCommand(addressed), p.result.value.1, server.retrieve);
      RunChecksOutNoControl(s.hasRecorder, RetrCommand(addressed), p.result.value.1, server.retrieve);
      FilterAppend(p.events, run.events, IsControlCheckOut);
      if run.result.Success? {
        FilterAppendThree(p.events, run.events, FinishPhase(s.hasRecorder), IsControlCheckOut);
        FinishPhaseOnly(s.hasRecorder);
        assert Fetch(s, req, sink, server).events == p.events + run.events + FinishPhase(s.hasRecorder);
      }
    }
  }

  lemma ListingCheckOuts(s: Session, req: Request, sink: SinkChoice, server: Server)
    ensures ControlCheckOuts(FetchFileListing(s, req, sink, server).events)
      == if s.connection.None? && server.controlCheckOut.Success? then 1 else 0
  {
    var p := PrepareFetch(s, req, sink, server);
    PrepareFetchTrace(s, req, sink, server);
    if Prepares(s, server) {
      var le, de := ListingShape(s, req, sink, server);
      var me := MachineEvents(s, req, sink, server);
      RunChecksOutNoControl(s.hasRecorder, MlsdCommand(p.result.value.0), p.result.value.1, server.machineListing);
      RunChecksOutNoControl(s.hasRecorder, ListCommand(p.result.value.0), EmptyBody, server.listListing);
      FilterAppend(p.events + me + le, de, IsControlCheckOut);
      FilterAppendThree(p.events, me, le, IsControlCheckOut);
    }
  }

  /** One call: it checks out a control connection exactly when `ChecksOut`
      holds, and then the session holds it; a held connection is never
      replaced. */
  lemma StepCheckOuts(s: Session, c: Call)
    ensures ControlCheckOuts(Step(s, c).1) == if ChecksOut(s, c) then 1 else 0
    ensures ChecksOut(s, c) ==> Step(s, c).0.connection.Some?
    ensures s.connection.Some? ==> Step(s, c).0.connection == s.connection
  {
    match c
    case FetchCall(req, sink, server) => FetchCheckOuts(s, req, sink, server);
    case ListingCall(req, sink, server) => ListingCheckOuts(s, req, sink, server);
    case CleanCall =>
    case CloseCall =>
  }

  /** Over any sequence of calls, a session checks out at most one control
      connection, and none at all once it holds one. */
  lemma {:induction false} RunCheckOuts(s: Session, calls: seq<Call>)
    ensures ControlCheckOuts(Run(s, calls).1) <= if s.connection.None? then 1 else 0
    ensures s.connection.Some? ==> Run(s, calls).0.connection == s.connection
    decreases |calls|
  {
    if calls != [] {
      var first := Step(s, calls[0]);
      StepCheckOuts(s, calls[0]);
      RunCheckOuts(first.0, calls[1..]);
      FilterAppend(first.1, Run(first.0, calls[1..]).1, IsControlCheckOut);
    }
  }

  /** A new session checks out at most one control connection in its whole life. */
  lemma SessionChecksOutOnce(hasRecorder: bool, calls: seq<Call>)
    ensures ControlCheckOuts(Run(NewSession(hasRecorder), calls).1) <= 1
  {
    RunCheckOuts(NewSession(hasRecorder), calls);
  }

  /** A session that holds a connection refuses every further fetch: nothing
      happens and the assertion of `_init_stream` fails. */
  lemma HeldSessionRefuses(s: Session, req: Request, sink: SinkChoice, server: Server)
    requires s.connection.Some?
    ensures Fetch(s, req, sink, server) == Outcome(s, [], Failure(AssertionFailed), None)
    ensures FetchFileListing(s, req, sink, server) == Outcome(s, [], Failure(AssertionFailed), None)
  {
  }

  /** A fetch after a successful fetch on the same session is refused. */
  lemma SecondFetchRefused(s: Session, first: Call, req: Request, sink: SinkChoice, server: Server)
    requires ChecksOut(s, first)
    ensures var s' := Step(s, first).0;
      Fetch(s', req, sink, server) == Outcome(s', [], Failure(AssertionFailed), None)
  {
    StepCheckOuts(s, first);
  }
}
