/** What the recorder session receives as bytes: the control traffic of the
    log-in and of each data command, and the data bytes read, each in order
    and each in its place between the phase markers. */
module FtpRecorderTraffic {
  import opened Wrappers
  import opened FtpTypes
  import opened FtpBody
  import opened FtpTrace
  import opened FtpClient
  import opened FtpClientProperties
  import opened FtpRecorderProperties

  /** Events that are neither `response_data` nor control traffic. */
  predicate Quiet(s: seq<Event>) {
    forall e :: e in s ==> !e.ResponseData? && !IsControlTraffic(e)
  }

  lemma QuietForwardsNothing(s: seq<Event>)
    requires Quiet(s)
    ensures ForwardedData(s) == [] && ControlTraffic(s) == []
  {
    ForwardedDataNone(s);
    FilterNone(s, IsControlTraffic);
  }

  /** Quiet events added to either end of a trace forward nothing more. */
  lemma QuietEnds(q: seq<Event>, t: seq<Event>)
    requires Quiet(q)
    ensures ForwardedData(q + t) == ForwardedData(t) && ForwardedData(t + q) == ForwardedData(t)
    ensures ControlTraffic(q + t) == ControlTraffic(t) && ControlTraffic(t + q) == ControlTraffic(t)
  {
    QuietForwardsNothing(q);
    ForwardedDataAppend(q, t);
    ForwardedDataAppend(t, q);
    FilterAppend(q, t, IsControlTraffic);
    FilterAppend(t, q, IsControlTraffic);
  }

  /** Traffic surrounded by quiet events: only the traffic is forwarded. */
  lemma TrafficBetweenQuiet(q1: seq<Event>, t1: seq<Event>, q2: seq<Event>, t2: seq<Event>, q3: seq<Event>)
    requires Quiet(q1) && Quiet(q2) && Quiet(q3)
    ensures ForwardedData(q1 + t1 + q2 + t2 + q3) == ForwardedData(t1) + ForwardedData(t2)
    ensures ControlTraffic(q1 + t1 + q2 + t2 + q3) == ControlTraffic(t1) + ControlTraffic(t2)
  {
    var a := q1 + t1;
    var b := a + q2;
    var c := b + t2;
    QuietEnds(q1, t1);
    QuietEnds(q2, a);
    QuietEnds(q3, c);
    ForwardedDataAppend(b, t2);
    FilterAppend(b, t2, IsControlTraffic);
  }

  /** A data command whose stream was not set up forwards only the setup's
      control traffic. */
  lemma RunTrafficFailed(rec: bool, cmd: Command, body: Body, script: CommandScript)
    requires script.setup.SetupFailed?
    ensures var t := FetchWithCommand(rec, cmd, body, script).events;
      ForwardedData(t) == [] && ControlTraffic(t) == RouteControl(rec, script.setup.io)
  {
    var acquired := script.setup.acquired;
    var routed := RouteControl(rec, script.setup.io);
    var checkedOut := if acquired.Some? then [CheckOut(Data, acquired.value)] else [];
    var rest := checkedOut + ReleaseData(false, acquired);
    assert FetchWithCommand(rec, cmd, body, script).events == routed + rest;
    RouteControlTraffic(rec, script.setup.io);
    assert Quiet(rest);
    QuietEnds(rest, routed);
  }

  /** A data command whose stream was set up forwards the setup's control
      traffic, then the stream's control traffic and its data bytes. */
  lemma RunTrafficDone(rec: bool, cmd: Command, body: Body, script: CommandScript)
    requires script.setup.SetupDone?
    ensures var t := FetchWithCommand(rec, cmd, body, script).events;
      && ForwardedData(t) == (if rec then ReadBytes(script.transfer) else [])
      && ControlTraffic(t) == RouteControl(rec, script.setup.io + ControlChunks(script.transfer))
  {
    var conn := script.setup.conn;
    var routed := RouteControl(rec, script.setup.io);
    var opening := [CheckOut(Data, conn), SendCommand(cmd)];
    var streamed := Stream(rec, body, script.transfer).0;
    var release := ReleaseData(true, Some(conn));
    DoneEvents(rec, cmd, body, script);
    RouteControlTraffic(rec, script.setup.io);
    StreamTraffic(rec, body, script.transfer);
    QuietOpening(cmd, conn);
    FourParts(FetchWithCommand(rec, cmd, body, script).events, routed, opening, streamed, release);
    RouteControlAppend(rec, script.setup.io, ControlChunks(script.transfer));
  }

  lemma QuietOpening(cmd: Command, conn: Conn)
    ensures Quiet([CheckOut(Data, conn), SendCommand(cmd)]) && Quiet(ReleaseData(true, Some(conn)))
  {
    ReleaseDone(conn);
  }

  /** Routed traffic, quiet events, streamed traffic and quiet events: only
      the two kinds of traffic are forwarded. */
  lemma FourParts(t: seq<Event>, routed: seq<Event>, opening: seq<Event>, streamed: seq<Event>, release: seq<Event>)
    requires t == routed + opening + streamed + release
    requires Quiet(opening) && Quiet(release)
    ensures ForwardedData(t) == ForwardedData(routed) + ForwardedData(streamed)
    ensures ControlTraffic(t) == ControlTraffic(routed) + ControlTraffic(streamed)
  {
    var a := routed + opening;
    var b := a + streamed;
    QuietEnds(opening, routed);
    QuietEnds(release, b);
    ForwardedDataAppend(a, streamed);
    FilterAppend(a, streamed, IsControlTraffic);
  }

  /** What the recorder receives during one data command: the data bytes read
      when the stream was set up, and the control chunks of the setup and,
      when it was set up, of the stream, each through `ControlEvent` in order. */
  lemma RunTraffic(rec: bool, cmd: Command, body: Body, script: CommandScript)
    ensures var t := FetchWithCommand(rec, cmd, body, script).events;
      && ForwardedData(t) == (if rec && script.setup.SetupDone? then ReadBytes(script.transfer) else [])
      && ControlTraffic(t)
         == RouteControl(rec, script.setup.io + (if script.setup.SetupDone? then ControlChunks(script.transfer) else []))
  {
    if script.setup.SetupDone? {
      RunTrafficDone(rec, cmd, body, script);
    } else {
      RunTrafficFailed(rec, cmd, body, script);
      assert script.setup.io + [] == script.setup.io;
    }
  }

  /** The events of a successful preparation with a recorder, in five parts:
      markers, the reconnect's traffic, the log-in, its traffic, and
      `pre_response`. */
  lemma PrepareParts(s: Session, req: Request, sink: SinkChoice, server: Server)
    requires Prepares(s, server) && s.hasRecorder
    ensures var conn := server.controlCheckOut.value;
      var cred := LogInCredentials(req.urlInfo);
      PrepareFetch(s, req, sink, server).events
        == [CheckOut(Control, conn), BeginControl(Addressed(req, conn)), Reconnect]
           + RouteControl(true, server.reconnect.io) + [Login(cred.user, cred.password)]
           + RouteControl(true, server.login.io) + [PreResponse]
  {
    var conn := server.controlCheckOut.value;
    var cred := LogInCredentials(req.urlInfo);
    var r1 := RouteControl(true, server.reconnect.io);
    var r2 := RouteControl(true, server.login.io);
    var begun := [CheckOut(Control, conn)] + [BeginControl(Addressed(req, conn))];
    var login := [Reconnect] + r1 + ([Login(cred.user, cred.password)] + r2);
    assert PrepareFetch(s, req, sink, server).events == begun + login + [PreResponse];
    assert begun + login + [PreResponse]
      == [CheckOut(Control, conn), BeginControl(Addressed(req, conn)), Reconnect] + r1
         + [Login(cred.user, cred.password)] + r2 + [PreResponse];
  }

  /** What the recorder receives while a session prepares: only the control
      traffic of the reconnect and the log-in, in order, and no data bytes;
      the preparation ends with `pre_response`. */
  lemma PrepareTraffic(s: Session, req: Request, sink: SinkChoice, server: Server)
    requires Prepares(s, server) && s.hasRecorder
    ensures var e := PrepareFetch(s, req, sink, server).events;
      && |e| > 0 && e[|e| - 1] == PreResponse
      && ForwardedData(e) == []
      && ControlTraffic(e) == RouteControl(true, server.reconnect.io + server.login.io)
  {
    var conn := server.controlCheckOut.value;
    var cred := LogInCredentials(req.urlInfo);
    var q1 := [CheckOut(Control, conn), BeginControl(Addressed(req, conn)), Reconnect];
    var q2 := [Login(cred.user, cred.password)];
    var r1 := RouteControl(true, server.reconnect.io);
    var r2 := RouteControl(true, server.login.io);
    PrepareParts(s, req, sink, server);
    assert Quiet(q1) && Quiet(q2) && Quiet([PreResponse]);
    TrafficBetweenQuiet(q1, r1, q2, r2, [PreResponse]);
    RouteControlTraffic(true, server.reconnect.io);
    RouteControlTraffic(true, server.login.io);
    RouteControlAppend(true, server.reconnect.io, server.login.io);
  }

  /** A successful fetch with a recorder: its preparation, its `RETR` run and
      the closing `response` and `end_control`. */
  lemma FetchParts(s: Session, req: Request, sink: SinkChoice, server: Server)
    requires s.hasRecorder && Fetch(s, req, sink, server).result.Success?
    ensures Prepares(s, server)
    ensures var p := PrepareFetch(s, req, sink, server);
      var run := FetchWithCommand(true, RetrCommand(p.result.value.0), p.result.value.1, server.retrieve);
      && run.streamCreated
      && Fetch(s, req, sink, server).events == p.events + run.events + [RecordResponse, EndControl]
  {
    var p := PrepareFetch(s, req, sink, server);
    var run := FetchWithCommand(true, RetrCommand(p.result.value.0), p.result.value.1, server.retrieve);
    PreparedFetchEvents(s, req, sink, server);
    assert run.result.Success?;
  }

  /** With a recorder, a successful `fetch` hands the recorder the log-in's
      control traffic before `pre_response`, then the `RETR` command's
      control traffic and exactly the data bytes read, and nothing after
      `response`. */
  lemma FetchTraffic(s: Session, req: Request, sink: SinkChoice, server: Server)
    returns (before: seq<Event>, during: seq<Event>, after: seq<Event>)
    requires s.hasRecorder && Fetch(s, req, sink, server).result.Success?
    ensures Fetch(s, req, sink, server).events == before + during + after
    ensures |before| > 0 && before[|before| - 1] == PreResponse
    ensures after == [RecordResponse, EndControl]
    ensures ForwardedData(before) == [] && ForwardedData(during) == ReadBytes(server.retrieve.transfer)
    ensures ControlTraffic(before) == RouteControl(true, server.reconnect.io + server.login.io)
    ensures ControlTraffic(during)
      == RouteControl(true, server.retrieve.setup.io + ControlChunks(server.retrieve.transfer))
    ensures ControlTraffic(after) == [] && ForwardedData(after) == []
  {
    FetchParts(s, req, sink, server);
    var p := PrepareFetch(s, req, sink, server);
    var run := FetchWithCommand(true, RetrCommand(p.result.value.0), p.result.value.1, server.retrieve);
    before, during, after := p.events, run.events, [RecordResponse, EndControl];
    PrepareTraffic(s, req, sink, server);
    RunTraffic(true, RetrCommand(p.result.value.0), p.result.value.1, server.retrieve);
    assert Quiet(after);
    QuietForwardsNothing(after);
  }

  /** With a recorder, the data bytes a successful `fetch` forwards to
      `response_data` are exactly the bytes it wrote into the body. */
  lemma FetchForwardsBody(s: Session, req: Request, sink: SinkChoice, server: Server)
    requires s.hasRecorder && Fetch(s, req, sink, server).result.Success?
    ensures var o := Fetch(s, req, sink, server);
      var addressed := Addressed(req, server.controlCheckOut.value);
      && ForwardedData(o.events) == ReadBytes(server.retrieve.transfer)
      && o.result.value.body.data == Write(ChooseBody(sink, addressed), ForwardedData(o.events)).data
  {
    var before, during, after := FetchTraffic(s, req, sink, server);
    ForwardedDataAppend(before + during, after);
    ForwardedDataAppend(before, during);
  }
}
