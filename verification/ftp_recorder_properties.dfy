/** The recorder session is a passive observer of an FTP session: attaching
    one adds recorder calls to the trace and changes nothing else — not the
    pool traffic, not the commands, not the response, not the body. */
module FtpRecorderProperties {
  import opened Wrappers
  import opened FtpTypes
  import opened FtpBody
  import opened FtpTrace
  import opened FtpClient
  import opened FtpClientProperties

  /** A trace without recorder calls is its own recorder-free view. */
  lemma Unrecorded(s: seq<Event>)
    requires forall e :: e in s ==> !e.IsRecorderCall()
    ensures WithoutRecorder(s) == s && RecorderCalls(s) == []
  {
    FilterAll(s, IsNotRecorderCall);
    FilterNone(s, IsRecorderCall);
  }

  /** Recorder traffic vanishes from the recorder-free view. */
  lemma TrafficUnseen(s: seq<Event>)
    requires forall e :: e in s ==> e.IsTraffic()
    ensures WithoutRecorder(s) == []
  {
    FilterNone(s, IsNotRecorderCall);
  }

  lemma PassiveAppend(a: seq<Event>, b: seq<Event>, a': seq<Event>, b': seq<Event>)
    requires WithoutRecorder(a) == a' && WithoutRecorder(b) == b'
    requires RecorderCalls(a') == [] && RecorderCalls(b') == []
    ensures WithoutRecorder(a + b) == a' + b' && RecorderCalls(a' + b') == []
  {
    FilterAppend(a, b, IsNotRecorderCall);
    FilterAppend(a', b', IsRecorderCall);
  }

  lemma RunPassiveFailed(cmd: Command, body: Body, script: CommandScript)
    requires script.setup.SetupFailed?
    ensures WithoutRecorder(FetchWithCommand(true, cmd, body, script).events) == FetchWithCommand(false, cmd, body, script).events
    ensures RecorderCalls(FetchWithCommand(false, cmd, body, script).events) == []
  {
    var acquired := script.setup.acquired;
    var checkedOut := if acquired.Some? then [CheckOut(Data, acquired.value)] else [];
    var rest := checkedOut + ReleaseData(false, acquired);
    TrafficUnseen(RouteControl(true, script.setup.io));
    Unrecorded(rest);
    Unrecorded([]);
    PassiveAppend(RouteControl(true, script.setup.io), rest, [], rest);
  }

  /** The events of a data command whose stream was set up, in four parts. */
  lemma DoneEvents(rec: bool, cmd: Command, body: Body, script: CommandScript)
    requires script.setup.SetupDone?
    ensures FetchWithCommand(rec, cmd, body, script).events
      == RouteControl(rec, script.setup.io) + [CheckOut(Data, script.setup.conn), SendCommand(cmd)]
         + Stream(rec, body, script.transfer).0 + ReleaseData(true, Some(script.setup.conn))
  {
  }

  /** Dropping the recorder traffic around the pool and commander events
      leaves just those events. */
  lemma TrafficAroundUnseen(routed: seq<Event>, opening: seq<Event>, streamed: seq<Event>, release: seq<Event>)
    requires forall e :: e in routed ==> e.IsTraffic()
    requires forall e :: e in streamed ==> e.IsTraffic()
    requires forall e :: e in opening ==> !e.IsRecorderCall()
    requires forall e :: e in release ==> !e.IsRecorderCall()
    ensures WithoutRecorder(routed + opening + streamed + release) == opening + release
    ensures RecorderCalls(opening + release) == []
  {
    FilterSkipsTraffic(routed, opening, streamed, release, IsNotRecorderCall);
    Unrecorded(opening);
    Unrecorded(release);
    FilterAppend(opening, release, IsRecorderCall);
  }

  /** A completed data command run without a recorder: the data connection
      is checked out, the command sent, and the connection released. */
  lemma DoneUnrecorded(cmd: Command, body: Body, script: CommandScript)
    requires script.setup.SetupDone?
    ensures var conn := script.setup.conn;
      FetchWithCommand(false, cmd, body, script).events
        == [CheckOut(Data, conn), SendCommand(cmd)] + ReleaseData(true, Some(conn))
    ensures RecorderCalls(FetchWithCommand(false, cmd, body, script).events) == []
  {
    var conn := script.setup.conn;
    var opening := [CheckOut(Data, conn), SendCommand(cmd)];
    var release := ReleaseData(true, Some(conn));
    DoneEvents(false, cmd, body, script);
    DropEmptyParts(RouteControl(false, script.setup.io), opening, Stream(false, body, script.transfer).0, release);
    ReleaseDone(conn);
    Unrecorded(opening);
    Unrecorded(release);
    FilterAppend(opening, release, IsRecorderCall);
  }

  lemma DropEmptyParts(a: seq<Event>, b: seq<Event>, c: seq<Event>, d: seq<Event>)
    requires a == [] && c == []
    ensures a + b + c + d == b + d
  {
  }

  /** A completed data command run with a recorder, seen without the
      recorder calls. */
  lemma DoneRecordedView(cmd: Command, body: Body, script: CommandScript)
    requires script.setup.SetupDone?
    ensures var conn := script.setup.conn;
      WithoutRecorder(FetchWithCommand(true, cmd, body, script).events)
        == [CheckOut(Data, conn), SendCommand(cmd)] + ReleaseData(true, Some(conn))
  {
    var conn := script.setup.conn;
    var opening := [CheckOut(Data, conn), SendCommand(cmd)];
    var release := ReleaseData(true, Some(conn));
    DoneEvents(true, cmd, body, script);
    ReleaseDone(conn);
    TrafficAroundUnseen(RouteControl(true, script.setup.io), opening, Stream(true, body, script.transfer).0, release);
  }

  lemma RunPassiveDone(cmd: Command, body: Body, script: CommandScript)
    requires script.setup.SetupDone?
    ensures WithoutRecorder(FetchWithCommand(true, cmd, body, script).events) == FetchWithCommand(false, cmd, body, script).events
    ensures RecorderCalls(FetchWithCommand(false, cmd, body, script).events) == []
  {
    DoneUnrecorded(cmd, body, script);
    DoneRecordedView(cmd, body, script);
  }

  /** `_fetch_with_command` with a recorder differs from the run without one
      only by recorder calls. */
  lemma RunPassive(cmd: Command, body: Body, script: CommandScript)
    ensures var t := FetchWithCommand(true, cmd, body, script);
      var f := FetchWithCommand(false, cmd, body, script);
      && t.(events := f.events) == f
      && WithoutRecorder(t.events) == f.events
      && RecorderCalls(f.events) == []
  {
    if script.setup.SetupFailed? {
      RunPassiveFailed(cmd, body, script);
    } else {
      RunPassiveDone(cmd, body, script);
    }
  }

  /** `_log_in` with a recorder differs from `_log_in` without one only by
      the routed control traffic. */
  lemma LogInPassive(s: Session, server: Server)
    requires s.request.Some?
    ensures var t := LogIn(s.(hasRecorder := true), server);
      var f := LogIn(s.(hasRecorder := false), server);
      && t.1 == f.1
      && WithoutRecorder(t.0) == f.0
      && RecorderCalls(f.0) == []
  {
    var cred := LogInCredentials(s.request.value.urlInfo);
    var reconnect := RouteControl(true, server.reconnect.io);
    var login := RouteControl(true, server.login.io);
    TrafficUnseen(reconnect);
    TrafficUnseen(login);
    Unrecorded([Reconnect]);
    Unrecorded([Login(cred.user, cred.password)]);
    PassiveAppend([Reconnect], reconnect, [Reconnect], []);
    PassiveAppend([Login(cred.user, cred.password)], login, [Login(cred.user, cred.password)], []);
    PassiveAppend([Reconnect] + reconnect, [Login(cred.user, cred.password)] + login,
                  [Reconnect], [Login(cred.user, cred.password)]);
  }

  /** `_prepare_fetch` with a recorder differs from the one without only by
      recorder calls and the session's recorder flag. */
  lemma PreparePassive(s: Session, req: Request, sink: SinkChoice, server: Server)
    ensures var t := PrepareFetch(s.(hasRecorder := true), req, sink, server);
      var f := PrepareFetch(s.(hasRecorder := false), req, sink, server);
      && t.result == f.result
      && t.session == f.session.(hasRecorder := true)
      && WithoutRecorder(t.events) == f.events
      && RecorderCalls(f.events) == []
  {
    var st, sf := s.(hasRecorder := true), s.(hasRecorder := false);
    var t := PrepareFetch(st, req, sink, server);
    var f := PrepareFetch(sf, req, sink, server);
    if s.connection.Some? || server.controlCheckOut.Failure? {
      Unrecorded([]);
    } else {
      var conn := server.controlCheckOut.value;
      var addressed := Addressed(req, conn);
      var session := Session(Some(conn), Some(addressed), false);
      LogInPassive(session, server);
      var lt := LogIn(session.(hasRecorder := true), server).0;
      var lf := LogIn(session, server).0;
      Unrecorded([CheckOut(Control, conn)]);
      FilterAppend([CheckOut(Control, conn)], [BeginControl(addressed)], IsNotRecorderCall);
      FilterSingleton(BeginControl(addressed), IsNotRecorderCall);
      PassiveAppend([CheckOut(Control, conn)] + [BeginControl(addressed)], lt, [CheckOut(Control, conn)], lf);
      if server.reconnect.error.None? && server.login.error.None? {
        FilterSingleton(PreResponse, IsNotRecorderCall);
        Unrecorded([]);
        PassiveAppend([CheckOut(Control, conn)] + [BeginControl(addressed)] + lt, [PreResponse],
                      [CheckOut(Control, conn)] + lf, []);
        assert f.events == [CheckOut(Control, conn)] + lf + [];
      } else {
        assert f.events == [CheckOut(Control, conn)] + lf;
      }
    }
  }

  /** `fetch` with a recorder attached returns the same response or
      exception, leaves the same body and session (but for the flag), and
      its trace is the trace without a recorder plus recorder calls only. */
  lemma FetchRecorderPassive(s: Session, req: Request, sink: SinkChoice, server: Server)
    ensures var t := Fetch(s.(hasRecorder := true), req, sink, server);
      var f := Fetch(s.(hasRecorder := false), req, sink, server);
      && t.result == f.result
      && t.sink == f.sink
      && t.session == f.session.(hasRecorder := true)
      && WithoutRecorder(t.events) == f.events
      && RecorderCalls(f.events) == []
  {
    var st, sf := s.(hasRecorder := true), s.(hasRecorder := false);
    var pt := PrepareFetch(st, req, sink, server);
    var pf := PrepareFetch(sf, req, sink, server);
    PreparePassive(s, req, sink, server);
    if pt.result.Success? {
      var addressed := pt.result.value.0;
      var cmd := RetrCommand(addressed);
      var rt := FetchWithCommand(true, cmd, pt.result.value.1, server.retrieve);
      var rf := FetchWithCommand(false, cmd, pf.result.value.1, server.retrieve);
      RunPassive(cmd, pt.result.value.1, server.retrieve);
      PassiveAppend(pt.events, rt.events, pf.events, rf.events);
      if rt.result.Success? {
        FinishPhaseUnrecorded();
        Unrecorded([]);
        PassiveAppend(pt.events + rt.events, FinishPhase(true), pf.events + rf.events, []);
        assert Fetch(sf, req, sink, server).events == pf.events + rf.events + [];
      }
    }
  }

  /** The `MLSD` and `LIST` runs of a listing, with and without a recorder. */
  lemma ListingRunsPassive(s: Session, req: Request, sink: SinkChoice, server: Server)
    requires Prepares(s, server)
    ensures var st, sf := s.(hasRecorder := true), s.(hasRecorder := false);
      && WithoutRecorder(MachineEvents(st, req, sink, server)) == MachineEvents(sf, req, sink, server)
      && RecorderCalls(MachineEvents(sf, req, sink, server)) == []
      && WithoutRecorder(ListEvents(st, req, sink, server)) == ListEvents(sf, req, sink, server)
      && RecorderCalls(ListEvents(sf, req, sink, server)) == []
  {
    var st, sf := s.(hasRecorder := true), s.(hasRecorder := false);
    PreparePassive(s, req, sink, server);
    var p := PrepareFetch(st, req, sink, server);
    RunPassive(MlsdCommand(p.result.value.0), p.result.value.1, server.machineListing);
    RunPassive(ListCommand(p.result.value.0), EmptyBody, server.listListing);
  }

  /** The clean-up's recorder calls vanish from the recorder-free view, and
      without a recorder there are none. */
  lemma FinishPhaseUnrecorded()
    ensures WithoutRecorder(FinishPhase(true)) == [] && FinishPhase(false) == []
    ensures WithoutRecorder([]) == [] && RecorderCalls([]) == []
  {
    FilterNone(FinishPhase(true), IsNotRecorderCall);
  }

  /** The recorder-free view of `t` is `f`, which holds no recorder call. */
  predicate PassiveTrace(t: seq<Event>, f: seq<Event>) {
    WithoutRecorder(t) == f && RecorderCalls(f) == []
  }

  /** The events of a listing with a recorder, and without. */
  function ListingEventsWith(s: Session, req: Request, sink: SinkChoice, server: Server, rec: bool): seq<Event> {
    FetchFileListing(s.(hasRecorder := rec), req, sink, server).events
  }

  lemma TracePassiveByMachineListing(s: Session, req: Request, sink: SinkChoice, server: Server)
    requires Prepares(s, server) && CommandError(server.machineListing).None?
    ensures PassiveTrace(ListingEventsWith(s, req, sink, server, true), ListingEventsWith(s, req, sink, server, false))
  {
    var st, sf := s.(hasRecorder := true), s.(hasRecorder := false);
    ShapeByMachineListing(st, req, sink, server);
    ShapeByMachineListing(sf, req, sink, server);
    PreparePassive(s, req, sink, server);
    ListingRunsPassive(s, req, sink, server);
    FinishPhaseUnrecorded();
    var pt, pf := PrepareFetch(st, req, sink, server).events, PrepareFetch(sf, req, sink, server).events;
    var mt, mf := MachineEvents(st, req, sink, server), MachineEvents(sf, req, sink, server);
    assert ListingEventsWith(s, req, sink, server, true) == pt + mt + FinishPhase(true);
    assert ListingEventsWith(s, req, sink, server, false) == pf + mf;
    PassiveAppend(pt, mt, pf, mf);
    PassiveAppend(pt + mt, FinishPhase(true), pf + mf, []);
    assert pf + mf + [] == pf + mf;
  }

  lemma TracePassiveWithoutFallback(s: Session, req: Request, sink: SinkChoice, server: Server)
    requires Prepares(s, server) && CommandError(server.machineListing).Some? && !FallsBack(server)
    ensures PassiveTrace(ListingEventsWith(s, req, sink, server, true), ListingEventsWith(s, req, sink, server, false))
  {
    var st, sf := s.(hasRecorder := true), s.(hasRecorder := false);
    ShapeWithoutFallback(st, req, sink, server);
    ShapeWithoutFallback(sf, req, sink, server);
    PreparePassive(s, req, sink, server);
    ListingRunsPassive(s, req, sink, server);
    var pt, pf := PrepareFetch(st, req, sink, server).events, PrepareFetch(sf, req, sink, server).events;
    var mt, mf := MachineEvents(st, req, sink, server), MachineEvents(sf, req, sink, server);
    assert ListingEventsWith(s, req, sink, server, true) == pt + mt;
    assert ListingEventsWith(s, req, sink, server, false) == pf + mf;
    PassiveAppend(pt, mt, pf, mf);
  }

  lemma TracePassiveFallbackFails(s: Session, req: Request, sink: SinkChoice, server: Server)
    requires Prepares(s, server) && FallsBack(server) && CommandError(server.listListing).Some?
    ensures PassiveTrace(ListingEventsWith(s, req, sink, server, true), ListingEventsWith(s, req, sink, server, false))
  {
    var st, sf := s.(hasRecorder := true), s.(hasRecorder := false);
    ShapeFallbackFails(st, req, sink, server);
    ShapeFallbackFails(sf, req, sink, server);
    PreparePassive(s, req, sink, server);
    ListingRunsPassive(s, req, sink, server);
    var pt, pf := PrepareFetch(st, req, sink, server).events, PrepareFetch(sf, req, sink, server).events;
    var mt, mf := MachineEvents(st, req, sink, server), MachineEvents(sf, req, sink, server);
    var lt, lf := ListEvents(st, req, sink, server), ListEvents(sf, req, sink, server);
    assert ListingEventsWith(s, req, sink, server, true) == pt + mt + lt;
    assert ListingEventsWith(s, req, sink, server, false) == pf + mf + lf;
    PassiveAppend(pt, mt, pf, mf);
    PassiveAppend(pt + mt, lt, pf + mf, lf);
  }

  lemma TracePassiveFallbackSucceeds(s: Session, req: Request, sink: SinkChoice, server: Server)
    requires Prepares(s, server) && FallsBack(server) && CommandError(server.listListing).None?
    ensures PassiveTrace(ListingEventsWith(s, req, sink, server, true), ListingEventsWith(s, req, sink, server, false))
  {
    var st, sf := s.(hasRecorder := true), s.(hasRecorder := false);
    ShapeFallbackSucceeds(st, req, sink, server);
    ShapeFallbackSucceeds(sf, req, sink, server);
    PreparePassive(s, req, sink, server);
    ListingRunsPassive(s, req, sink, server);
    FinishPhaseUnrecorded();
    var pt, pf := PrepareFetch(st, req, sink, server).events, PrepareFetch(sf, req, sink, server).events;
    var mt, mf := MachineEvents(st, req, sink, server), MachineEvents(sf, req, sink, server);
    var lt: seq<Event>, lf: seq<Event> := ListEvents(st, req, sink, server), ListEvents(sf, req, sink, server);
    assert ListingEventsWith(s, req, sink, server, true) == pt + mt + lt + FinishPhase(true);
    assert ListingEventsWith(s, req, sink, server, false) == pf + mf + lf + [];
    FourPartsPassive(pt, mt, lt, FinishPhase(true), pf, mf, lf, []);
  }

  /** `fetch_file_listing` with a recorder attached differs from the one
      without only by recorder calls and the session's flag. */
  lemma ListingTracePassive(s: Session, req: Request, sink: SinkChoice, server: Server)
    ensures var t := FetchFileListing(s.(hasRecorder := true), req, sink, server);
      var f := FetchFileListing(s.(hasRecorder := false), req, sink, server);
      && t.session == f.session.(hasRecorder := true)
      && WithoutRecorder(t.events) == f.events
      && RecorderCalls(f.events) == []
  {
    PreparePassive(s, req, sink, server);
    if !Prepares(s, server) {
      Unrecorded([]);
    } else if CommandError(server.machineListing).None? {
      TracePassiveByMachineListing(s, req, sink, server);
    } else if !FallsBack(server) {
      TracePassiveWithoutFallback(s, req, sink, server);
    } else if CommandError(server.listListing).Some? {
      TracePassiveFallbackFails(s, req, sink, server);
    } else {
      TracePassiveFallbackSucceeds(s, req, sink, server);
    }
  }

  lemma FourPartsPassive(a: seq<Event>, b: seq<Event>, c: seq<Event>, d: seq<Event>,
                         a': seq<Event>, b': seq<Event>, c': seq<Event>, d': seq<Event>)
    requires WithoutRecorder(a) == a' && WithoutRecorder(b) == b'
    requires WithoutRecorder(c) == c' && WithoutRecorder(d) == d'
    requires RecorderCalls(a') == [] && RecorderCalls(b') == [] && RecorderCalls(c') == [] && RecorderCalls(d') == []
    ensures WithoutRecorder(a + b + c + d) == a' + b' + c' + d' && RecorderCalls(a' + b' + c' + d') == []
  {
    PassiveAppend(a, b, a', b');
    PassiveAppend(a + b, c, a' + b', c');
    PassiveAppend(a + b + c, d, a' + b' + c', d');
  }

  /** Whether the listing outcome is the same with and without a recorder. */
  predicate SameListingResult(s: Session, req: Request, sink: SinkChoice, server: Server)
  {
    var t := FetchFileListing(s.(hasRecorder := true), req, sink, server);
    var f := FetchFileListing(s.(hasRecorder := false), req, sink, server);
    t.result == f.result && t.sink == f.sink
  }

  lemma ListingResultPassiveMachine(s: Session, req: Request, sink: SinkChoice, server: Server)
    requires Prepares(s, server) && CommandError(server.machineListing).None?
    ensures SameListingResult(s, req, sink, server)
  {
    PreparePassive(s, req, sink, server);
  }

  lemma ListingResultPassiveReraise(s: Session, req: Request, sink: SinkChoice, server: Server)
    requires Prepares(s, server) && CommandError(server.machineListing).Some? && !FallsBack(server)
    ensures SameListingResult(s, req, sink, server)
  {
    PreparePassive(s, req, sink, server);
  }

  /** A listing command's outcome and body do not depend on the recorder. */
  lemma ListingCommandPassive(req: Request, body: Body, server: Server)
    ensures GetMachineListing(true, req, body, server).result == GetMachineListing(false, req, body, server).result
    ensures GetMachineListing(true, req, body, server).body == GetMachineListing(false, req, body, server).body
    ensures GetListListing(true, req, body, server).result == GetListListing(false, req, body, server).result
    ensures GetListListing(true, req, body, server).body == GetListListing(false, req, body, server).body
  {
  }

  lemma ListingResultPassiveList(s: Session, req: Request, sink: SinkChoice, server: Server)
    requires Prepares(s, server) && FallsBack(server)
    ensures SameListingResult(s, req, sink, server)
  {
    PreparePassive(s, req, sink, server);
    var p := PrepareFetch(s.(hasRecorder := true), req, sink, server);
    ListingCommandPassive(p.result.value.0, p.result.value.1, server);
    ListingCommandPassive(p.result.value.0, EmptyBody, server);
  }

  /** `fetch_file_listing` with a recorder attached returns the same listing
      or exception and leaves the same body. */
  lemma ListingResultPassive(s: Session, req: Request, sink: SinkChoice, server: Server)
    ensures var t := FetchFileListing(s.(hasRecorder := true), req, sink, server);
      var f := FetchFileListing(s.(hasRecorder := false), req, sink, server);
      && t.result == f.result
      && t.sink == f.sink
  {
    if !Prepares(s, server) {
    } else if CommandError(server.machineListing).None? {
      ListingResultPassiveMachine(s, req, sink, server);
    } else if !FallsBack(server) {
      ListingResultPassiveReraise(s, req, sink, server);
    } else {
      ListingResultPassiveList(s, req, sink, server);
    }
  }
}
