/** One FTP fetch session (`Session` of the FTP client) as a state machine.

    The connection pool, the commander and the listing parsers are not
    modelled; what they do for one call is an input (`Server`): the control
    checkout either yields a connection or raises, each commander round-trip
    produces some control traffic and either completes or raises, and each
    data-channel command either fails while setting up the data stream (with or
    without a data connection already checked out) or streams some traffic and
    ends with a reply or an exception. Every operation returns the events it
    appends to the session's trace. */
module FtpClient {
  import opened Wrappers
  import opened FtpTypes
  import opened FtpBody
  import opened FtpTrace

  const DefaultUsername: string := "anonymous"
  const DefaultPassword: string := "-wpull@"

  /** An optional string that was supplied: neither `None` nor `''`. */
  predicate Supplied(s: Option<string>) {
    s.Some? && s.value != ""
  }

  datatype Credentials = Credentials(user: string, password: string)

  /** The user name and password `_log_in` sends: the URL's own when it has
      them, the defaults otherwise. */
  function LogInCredentials(url: UrlInfo): (c: Credentials)
    ensures c.user != "" && c.password != ""
    ensures Supplied(url.username) ==> c.user == url.username.value
    ensures !Supplied(url.username) ==> c.user == DefaultUsername
    ensures Supplied(url.password) ==> c.password == url.password.value
    ensures !Supplied(url.password) ==> c.password == DefaultPassword
  {
    Credentials(
      if Supplied(url.username) then url.username.value else DefaultUsername,
      if Supplied(url.password) then url.password.value else DefaultPassword)
  }

  /** The session's own state: the control connection it holds, the request
      it serves and whether a recorder session is attached. */
  datatype Session = Session(connection: Option<Conn>, request: Option<Request>, hasRecorder: bool)

  /** `Session.__init__`: no control connection and no request yet. */
  function NewSession(hasRecorder: bool): (s: Session)
    ensures s.connection.None? && s.request.None? && s.hasRecorder == hasRecorder
  {
    Session(None, None, hasRecorder)
  }

  /** A commander round-trip: its control traffic and the exception it raised, if any. */
  datatype Exchange = Exchange(io: seq<ControlChunk>, error: Option<FtpError>)

  /** `setup_data_stream`: it fails, having or not having checked out a data
      connection through the factory, or it yields a data stream over `conn`. */
  datatype DataSetup =
    | SetupFailed(acquired: Option<Conn>, io: seq<ControlChunk>, error: FtpError)
    | SetupDone(conn: Conn, io: seq<ControlChunk>)

  /** What happens to one data-channel command: the setup, the traffic of
      `read_stream` and its final reply or exception. */
  datatype CommandScript = CommandScript(setup: DataSetup, transfer: seq<StreamIO>, outcome: Result<Reply, FtpError>)

  /** Everything outside the session that decides how one call goes. */
  datatype Server = Server(
    controlCheckOut: Result<Conn, FtpError>,
    reconnect: Exchange,
    login: Exchange,
    retrieve: CommandScript,
    machineListing: CommandScript,
    listListing: CommandScript,
    parseMachineListing: seq<Byte> -> seq<FileEntry>,
    parseListing: seq<Byte> -> seq<FileEntry>)

  /** The `file` and `callback` arguments of a fetch; a callback is called
      with the request and its answer replaces `file`. */
  datatype SinkChoice = SinkChoice(file: Option<Body>, callback: Option<Request -> Option<Body>>)

  /** A finished fetch; `files` is present for a listing. */
  datatype Response = Response(request: Request, body: Body, reply: Reply, files: Option<seq<FileEntry>>)

  /** The result of one public call: the session afterwards, the events
      appended, the response or exception, and the body's final state when a
      body was set up. */
  datatype Outcome = Outcome(session: Session, events: seq<Event>, result: Result<Response, FtpError>, sink: Option<Body>)

  // ---------------------------------------------------------------------
  // Recorder routing

  /** The control-stream observer: reply bytes go to `response_control_data`,
      command bytes to `request_control_data`. */
  function ControlEvent(chunk: ControlChunk): (e: Event)
    ensures e.IsTraffic() && e.bytes == chunk.data
    ensures e.RequestControlData? || e.ResponseControlData?
    ensures e.ResponseControlData? <==> chunk.direction == ReplyDir
  {
    if chunk.direction == ReplyDir then ResponseControlData(chunk.data) else RequestControlData(chunk.data)
  }

  /** The recorder calls made for some control traffic: one per chunk when a
      recorder is attached (the observer exists only then), none otherwise. */
  function RouteControl(rec: bool, io: seq<ControlChunk>): (r: seq<Event>)
    ensures !rec ==> r == []
    ensures rec ==> |r| == |io| && forall i :: 0 <= i < |io| ==> r[i] == ControlEvent(io[i])
    ensures forall e :: e in r ==> e.IsTraffic()
  {
    if rec then seq(|io|, i requires 0 <= i < |io| => ControlEvent(io[i])) else []
  }

  /** The data-stream observer: only bytes read are forwarded, to `response_data`. */
  function DataEvent(action: DataAction, data: seq<Byte>): (e: Option<Event>)
    ensures e.Some? <==> action == DataRead
    ensures e.Some? ==> e.value == ResponseData(data)
  {
    if action == DataRead then Some(ResponseData(data)) else None
  }

  /** All bytes read from the data connection, in order. */
  function ReadBytes(ios: seq<StreamIO>): seq<Byte>
  {
    if ios == [] then []
    else (if ios[0].DataIO? && ios[0].action == DataRead then ios[0].data else []) + ReadBytes(ios[1..])
  }

  /** The traffic of `read_stream`: bytes read go into the body and, with a
      recorder, every piece of traffic the observers forward becomes a recorder call. */
  function Stream(rec: bool, body: Body, ios: seq<StreamIO>): (r: (seq<Event>, Body))
    ensures forall e :: e in r.0 ==> e.IsTraffic()
    ensures !rec ==> r.0 == []
    decreases |ios|
  {
    if ios == [] then ([], body)
    else
      var head: (seq<Event>, Body) :=
        match ios[0]
        case ControlIO(chunk) => (RouteControl(rec, [chunk]), body)
        case DataIO(action, data) =>
          var forwarded := DataEvent(action, data);
          ((if rec && forwarded.Some? then [forwarded.value] else []),
           if action == DataRead then Write(body, data) else body);
      var rest := Stream(rec, head.1, ios[1..]);
      (head.0 + rest.0, rest.1)
  }

  /** The control chunks among some stream traffic, in order. */
  function ControlChunks(ios: seq<StreamIO>): seq<ControlChunk>
  {
    if ios == [] then []
    else (if ios[0].ControlIO? then [ios[0].chunk] else []) + ControlChunks(ios[1..])
  }

  lemma RouteControlAppend(rec: bool, a: seq<ControlChunk>, b: seq<ControlChunk>)
    ensures RouteControl(rec, a + b) == RouteControl(rec, a) + RouteControl(rec, b)
  {
  }

  /** Routed control traffic forwards no data bytes and is all control traffic. */
  lemma RouteControlTraffic(rec: bool, io: seq<ControlChunk>)
    ensures ForwardedData(RouteControl(rec, io)) == []
    ensures ControlTraffic(RouteControl(rec, io)) == RouteControl(rec, io)
  {
    var r := RouteControl(rec, io);
    forall e | e in r
      ensures e.RequestControlData? || e.ResponseControlData?
    {
      var i :| 0 <= i < |r| && r[i] == e;
      assert e == ControlEvent(io[i]);
    }
    ForwardedDataNone(r);
    FilterAll(r, IsControlTraffic);
  }

  /** What the recorder receives while a stream is read: the `response_data`
      calls carry exactly the bytes read, in order, and never bytes written;
      the control chunks become control-data calls, one each, in order. */
  lemma {:induction false} StreamTraffic(rec: bool, body: Body, ios: seq<StreamIO>)
    ensures ForwardedData(Stream(rec, body, ios).0) == if rec then ReadBytes(ios) else []
    ensures ControlTraffic(Stream(rec, body, ios).0) == RouteControl(rec, ControlChunks(ios))
    decreases |ios|
  {
    if ios != [] {
      var head: (seq<Event>, Body) :=
        match ios[0]
        case ControlIO(chunk) => (RouteControl(rec, [chunk]), body)
        case DataIO(action, data) =>
          var forwarded := DataEvent(action, data);
          ((if rec && forwarded.Some? then [forwarded.value] else []),
           if action == DataRead then Write(body, data) else body);
      var rest := Stream(rec, head.1, ios[1..]);
      assert Stream(rec, body, ios).0 == head.0 + rest.0;
      StreamTraffic(rec, head.1, ios[1..]);
      ForwardedDataAppend(head.0, rest.0);
      FilterAppend(head.0, rest.0, IsControlTraffic);
      match ios[0]
      case ControlIO(chunk) =>
        RouteControlTraffic(rec, [chunk]);
        RouteControlAppend(rec, [chunk], ControlChunks(ios[1..]));
      case DataIO(action, data) =>
        if rec && action == DataRead {
          ForwardedDataSingleton(ResponseData(data));
          FilterSingleton(ResponseData(data), IsControlTraffic);
        }
        assert ControlChunks(ios) == ControlChunks(ios[1..]);
    }
  }

  // ---------------------------------------------------------------------
  // Data channel

  /** One run of `_fetch_with_command`: its events, the body afterwards, the
      reply or exception, the data connection the factory obtained, and
      whether a data stream was created. */
  datatype DataRun = DataRun(events: seq<Event>, body: Body, result: Result<Reply, FtpError>, acquired: Option<Conn>, streamCreated: bool)

  /** The `finally` block: clear the data observers if there is a stream,
      then close the data connection and check it in if there is one. */
  function ReleaseData(streamCreated: bool, acquired: Option<Conn>): (r: seq<Event>)
    ensures |r| == (if streamCreated then 1 else 0) + (if acquired.Some? then 2 else 0)
    ensures streamCreated ==> r[0] == ClearDataObservers
    ensures acquired.Some? ==> r[|r| - 2..] == [CloseConn(Data, acquired.value), CheckIn(Data, acquired.value)]
  {
    (if streamCreated then [ClearDataObservers] else [])
    + (if acquired.Some? then [CloseConn(Data, acquired.value), CheckIn(Data, acquired.value)] else [])
  }

  /** The `finally` block after a stream was set up on `conn`. */
  lemma ReleaseDone(conn: Conn)
    ensures ReleaseData(true, Some(conn)) == [ClearDataObservers, CloseConn(Data, conn), CheckIn(Data, conn)]
  {
  }

  /** `_fetch_with_command`: set up the data stream, send the command and
      stream its data into the body, and release the data connection whatever
      the outcome. Bytes written before a failure stay in the body. */
  function FetchWithCommand(rec: bool, cmd: Command, body: Body, script: CommandScript): (r: DataRun)
    ensures r.acquired == (if script.setup.SetupDone? then Some(script.setup.conn) else script.setup.acquired)
    ensures r.streamCreated <==> script.setup.SetupDone?
    ensures r.result == if r.streamCreated then script.outcome else Failure(script.setup.error)
    ensures r.body == if r.streamCreated then Write(body, ReadBytes(script.transfer)) else body
  {
    match script.setup
    case SetupFailed(acquired, io, error) =>
      var routed := RouteControl(rec, io);
      var checkedOut := if acquired.Some? then [CheckOut(Data, acquired.value)] else [];
      DataRun(routed + (checkedOut + ReleaseData(false, acquired)), body, Failure(error), acquired, false)
    case SetupDone(conn, io) =>
      var streamed := Stream(rec, body, script.transfer);
      StreamWritesReadBytes(rec, body, script.transfer);
      var events := RouteControl(rec, io) + [CheckOut(Data, conn), SendCommand(cmd)] + streamed.0
                    + ReleaseData(true, Some(conn));
      DataRun(events, streamed.1, script.outcome, Some(conn), true)
  }

  /** What `_fetch_with_command` does to the pools and the commander: a data
      connection it obtained is closed and checked in, last; the data
      observers are cleared once exactly when a stream was created; and the
      command is sent exactly when the stream was created, with no other
      phase marker. */
  lemma FetchWithCommandEvents(rec: bool, cmd: Command, body: Body, script: CommandScript)
    ensures var r := FetchWithCommand(rec, cmd, body, script);
      && DataPool(r.events) == (if r.acquired.Some? then ReleaseCycle(r.acquired.value) else [])
      && (r.acquired.Some? ==>
           |r.events| >= 2
           && r.events[|r.events| - 2..] == [CloseConn(Data, r.acquired.value), CheckIn(Data, r.acquired.value)])
      && Occurrences(r.events, ClearDataObservers) == (if r.streamCreated then 1 else 0)
      && Commands(r.events) == (if r.streamCreated then [SendCommand(cmd)] else [])
      && Milestones(r.events) == Commands(r.events)
  {
    if script.setup.SetupFailed? {
      FailedRunEvents(rec, cmd, body, script);
    } else {
      DoneRunEvents(rec, cmd, body, script);
    }
  }

  lemma FailedRunEvents(rec: bool, cmd: Command, body: Body, script: CommandScript)
    requires script.setup.SetupFailed?
    ensures var r := FetchWithCommand(rec, cmd, body, script);
      && DataPool(r.events) == (if r.acquired.Some? then ReleaseCycle(r.acquired.value) else [])
      && (r.acquired.Some? ==>
           |r.events| >= 2
           && r.events[|r.events| - 2..] == [CloseConn(Data, r.acquired.value), CheckIn(Data, r.acquired.value)])
      && Occurrences(r.events, ClearDataObservers) == 0
      && Commands(r.events) == [] && Milestones(r.events) == []
  {
    var acquired := script.setup.acquired;
    var routed := RouteControl(rec, script.setup.io);
    var checkedOut := if acquired.Some? then [CheckOut(Data, acquired.value)] else [];
    assert FetchWithCommand(rec, cmd, body, script).events == routed + (checkedOut + ReleaseData(false, acquired));
    ReleaseFailed(acquired);
    if acquired.Some? {
      SetupFailedLateEvents(routed, acquired.value);
      LastTwo(routed, ReleaseCycle(acquired.value));
    } else {
      assert routed + ([] + []) == routed;
      SetupFailedEarlyEvents(routed);
    }
  }

  lemma DoneRunEvents(rec: bool, cmd: Command, body: Body, script: CommandScript)
    requires script.setup.SetupDone?
    ensures var r := FetchWithCommand(rec, cmd, body, script);
      var conn := script.setup.conn;
      && DataPool(r.events) == ReleaseCycle(conn)
      && |r.events| >= 2 && r.events[|r.events| - 2..] == [CloseConn(Data, conn), CheckIn(Data, conn)]
      && Occurrences(r.events, ClearDataObservers) == 1
      && Commands(r.events) == [SendCommand(cmd)] && Milestones(r.events) == [SendCommand(cmd)]
  {
    var conn := script.setup.conn;
    var streamed := Stream(rec, body, script.transfer).0;
    var front := RouteControl(rec, script.setup.io) + [CheckOut(Data, conn), SendCommand(cmd)] + streamed;
    assert FetchWithCommand(rec, cmd, body, script).events == front + ReleaseData(true, Some(conn));
    FetchWithCommandDoneEvents(rec, script.setup.io, conn, cmd, streamed);
    ReleaseDone(conn);
    LastTwo(front, ReleaseData(true, Some(conn)));
  }

  /** The last two events of a trace that ends with at least two. */
  lemma LastTwo(a: seq<Event>, b: seq<Event>)
    requires |b| >= 2
    ensures (a + b)[|a + b| - 2..] == b[|b| - 2..]
  {
  }

  /** The body a stream leaves is the old body with all bytes read written into it. */
  lemma {:induction false} StreamWritesReadBytes(rec: bool, body: Body, ios: seq<StreamIO>)
    ensures Stream(rec, body, ios).1 == Write(body, ReadBytes(ios))
    decreases |ios|
  {
    if ios == [] {
      assert Write(body, []) == body by {
        assert Write(body, []).data == body.data[..body.pos] + body.data[body.pos..];
      }
    } else {
      var chunk := if ios[0].DataIO? && ios[0].action == DataRead then ios[0].data else [];
      var next := if ios[0].DataIO? && ios[0].action == DataRead then Write(body, ios[0].data) else body;
      StreamWritesReadBytes(rec, next, ios[1..]);
      if ios[0].DataIO? && ios[0].action == DataRead {
        WriteAppend(body, chunk, ReadBytes(ios[1..]));
      } else {
        assert chunk + ReadBytes(ios[1..]) == ReadBytes(ios[1..]);
      }
    }
  }

  /** Filtering with a predicate that rejects all recorder traffic ignores
      the routed control traffic and the streamed traffic of a command. */
  lemma FilterSkipsTraffic(routed: seq<Event>, opening: seq<Event>, streamed: seq<Event>, release: seq<Event>, p: Event -> bool)
    requires forall e :: e in routed ==> e.IsTraffic()
    requires forall e :: e in streamed ==> e.IsTraffic()
    requires forall e: Event :: e.IsTraffic() ==> !p(e)
    ensures Filter(routed + opening + streamed + release, p) == Filter(opening, p) + Filter(release, p)
  {
    FilterAppend(routed + opening + streamed, release, p);
    FilterAppend(routed + opening, streamed, p);
    FilterAppend(routed, opening, p);
    FilterNone(routed, p);
    FilterNone(streamed, p);
  }

  lemma OccurrencesSkipTraffic(routed: seq<Event>, opening: seq<Event>, streamed: seq<Event>, release: seq<Event>, e: Event)
    requires forall x :: x in routed ==> x.IsTraffic()
    requires forall x :: x in streamed ==> x.IsTraffic()
    requires !e.IsTraffic()
    ensures Occurrences(routed + opening + streamed + release, e) == Occurrences(opening, e) + Occurrences(release, e)
  {
    OccurrencesAppend(routed + opening + streamed, release, e);
    OccurrencesAppend(routed + opening, streamed, e);
    OccurrencesAppend(routed, opening, e);
    TrafficHasNo(routed, e);
    TrafficHasNo(streamed, e);
  }

  /** The pool and observer events of the `finally` block. */
  lemma ReleaseDataEvents(streamCreated: bool, acquired: Option<Conn>)
    ensures var release := ReleaseData(streamCreated, acquired);
      && Filter(release, IsDataPool) == (if acquired.Some? then [CloseConn(Data, acquired.value), CheckIn(Data, acquired.value)] else [])
      && Filter(release, IsSendCommand) == []
      && Filter(release, IsMilestone) == []
      && Occurrences(release, ClearDataObservers) == (if streamCreated then 1 else 0)
  {
    var clear: seq<Event> := if streamCreated then [ClearDataObservers] else [];
    var pool: seq<Event> := if acquired.Some? then [CloseConn(Data, acquired.value), CheckIn(Data, acquired.value)] else [];
    assert ReleaseData(streamCreated, acquired) == clear + pool;
    ReleasePartsEvents(streamCreated, acquired, clear, pool);
  }

  /** The two parts of the `finally` block: clearing the observers and
      releasing the connection. */
  lemma ReleasePartsEvents(streamCreated: bool, acquired: Option<Conn>, clear: seq<Event>, pool: seq<Event>)
    requires clear == if streamCreated then [ClearDataObservers] else []
    requires pool == if acquired.Some? then [CloseConn(Data, acquired.value), CheckIn(Data, acquired.value)] else []
    ensures Filter(clear + pool, IsDataPool) == pool
    ensures Filter(clear + pool, IsSendCommand) == [] && Filter(clear + pool, IsMilestone) == []
    ensures Occurrences(clear + pool, ClearDataObservers) == (if streamCreated then 1 else 0)
  {
    ClearPartEvents(streamCreated, clear);
    PoolPartEvents(acquired, pool);
    FilterAppend(clear, pool, IsDataPool);
    FilterAppend(clear, pool, IsSendCommand);
    FilterAppend(clear, pool, IsMilestone);
    OccurrencesAppend(clear, pool, ClearDataObservers);
  }

  lemma ClearPartEvents(streamCreated: bool, clear: seq<Event>)
    requires clear == if streamCreated then [ClearDataObservers] else []
    ensures Filter(clear, IsDataPool) == [] && Filter(clear, IsSendCommand) == [] && Filter(clear, IsMilestone) == []
    ensures Occurrences(clear, ClearDataObservers) == (if streamCreated then 1 else 0)
  {
    if streamCreated {
      FilterSingleton(ClearDataObservers, IsDataPool);
      FilterSingleton(ClearDataObservers, IsSendCommand);
      FilterSingleton(ClearDataObservers, IsMilestone);
      OccurrencesSingleton(ClearDataObservers, ClearDataObservers);
    }
  }

  lemma PoolPartEvents(acquired: Option<Conn>, pool: seq<Event>)
    requires pool == if acquired.Some? then [CloseConn(Data, acquired.value), CheckIn(Data, acquired.value)] else []
    ensures Filter(pool, IsDataPool) == pool && Filter(pool, IsSendCommand) == [] && Filter(pool, IsMilestone) == []
    ensures Occurrences(pool, ClearDataObservers) == 0
  {
    if acquired.Some? {
      var c := acquired.value;
      FilterPair(CloseConn(Data, c), CheckIn(Data, c), IsDataPool);
      FilterPair(CloseConn(Data, c), CheckIn(Data, c), IsSendCommand);
      FilterPair(CloseConn(Data, c), CheckIn(Data, c), IsMilestone);
      OccurrencesPair(CloseConn(Data, c), CheckIn(Data, c), ClearDataObservers);
    }
  }

  /** The `finally` block after a failed setup releases only what the
      factory checked out. */
  lemma ReleaseFailed(acquired: Option<Conn>)
    ensures acquired.Some? ==> [CheckOut(Data, acquired.value)] + ReleaseData(false, acquired) == ReleaseCycle(acquired.value)
    ensures acquired.None? ==> ReleaseData(false, acquired) == []
  {
  }

  /** Events of a setup that failed before the factory obtained a connection. */
  lemma SetupFailedEarlyEvents(routed: seq<Event>)
    requires forall e :: e in routed ==> e.IsTraffic()
    ensures DataPool(routed) == [] && Commands(routed) == [] && Milestones(routed) == []
    ensures Occurrences(routed, ClearDataObservers) == 0
  {
    FilterNone(routed, IsDataPool);
    FilterNone(routed, IsSendCommand);
    FilterNone(routed, IsMilestone);
    TrafficHasNo(routed, ClearDataObservers);
  }

  /** Events of a setup that failed after the factory checked out `c`. */
  lemma SetupFailedLateEvents(routed: seq<Event>, c: Conn)
    requires forall e :: e in routed ==> e.IsTraffic()
    ensures DataPool(routed + ReleaseCycle(c)) == ReleaseCycle(c)
    ensures Commands(routed + ReleaseCycle(c)) == [] && Milestones(routed + ReleaseCycle(c)) == []
    ensures Occurrences(routed + ReleaseCycle(c), ClearDataObservers) == 0
  {
    var cycle := ReleaseCycle(c);
    SetupFailedEarlyEvents(routed);
    FilterAppend(routed, cycle, IsDataPool);
    FilterAppend(routed, cycle, IsSendCommand);
    FilterAppend(routed, cycle, IsMilestone);
    OccurrencesAppend(routed, cycle, ClearDataObservers);
    FilterCycle(c, IsDataPool);
    FilterCycle(c, IsSendCommand);
    FilterCycle(c, IsMilestone);
    OccurrencesAbsent(cycle, ClearDataObservers);
  }

  lemma FetchWithCommandDoneEvents(rec: bool, io: seq<ControlChunk>, conn: Conn, cmd: Command, streamed: seq<Event>)
    requires forall e :: e in streamed ==> e.IsTraffic()
    ensures var events := RouteControl(rec, io) + [CheckOut(Data, conn), SendCommand(cmd)] + streamed
                          + ReleaseData(true, Some(conn));
      && DataPool(events) == ReleaseCycle(conn)
      && Occurrences(events, ClearDataObservers) == 1
      && Commands(events) == [SendCommand(cmd)]
      && Milestones(events) == [SendCommand(cmd)]
  {
    DoneDataEvents(RouteControl(rec, io), conn, cmd, streamed);
    DoneCommandEvents(RouteControl(rec, io), conn, cmd, streamed);
  }

  lemma DoneDataEvents(routed: seq<Event>, conn: Conn, cmd: Command, streamed: seq<Event>)
    requires forall e :: e in routed ==> e.IsTraffic()
    requires forall e :: e in streamed ==> e.IsTraffic()
    ensures var events := routed + [CheckOut(Data, conn), SendCommand(cmd)] + streamed
                          + ReleaseData(true, Some(conn));
      && DataPool(events) == ReleaseCycle(conn)
      && Occurrences(events, ClearDataObservers) == 1
  {
    var opening := [CheckOut(Data, conn), SendCommand(cmd)];
    var release := ReleaseData(true, Some(conn));
    FilterSkipsTraffic(routed, opening, streamed, release, IsDataPool);
    OccurrencesSkipTraffic(routed, opening, streamed, release, ClearDataObservers);
    ReleaseDataEvents(true, Some(conn));
    FilterPair(CheckOut(Data, conn), SendCommand(cmd), IsDataPool);
    OccurrencesPair(CheckOut(Data, conn), SendCommand(cmd), ClearDataObservers);
  }

  lemma DoneCommandEvents(routed: seq<Event>, conn: Conn, cmd: Command, streamed: seq<Event>)
    requires forall e :: e in routed ==> e.IsTraffic()
    requires forall e :: e in streamed ==> e.IsTraffic()
    ensures var events := routed + [CheckOut(Data, conn), SendCommand(cmd)] + streamed
                          + ReleaseData(true, Some(conn));
      && Commands(events) == [SendCommand(cmd)]
      && Milestones(events) == [SendCommand(cmd)]
  {
    var opening := [CheckOut(Data, conn), SendCommand(cmd)];
    var release := ReleaseData(true, Some(conn));
    FilterSkipsTraffic(routed, opening, streamed, release, IsSendCommand);
    FilterSkipsTraffic(routed, opening, streamed, release, IsMilestone);
    ReleaseDataEvents(true, Some(conn));
    FilterPair(CheckOut(Data, conn), SendCommand(cmd), IsSendCommand);
    FilterPair(CheckOut(Data, conn), SendCommand(cmd), IsMilestone);
  }

  lemma {:induction false} TrafficHasNo(s: seq<Event>, e: Event)
    requires forall x :: x in s ==> x.IsTraffic()
    requires !e.IsTraffic()
    ensures Occurrences(s, e) == 0
    decreases |s|
  {
    if s != [] {
      assert s[0] in s;
      assert forall x :: x in s[1..] ==> x in s;
      TrafficHasNo(s[1..], e);
    }
  }

  // ---------------------------------------------------------------------
  // Control connection and log-in

  /** `_init_stream`: check out a control connection and remember the
      request. Its assertion that no connection is held yet becomes the
      `AssertionFailed` outcome; a failed check-out leaves the session as it was. */
  function InitStream(s: Session, req: Request, checkOut: Result<Conn, FtpError>): (r: (Session, seq<Event>, Option<FtpError>))
    ensures s.connection.Some? ==> r == (s, [], Some(AssertionFailed))
    ensures r.2.None? <==> s.connection.None? && checkOut.Success?
    ensures r.2.None? ==>
      r.0 == Session(Some(checkOut.value), Some(req), s.hasRecorder) && r.1 == [CheckOut(Control, checkOut.value)]
    ensures r.2.Some? ==> r.0 == s && r.1 == []
  {
    if s.connection.Some? then (s, [], Some(AssertionFailed))
    else
      match checkOut
      case Failure(e) => (s, [], Some(e))
      case Success(c) => (Session(Some(c), Some(req), s.hasRecorder), [CheckOut(Control, c)], None)
  }

  /** `_log_in`: reconnect the commander, then log in with the request's
      credentials or the defaults. A failed reconnect means no log-in is sent. */
  function LogIn(s: Session, server: Server): (r: (seq<Event>, Option<FtpError>))
    requires s.request.Some?
    ensures r.1 == if server.reconnect.error.Some? then server.reconnect.error else server.login.error
  {
    var cred := LogInCredentials(s.request.value.urlInfo);
    var reconnected := [Reconnect] + RouteControl(s.hasRecorder, server.reconnect.io);
    if server.reconnect.error.Some? then (reconnected, server.reconnect.error)
    else (reconnected + ([Login(cred.user, cred.password)] + RouteControl(s.hasRecorder, server.login.io)), server.login.error)
  }

  /** The commander calls of `_log_in`: a reconnect, then the log-in with the
      chosen credentials unless the reconnect failed; no pool event. */
  lemma LogInTrace(s: Session, server: Server)
    requires s.request.Some?
    ensures var r := LogIn(s, server);
      var cred := LogInCredentials(s.request.value.urlInfo);
      && Milestones(r.0) == [Reconnect] + (if server.reconnect.error.None? then [Login(cred.user, cred.password)] else [])
      && DataPool(r.0) == []
      && Filter(r.0, IsControlCheckOut) == []
  {
    LogInEvents(s.hasRecorder, server.reconnect.io, server.login.io, LogInCredentials(s.request.value.urlInfo));
  }

  lemma LogInEvents(rec: bool, reconnectIo: seq<ControlChunk>, loginIo: seq<ControlChunk>, cred: Credentials)
    ensures var reconnected := [Reconnect] + RouteControl(rec, reconnectIo);
      var loggedIn := [Login(cred.user, cred.password)] + RouteControl(rec, loginIo);
      && Milestones(reconnected) == [Reconnect]
      && Milestones(reconnected + loggedIn) == [Reconnect, Login(cred.user, cred.password)]
      && DataPool(reconnected) == [] && DataPool(reconnected + loggedIn) == []
      && Filter(reconnected, IsControlCheckOut) == [] && Filter(reconnected + loggedIn, IsControlCheckOut) == []
  {
    var login := Login(cred.user, cred.password);
    var r1 := RouteControl(rec, reconnectIo);
    var r2 := RouteControl(rec, loginIo);
    TrafficCarriesNoMarkers(r1);
    TrafficCarriesNoMarkers(r2);
    MarkerThenTraffic(Reconnect, r1);
    MarkerThenTraffic(login, r2);
    var reconnected := [Reconnect] + r1;
    var loggedIn := [login] + r2;
    FilterAppend(reconnected, loggedIn, IsMilestone);
    FilterAppend(reconnected, loggedIn, IsDataPool);
    FilterAppend(reconnected, loggedIn, IsControlCheckOut);
  }

  /** Recorder traffic holds no phase marker, no pool event and no command. */
  lemma TrafficCarriesNoMarkers(s: seq<Event>)
    requires forall e :: e in s ==> e.IsTraffic()
    ensures Milestones(s) == [] && DataPool(s) == [] && Commands(s) == []
    ensures Filter(s, IsControlCheckOut) == []
  {
    FilterNone(s, IsMilestone);
    FilterNone(s, IsDataPool);
    FilterNone(s, IsSendCommand);
    FilterNone(s, IsControlCheckOut);
  }

  /** A commander call followed by its traffic shows only the call. */
  lemma MarkerThenTraffic(e: Event, s: seq<Event>)
    requires Milestones(s) == [] && DataPool(s) == [] && Commands(s) == [] && Filter(s, IsControlCheckOut) == []
    ensures Milestones([e] + s) == Milestones([e])
    ensures DataPool([e] + s) == DataPool([e])
    ensures Commands([e] + s) == Commands([e])
    ensures Filter([e] + s, IsControlCheckOut) == Filter([e], IsControlCheckOut)
  {
    FilterAppend([e], s, IsMilestone);
    FilterAppend([e], s, IsDataPool);
    FilterAppend([e], s, IsSendCommand);
    FilterAppend([e], s, IsControlCheckOut);
  }

  /** The body a fetch writes into: the callback's answer when there is a
      callback, otherwise `file`; no file at all means a fresh empty body. */
  function ChooseBody(sink: SinkChoice, req: Request): (b: Body)
    ensures sink.callback.Some? && sink.callback.value(req).Some? ==> b == sink.callback.value(req).value
    ensures sink.callback.Some? && sink.callback.value(req).None? ==> b == EmptyBody
    ensures sink.callback.None? && sink.file.Some? ==> b == sink.file.value
    ensures sink.callback.None? && sink.file.None? ==> b == EmptyBody
  {
    var file := if sink.callback.Some? then sink.callback.value(req) else sink.file;
    if file.Some? then file.value else EmptyBody
  }

  /** The request once the control connection's address is filled in. */
  function Addressed(req: Request, conn: Conn): Request {
    req.(address := Some(conn.address))
  }

  /** Setup succeeds: no connection held yet, the check-out works, and the
      commander reconnects and logs in. */
  predicate Prepares(s: Session, server: Server) {
    && s.connection.None?
    && server.controlCheckOut.Success?
    && server.reconnect.error.None?
    && server.login.error.None?
  }

  /** The exception a failed `_prepare_fetch` raises: the first step that fails. */
  function PrepareError(s: Session, server: Server): FtpError
    requires !Prepares(s, server)
  {
    if s.connection.Some? then AssertionFailed
    else if server.controlCheckOut.Failure? then server.controlCheckOut.error
    else if server.reconnect.error.Some? then server.reconnect.error.value
    else server.login.error.value
  }

  /** The phase markers of a successful `_prepare_fetch`. */
  function ControlPhase(rec: bool, conn: Conn, req: Request, cred: Credentials): seq<Event> {
    [CheckOut(Control, conn)] + (if rec then [BeginControl(req)] else [])
    + [Reconnect, Login(cred.user, cred.password)] + (if rec then [PreResponse] else [])
  }

  datatype Prepared = Prepared(session: Session, events: seq<Event>, result: Result<(Request, Body), FtpError>)

  /** `_prepare_fetch`: control connection, address, `begin_control`, log-in,
      body choice, `pre_response`. */
  function PrepareFetch(s: Session, req: Request, sink: SinkChoice, server: Server): (p: Prepared)
    ensures p.result.Success? <==> Prepares(s, server)
    ensures p.session.hasRecorder == s.hasRecorder
    ensures s.connection.Some? ==> p.session == s && p.events == [] && p.result == Failure(AssertionFailed)
    ensures s.connection.None? ==> (p.session.connection.Some? <==> server.controlCheckOut.Success?)
    ensures s.connection.None? && server.controlCheckOut.Success? ==>
      p.session.connection == Some(server.controlCheckOut.value)
    ensures p.result.Failure? ==> p.result.error == PrepareError(s, server)
    ensures p.result.Success? ==>
      var conn := server.controlCheckOut.value;
      var addressed := Addressed(req, conn);
      p.result.value == (addressed, ChooseBody(sink, addressed))
  {
    var init := InitStream(s, req, server.controlCheckOut);
    if init.2.Some? then Prepared(init.0, init.1, Failure(init.2.value))
    else
      var conn := init.0.connection.value;
      var addressed := Addressed(req, conn);
      var session := init.0.(request := Some(addressed));
      var rec := s.hasRecorder;
      var begun := [CheckOut(Control, conn)] + (if rec then [BeginControl(addressed)] else []);
      var login := LogIn(session, server);
      var prepared := if rec then [PreResponse] else [];
      if login.1.Some? then Prepared(session, begun + login.0, Failure(login.1.value))
      else Prepared(session, begun + login.0 + prepared, Success((addressed, ChooseBody(sink, addressed))))
  }

  /** What `_prepare_fetch` does to the pools and the recorder: one control
      check-out when the check-out works, no data connection, and on success
      the control phase's markers in order. */
  lemma PrepareFetchTrace(s: Session, req: Request, sink: SinkChoice, server: Server)
    ensures var p := PrepareFetch(s, req, sink, server);
      && |Filter(p.events, IsControlCheckOut)| == (if s.connection.None? && server.controlCheckOut.Success? then 1 else 0)
      && DataPool(p.events) == []
      && (p.result.Success? ==>
            var conn := server.controlCheckOut.value;
            Milestones(p.events) == ControlPhase(s.hasRecorder, conn, Addressed(req, conn), LogInCredentials(req.urlInfo)))
  {
    var init := InitStream(s, req, server.controlCheckOut);
    if init.2.None? {
      var conn := init.0.connection.value;
      var addressed := Addressed(req, conn);
      var session := init.0.(request := Some(addressed));
      var rec := s.hasRecorder;
      var begun := [CheckOut(Control, conn)] + (if rec then [BeginControl(addressed)] else []);
      var prepared := if rec then [PreResponse] else [];
      LogInTrace(session, server);
      PrepareEvents(rec, conn, addressed, begun, LogIn(session, server).0, prepared);
    }
  }

  lemma PrepareEvents(rec: bool, conn: Conn, req: Request, begun: seq<Event>, login: seq<Event>, prepared: seq<Event>)
    requires begun == [CheckOut(Control, conn)] + (if rec then [BeginControl(req)] else [])
    requires prepared == if rec then [PreResponse] else []
    requires DataPool(login) == [] && Filter(login, IsControlCheckOut) == []
    ensures DataPool(begun + login) == [] && DataPool(begun + login + prepared) == []
    ensures |Filter(begun + login, IsControlCheckOut)| == 1
    ensures |Filter(begun + login + prepared, IsControlCheckOut)| == 1
    ensures Milestones(begun + login + prepared) == Milestones(begun) + Milestones(login) + prepared
    ensures Milestones(begun) == begun
  {
    PrepareMilestones(rec, conn, req, begun, login, prepared);
    PrepareDataPool(rec, conn, req, begun, login, prepared);
    PrepareControlCheckOut(rec, conn, req, begun, login, prepared);
  }

  lemma PrepareMilestones(rec: bool, conn: Conn, req: Request, begun: seq<Event>, login: seq<Event>, prepared: seq<Event>)
    requires begun == [CheckOut(Control, conn)] + (if rec then [BeginControl(req)] else [])
    requires prepared == if rec then [PreResponse] else []
    ensures Milestones(begun + login + prepared) == Milestones(begun) + Milestones(login) + prepared
    ensures Milestones(begun) == begun
  {
    var checkedOut := [CheckOut(Control, conn)];
    var recorded: seq<Event> := if rec then [BeginControl(req)] else [];
    FilterAppendThree(begun, login, prepared, IsMilestone);
    FilterAppend(checkedOut, recorded, IsMilestone);
    FilterSingleton(CheckOut(Control, conn), IsMilestone);
    if rec {
      FilterSingleton(BeginControl(req), IsMilestone);
      FilterSingleton(PreResponse, IsMilestone);
    }
  }

  lemma PrepareDataPool(rec: bool, conn: Conn, req: Request, begun: seq<Event>, login: seq<Event>, prepared: seq<Event>)
    requires begun == [CheckOut(Control, conn)] + (if rec then [BeginControl(req)] else [])
    requires prepared == if rec then [PreResponse] else []
    requires DataPool(login) == []
    ensures DataPool(begun + login) == [] && DataPool(begun + login + prepared) == []
  {
    var checkedOut := [CheckOut(Control, conn)];
    var recorded: seq<Event> := if rec then [BeginControl(req)] else [];
    FilterAppend(begun, login, IsDataPool);
    FilterAppendThree(begun, login, prepared, IsDataPool);
    FilterAppend(checkedOut, recorded, IsDataPool);
    FilterSingleton(CheckOut(Control, conn), IsDataPool);
    if rec {
      FilterSingleton(BeginControl(req), IsDataPool);
      FilterSingleton(PreResponse, IsDataPool);
    }
  }

  lemma PrepareControlCheckOut(rec: bool, conn: Conn, req: Request, begun: seq<Event>, login: seq<Event>, prepared: seq<Event>)
    requires begun == [CheckOut(Control, conn)] + (if rec then [BeginControl(req)] else [])
    requires prepared == if rec then [PreResponse] else []
    requires Filter(login, IsControlCheckOut) == []
    ensures |Filter(begun + login, IsControlCheckOut)| == 1
    ensures |Filter(begun + login + prepared, IsControlCheckOut)| == 1
  {
    var checkedOut := [CheckOut(Control, conn)];
    var recorded: seq<Event> := if rec then [BeginControl(req)] else [];
    FilterAppend(begun, login, IsControlCheckOut);
    FilterAppendThree(begun, login, prepared, IsControlCheckOut);
    FilterAppend(checkedOut, recorded, IsControlCheckOut);
    FilterSingleton(CheckOut(Control, conn), IsControlCheckOut);
    if rec {
      FilterSingleton(BeginControl(req), IsControlCheckOut);
      FilterSingleton(PreResponse, IsControlCheckOut);
    }
  }

  // ---------------------------------------------------------------------
  // Fetching

  /** The exception a data-channel command ends with, if any. */
  function CommandError(script: CommandScript): Option<FtpError> {
    if script.setup.SetupFailed? then Some(script.setup.error)
    else if script.outcome.Failure? then Some(script.outcome.error)
    else None
  }

  /** `_clean_up_fetch`: rewind the body, set the reply, then `response` and
      `end_control` on the recorder. */
  function CleanUpFetch(rec: bool, req: Request, body: Body, reply: Reply, files: Option<seq<FileEntry>>): (r: (seq<Event>, Response))
    ensures r.1.request == req && r.1.reply == reply && r.1.files == files
    ensures r.1.body.data == body.data && r.1.body.pos == 0
    ensures rec ==> r.0 == [RecordResponse, EndControl]
    ensures !rec ==> r.0 == []
  {
    ((if rec then [RecordResponse, EndControl] else []), Response(req, Rewind(body), reply, files))
  }

  /** `fetch`: prepare, send one `RETR` for the request's path through the
      data channel, and finish the response. */
  function Fetch(s: Session, req: Request, sink: SinkChoice, server: Server): (o: Outcome)
    ensures o.session == PrepareFetch(s, req, sink, server).session
    ensures o.result.Success? <==> Prepares(s, server) && CommandError(server.retrieve).None?
    ensures o.result.Failure? ==>
      o.result.error == if Prepares(s, server) then CommandError(server.retrieve).value else PrepareError(s, server)
    ensures o.result.Success? ==>
      var addressed := Addressed(req, server.controlCheckOut.value);
      && o.result.value.request == addressed
      && server.retrieve.outcome == Success(o.result.value.reply)
      && o.result.value.body.pos == 0
      && o.result.value.body.data == Write(ChooseBody(sink, addressed), ReadBytes(server.retrieve.transfer)).data
      && o.result.value.files.None?
      && o.sink == Some(o.result.value.body)
  {
    var p := PrepareFetch(s, req, sink, server);
    if p.result.Failure? then Outcome(p.session, p.events, Failure(p.result.error), None)
    else
      var addressed := p.result.value.0;
      var run := FetchWithCommand(s.hasRecorder, Command("RETR", addressed.urlInfo.path), p.result.value.1, server.retrieve);
      if run.result.Failure? then Outcome(p.session, p.events + run.events, Failure(run.result.error), Some(run.body))
      else
        var done := CleanUpFetch(s.hasRecorder, addressed, run.body, run.result.value, None);
        Outcome(p.session, p.events + run.events + done.0, Success(done.1), Some(done.1.body))
  }

  /** A listing command's run and what the listing parser made of the body. */
  datatype ListingRun = ListingRun(run: DataRun, body: Body, result: Result<(Reply, seq<FileEntry>), FtpError>)

  /** Run a listing command, then rewind the body and hand all of it to the parser. */
  function GetListing(rec: bool, cmd: Command, body: Body, script: CommandScript, parse: seq<Byte> -> seq<FileEntry>): (r: ListingRun)
    ensures r.run == FetchWithCommand(rec, cmd, body, script)
    ensures r.result.Failure? <==> r.run.result.Failure?
    ensures r.result.Failure? ==> r.result.error == r.run.result.error && r.body == r.run.body
    ensures r.result.Success? ==>
      r.body.data == r.run.body.data && r.result.value == (r.run.result.value, parse(r.body.data))
  {
    var run := FetchWithCommand(rec, cmd, body, script);
    if run.result.Failure? then ListingRun(run, run.body, Failure(run.result.error))
    else
      var read := ReadAll(Rewind(run.body));
      ListingRun(run, read.1, Success((run.result.value, parse(read.0))))
  }

  /** `_get_machine_listing`: `MLSD` on the request's path, parsed as a machine listing. */
  function GetMachineListing(rec: bool, req: Request, body: Body, server: Server): (r: ListingRun)
    ensures var script := server.machineListing;
      && Commands(r.run.events) == (if script.setup.SetupDone? then [SendCommand(Command("MLSD", req.urlInfo.path))] else [])
      && (r.result.Success? <==> CommandError(script).None?)
      && (r.result.Failure? ==> r.result.error == CommandError(script).value)
      && (r.result.Success? ==>
            && r.result.value.0 == script.outcome.value
            && r.body.data == Write(body, ReadBytes(script.transfer)).data
            && r.result.value.1 == server.parseMachineListing(r.body.data))
  {
    FetchWithCommandEvents(rec, Command("MLSD", req.urlInfo.path), body, server.machineListing);
    GetListing(rec, Command("MLSD", req.urlInfo.path), body, server.machineListing, server.parseMachineListing)
  }

  /** `_get_list_listing`: `LIST` on the request's path, parsed heuristically. */
  function GetListListing(rec: bool, req: Request, body: Body, server: Server): (r: ListingRun)
    ensures var script := server.listListing;
      && Commands(r.run.events) == (if script.setup.SetupDone? then [SendCommand(Command("LIST", req.urlInfo.path))] else [])
      && (r.result.Success? <==> CommandError(script).None?)
      && (r.result.Failure? ==> r.result.error == CommandError(script).value)
      && (r.result.Success? ==>
            && r.result.value.0 == script.outcome.value
            && r.body.data == Write(body, ReadBytes(script.transfer)).data
            && r.result.value.1 == server.parseListing(r.body.data))
  {
    FetchWithCommandEvents(rec, Command("LIST", req.urlInfo.path), body, server.listListing);
    GetListing(rec, Command("LIST", req.urlInfo.path), body, server.listListing, server.parseListing)
  }

  /** Reply codes for which a failed `MLSD` is retried as `LIST`. */
  function IsFallbackCode(code: nat): (b: bool)
    ensures b <==> code == 500 || code == 502
  {
    code == SyntaxErrorCommandUnrecognized || code == CommandNotImplemented
  }

  /** What the `except FTPServerError` handler of `fetch_file_listing` does. */
  datatype Recovery = RetryWithList(body: Body) | Reraise(error: FtpError, body: Body)

  /** The handler around the `MLSD` attempt. Only a server error is caught;
      its body is emptied before the code is looked at; codes 500 and 502
      lead to `LIST`, every other error leaves unchanged. */
  function RecoverMachineListing(error: FtpError, body: Body): (d: Recovery)
    ensures d.RetryWithList? <==> error.ServerError? && IsFallbackCode(error.replyCode)
    ensures error.ServerError? ==> d.body == EmptyBody
    ensures !error.ServerError? ==> d == Reraise(error, body)
    ensures d.Reraise? ==> d.error == error
  {
    match error
    case ServerError(code) =>
      var reset := Truncate(Rewind(body));
      ResetEmpties(body);
      if IsFallbackCode(code) then RetryWithList(reset) else Reraise(error, reset)
    case _ => Reraise(error, body)
  }

  function FinishListing(p: Prepared, events: seq<Event>, req: Request, body: Body, listed: (Reply, seq<FileEntry>)): Outcome
  {
    var done := CleanUpFetch(p.session.hasRecorder, req, body, listed.0, Some(listed.1));
    Outcome(p.session, p.events + events + done.0, Success(done.1), Some(done.1.body))
  }

  /** `fetch_file_listing`: prepare, try `MLSD`, fall back to `LIST` once on
      reply code 500 or 502, and finish the response. */
  function FetchFileListing(s: Session, req: Request, sink: SinkChoice, server: Server): (o: Outcome)
    ensures o.session == PrepareFetch(s, req, sink, server).session
    ensures !Prepares(s, server) ==> o.result == Failure(PrepareError(s, server)) && o.sink.None?
    ensures o.result.Success? ==>
      && o.result.value.request == Addressed(req, server.controlCheckOut.value)
      && o.result.value.body.pos == 0
      && o.result.value.files.Some?
      && o.sink == Some(o.result.value.body)
  {
    var p := PrepareFetch(s, req, sink, server);
    if p.result.Failure? then Outcome(p.session, p.events, Failure(p.result.error), None)
    else
      var addressed := p.result.value.0;
      var rec := s.hasRecorder;
      var machine := GetMachineListing(rec, addressed, p.result.value.1, server);
      if machine.result.Success? then
        FinishListing(p, machine.run.events, addressed, machine.body, machine.result.value)
      else
        match RecoverMachineListing(machine.result.error, machine.body)
        case Reraise(e, b) => Outcome(p.session, p.events + machine.run.events, Failure(e), Some(b))
        case RetryWithList(b) =>
          var list := GetListListing(rec, addressed, b, server);
          if list.result.Failure? then
            Outcome(p.session, p.events + machine.run.events + list.run.events, Failure(list.result.error), Some(list.body))
          else
            FinishListing(p, machine.run.events + list.run.events, addressed, list.body, list.result.value)
  }

  // ---------------------------------------------------------------------
  // Releasing the control connection

  /** `clean`: check the control connection back in if one is held. The field
      is not cleared, so a second call checks it in again. */
  function Clean(s: Session): (r: (Session, seq<Event>))
    ensures r.0 == s
    ensures s.connection.None? ==> r.1 == []
    ensures s.connection.Some? ==> r.1 == [CheckIn(Control, s.connection.value)]
  {
    (s, if s.connection.Some? then [CheckIn(Control, s.connection.value)] else [])
  }

  /** `close`: close the control connection if one is held; the field is not cleared. */
  function Close(s: Session): (r: (Session, seq<Event>))
    ensures r.0 == s
    ensures s.connection.None? ==> r.1 == []
    ensures s.connection.Some? ==> r.1 == [CloseConn(Control, s.connection.value)]
  {
    (s, if s.connection.Some? then [CloseConn(Control, s.connection.value)] else [])
  }
}
