/** Properties of whole FTP session calls: phase order, the data-connection
    release rule, the `MLSD`-to-`LIST` fallback, the recorder being a passive
    observer, and the single control connection of a session's lifetime. */
module FtpClientProperties {
  import opened Wrappers
  import opened FtpTypes
  import opened FtpBody
  import opened FtpTrace
  import opened FtpClient

  // ---------------------------------------------------------------------
  // Trace helpers

  /** A filter applied twice is the stricter filter: the commands of a trace
      are the commands among its phase markers. */
  lemma {:induction false} CommandsAreMilestones(s: seq<Event>)
    ensures Commands(s) == Commands(Milestones(s))
    decreases |s|
  {
    if s != [] {
      CommandsAreMilestones(s[1..]);
      FilterAppend(if s[0].IsMilestone() then [s[0]] else [], Milestones(s[1..]), IsSendCommand);
      if s[0].IsMilestone() {
        FilterSingleton(s[0], IsSendCommand);
      }
    }
  }

  /** The recorder calls of `_clean_up_fetch`. */
  lemma CleanUpEvents(rec: bool, req: Request, body: Body, reply: Reply, files: Option<seq<FileEntry>>)
    ensures var done := CleanUpFetch(rec, req, body, reply, files).0;
      && Milestones(done) == done && DataPool(done) == [] && Commands(done) == []
      && WithoutRecorder(done) == [] && Filter(done, IsControlCheckOut) == []
  {
    var done := CleanUpFetch(rec, req, body, reply, files).0;
    FilterAll(done, IsMilestone);
    FilterNone(done, IsDataPool);
    FilterNone(done, IsSendCommand);
    FilterNone(done, IsNotRecorderCall);
    FilterNone(done, IsControlCheckOut);
  }

  /** The command `fetch` sends for a request. */
  function RetrCommand(req: Request): Command { Command("RETR", req.urlInfo.path) }
  function MlsdCommand(req: Request): Command { Command("MLSD", req.urlInfo.path) }
  function ListCommand(req: Request): Command { Command("LIST", req.urlInfo.path) }

  /** The phase markers that close a successful fetch. */
  function FinishPhase(rec: bool): seq<Event> {
    if rec then [RecordResponse, EndControl] else []
  }

  // ---------------------------------------------------------------------
  // fetch

  /** The control phase sends no command. */
  lemma ControlPhaseSendsNothing(rec: bool, conn: Conn, req: Request, cred: Credentials)
    ensures Commands(ControlPhase(rec, conn, req, cred)) == []
  {
    FilterNone(ControlPhase(rec, conn, req, cred), IsSendCommand);
  }

  /** Gluing the phase markers and commands of prepare, command and clean-up. */
  lemma SessionPhases(pe: seq<Event>, re: seq<Event>, de: seq<Event>, phase: seq<Event>, cmd: Command)
    requires Milestones(pe) == phase && Commands(phase) == []
    requires Milestones(re) == [SendCommand(cmd)] && Commands(re) == [SendCommand(cmd)]
    requires Milestones(de) == de && Commands(de) == []
    ensures Milestones(pe + re + de) == phase + [SendCommand(cmd)] + de
    ensures Commands(pe + re + de) == [SendCommand(cmd)]
  {
    FilterAppendThree(pe, re, de, IsMilestone);
    FilterAppendThree(pe, re, de, IsSendCommand);
    CommandsAreMilestones(pe);
  }

  /** A successful `fetch` goes through its phases in order: control
      check-out, `begin_control`, reconnect, log-in with the URL's or the
      default credentials, `pre_response`, exactly one `RETR` of the
      request's path, `response`, `end_control`. */
  lemma FetchPhaseOrder(s: Session, req: Request, sink: SinkChoice, server: Server)
    requires Prepares(s, server) && CommandError(server.retrieve).None?
    ensures var o := Fetch(s, req, sink, server);
      var conn := server.controlCheckOut.value;
      && Milestones(o.events)
         == ControlPhase(s.hasRecorder, conn, Addressed(req, conn), LogInCredentials(req.urlInfo))
            + [SendCommand(RetrCommand(req))] + FinishPhase(s.hasRecorder)
      && Commands(o.events) == [SendCommand(RetrCommand(req))]
  {
    var o := Fetch(s, req, sink, server);
    var p := PrepareFetch(s, req, sink, server);
    var conn := server.controlCheckOut.value;
    var addressed := Addressed(req, conn);
    var run := FetchWithCommand(s.hasRecorder, RetrCommand(addressed), p.result.value.1, server.retrieve);
    var done := CleanUpFetch(s.hasRecorder, addressed, run.body, run.result.value, None);
    assert o.events == p.events + run.events + done.0;
    CleanUpEvents(s.hasRecorder, addressed, run.body, run.result.value, None);
    PrepareFetchTrace(s, req, sink, server);
    FetchWithCommandEvents(s.hasRecorder, RetrCommand(addressed), p.result.value.1, server.retrieve);
    var phase := ControlPhase(s.hasRecorder, conn, addressed, LogInCredentials(req.urlInfo));
    ControlPhaseSendsNothing(s.hasRecorder, conn, addressed, LogInCredentials(req.urlInfo));
    SessionPhases(p.events, run.events, done.0, phase, RetrCommand(addressed));
  }

  /** Whatever the outcome of `fetch`, its data-connection traffic is whole
      check-out/close/check-in cycles, so no data connection stays checked out. */
  lemma FetchReleasesData(s: Session, req: Request, sink: SinkChoice, server: Server)
    ensures ReleaseCycles(DataPool(Fetch(s, req, sink, server).events))
  {
    PrepareFetchTrace(s, req, sink, server);
    if Prepares(s, server) {
      PreparedFetchReleasesData(s, req, sink, server);
    } else {
      UnpreparedFetch(s, req, sink, server);
    }
  }

  /** A fetch whose preparation fails stops with the preparation's events. */
  lemma UnpreparedFetch(s: Session, req: Request, sink: SinkChoice, server: Server)
    requires !Prepares(s, server)
    ensures Fetch(s, req, sink, server).events == PrepareFetch(s, req, sink, server).events
  {
  }

  /** A prepared fetch: the preparation, the `RETR` run, and the clean-up's
      recorder calls when the run succeeded. */
  lemma PreparedFetchEvents(s: Session, req: Request, sink: SinkChoice, server: Server)
    requires Prepares(s, server)
    ensures var p := PrepareFetch(s, req, sink, server);
      var run := FetchWithCommand(s.hasRecorder, RetrCommand(p.result.value.0), p.result.value.1, server.retrieve);
      Fetch(s, req, sink, server).events
        == p.events + run.events + (if run.result.Success? then FinishPhase(s.hasRecorder) else [])
  {
    var p := PrepareFetch(s, req, sink, server);
    var run := FetchWithCommand(s.hasRecorder, RetrCommand(p.result.value.0), p.result.value.1, server.retrieve);
    if run.result.Failure? {
      assert p.events + run.events + [] == p.events + run.events;
    }
  }

  lemma PreparedFetchReleasesData(s: Session, req: Request, sink: SinkChoice, server: Server)
    requires Prepares(s, server)
    requires DataPool(PrepareFetch(s, req, sink, server).events) == []
    ensures ReleaseCycles(DataPool(Fetch(s, req, sink, server).events))
  {
    var p := PrepareFetch(s, req, sink, server);
    var run := FetchWithCommand(s.hasRecorder, RetrCommand(p.result.value.0), p.result.value.1, server.retrieve);
    var de := if run.result.Success? then FinishPhase(s.hasRecorder) else [];
    PreparedFetchEvents(s, req, sink, server);
    FetchWithCommandEvents(s.hasRecorder, RetrCommand(p.result.value.0), p.result.value.1, server.retrieve);
    CycleIsReleaseCycles(run.acquired);
    FinishPhaseOnly(if run.result.Success? then s.hasRecorder else false);
    ThreePartsReleased(p.events, run.events, de);
  }

  lemma ThreePartsReleased(pe: seq<Event>, re: seq<Event>, de: seq<Event>)
    requires DataPool(pe) == [] && DataPool(de) == []
    requires ReleaseCycles(DataPool(re))
    ensures ReleaseCycles(DataPool(pe + re + de))
  {
    FilterAppendThree(pe, re, de, IsDataPool);
    assert DataPool(pe + re + de) == DataPool(re);
  }

  lemma CycleIsReleaseCycles(acquired: Option<Conn>)
    ensures ReleaseCycles(if acquired.Some? then ReleaseCycle(acquired.value) else [])
  {
    if acquired.Some? {
      assert ReleaseCycle(acquired.value)[3..] == [];
    }
  }

  /** No data connection stays checked out after `fetch`: for every
      connection, check-outs, closes and check-ins balance. */
  lemma FetchLeavesNoDataConnection(s: Session, req: Request, sink: SinkChoice, server: Server, c: Conn)
    ensures var pool := DataPool(Fetch(s, req, sink, server).events);
      && Occurrences(pool, CheckOut(Data, c)) == Occurrences(pool, CheckIn(Data, c))
      && Occurrences(pool, CheckOut(Data, c)) == Occurrences(pool, CloseConn(Data, c))
  {
    FetchReleasesData(s, req, sink, server);
    ReleaseCyclesBalance(DataPool(Fetch(s, req, sink, server).events), c);
  }

  // ---------------------------------------------------------------------
  // fetch_file_listing

  /** The `MLSD` attempt fails with code 500 or 502. */
  predicate FallsBack(server: Server) {
    var e := CommandError(server.machineListing);
    e.Some? && e.value.ServerError? && IsFallbackCode(e.value.replyCode)
  }

  /** The events of the `MLSD` run of a prepared listing. */
  function MachineEvents(s: Session, req: Request, sink: SinkChoice, server: Server): seq<Event>
    requires Prepares(s, server)
  {
    var p := PrepareFetch(s, req, sink, server);
    GetMachineListing(s.hasRecorder, p.result.value.0, p.result.value.1, server).run.events
  }

  /** The events of the `LIST` run of a prepared listing after a fallback,
      which starts from the emptied body. */
  function ListEvents(s: Session, req: Request, sink: SinkChoice, server: Server): seq<Event>
    requires Prepares(s, server)
  {
    var p := PrepareFetch(s, req, sink, server);
    GetListListing(s.hasRecorder, p.result.value.0, EmptyBody, server).run.events
  }

  /** The clean-up events of a listing that produced a response. */
  predicate CleanUpOnly(de: seq<Event>) {
    Milestones(de) == de && Commands(de) == [] && DataPool(de) == [] && Filter(de, IsControlCheckOut) == []
  }

  /** The recorder calls `_clean_up_fetch` makes are only phase markers. */
  lemma FinishPhaseOnly(rec: bool)
    ensures CleanUpOnly(FinishPhase(rec))
  {
    FilterAll(FinishPhase(rec), IsMilestone);
    FilterNone(FinishPhase(rec), IsSendCommand);
    FilterNone(FinishPhase(rec), IsDataPool);
    FilterNone(FinishPhase(rec), IsControlCheckOut);
  }

  lemma ShapeByMachineListing(s: Session, req: Request, sink: SinkChoice, server: Server)
    requires Prepares(s, server) && CommandError(server.machineListing).None?
    ensures FetchFileListing(s, req, sink, server).events
      == PrepareFetch(s, req, sink, server).events + MachineEvents(s, req, sink, server) + FinishPhase(s.hasRecorder)
  {
  }

  lemma ShapeWithoutFallback(s: Session, req: Request, sink: SinkChoice, server: Server)
    requires Prepares(s, server) && CommandError(server.machineListing).Some? && !FallsBack(server)
    ensures FetchFileListing(s, req, sink, server).events
      == PrepareFetch(s, req, sink, server).events + MachineEvents(s, req, sink, server)
  {
    var p := PrepareFetch(s, req, sink, server);
    var machine := GetMachineListing(s.hasRecorder, p.result.value.0, p.result.value.1, server);
    var recovery := RecoverMachineListing(machine.result.error, machine.body);
    assert recovery.Reraise?;
  }

  lemma ShapeFallbackFails(s: Session, req: Request, sink: SinkChoice, server: Server)
    requires Prepares(s, server) && FallsBack(server) && CommandError(server.listListing).Some?
    ensures FetchFileListing(s, req, sink, server).events
      == PrepareFetch(s, req, sink, server).events + MachineEvents(s, req, sink, server) + ListEvents(s, req, sink, server)
  {
    var p := PrepareFetch(s, req, sink, server);
    var machine := GetMachineListing(s.hasRecorder, p.result.value.0, p.result.value.1, server);
    var recovery := RecoverMachineListing(machine.result.error, machine.body);
    assert recovery == RetryWithList(EmptyBody);
  }

  lemma ShapeFallbackSucceeds(s: Session, req: Request, sink: SinkChoice, server: Server)
    requires Prepares(s, server) && FallsBack(server) && CommandError(server.listListing).None?
    ensures FetchFileListing(s, req, sink, server).events
      == PrepareFetch(s, req, sink, server).events + MachineEvents(s, req, sink, server) + ListEvents(s, req, sink, server)
         + FinishPhase(s.hasRecorder)
  {
    var pe := PrepareFetch(s, req, sink, server).events;
    var me := MachineEvents(s, req, sink, server);
    var le := ListEvents(s, req, sink, server);
    FallbackSucceedsEvents(s, req, sink, server);
    RegroupMiddle(pe, me, le, FinishPhase(s.hasRecorder));
  }

  lemma RegroupMiddle(a: seq<Event>, b: seq<Event>, c: seq<Event>, d: seq<Event>)
    ensures a + (b + c) + d == a + b + c + d
  {
  }

  lemma FallbackSucceedsEvents(s: Session, req: Request, sink: SinkChoice, server: Server)
    requires Prepares(s, server) && FallsBack(server) && CommandError(server.listListing).None?
    ensures FetchFileListing(s, req, sink, server).events
      == PrepareFetch(s, req, sink, server).events + (MachineEvents(s, req, sink, server) + ListEvents(s, req, sink, server))
         + FinishPhase(s.hasRecorder)
  {
    var p := PrepareFetch(s, req, sink, server);
    var machine := GetMachineListing(s.hasRecorder, p.result.value.0, p.result.value.1, server);
    var recovery := RecoverMachineListing(machine.result.error, machine.body);
    assert recovery == RetryWithList(EmptyBody);
    var list := GetListListing(s.hasRecorder, p.result.value.0, EmptyBody, server);
    assert list.result.Success?;
    assert FetchFileListing(s, req, sink, server)
      == FinishListing(p, machine.run.events + list.run.events, p.result.value.0, list.body, list.result.value);
  }

  /** The four-part form of the events of a prepared `fetch_file_listing`. */
  predicate ListingShaped(s: Session, req: Request, sink: SinkChoice, server: Server, le: seq<Event>, de: seq<Event>)
    requires Prepares(s, server)
  {
    && FetchFileListing(s, req, sink, server).events
       == PrepareFetch(s, req, sink, server).events + MachineEvents(s, req, sink, server) + le + de
    && le == (if FallsBack(server) then ListEvents(s, req, sink, server) else [])
    && (de == [] || de == FinishPhase(s.hasRecorder))
    && CleanUpOnly(de)
  }

  lemma ShapedSucceeds(s: Session, req: Request, sink: SinkChoice, server: Server)
    requires Prepares(s, server) && FallsBack(server) && CommandError(server.listListing).None?
    ensures ListingShaped(s, req, sink, server, ListEvents(s, req, sink, server), FinishPhase(s.hasRecorder))
  {
    ShapeFallbackSucceeds(s, req, sink, server);
    FinishPhaseOnly(s.hasRecorder);
  }

  lemma ShapedByMachineListing(s: Session, req: Request, sink: SinkChoice, server: Server)
    requires Prepares(s, server) && CommandError(server.machineListing).None?
    ensures ListingShaped(s, req, sink, server, [], FinishPhase(s.hasRecorder))
  {
    ShapeByMachineListing(s, req, sink, server);
    FinishPhaseOnly(s.hasRecorder);
    NothingInBetween(PrepareFetch(s, req, sink, server).events, MachineEvents(s, req, sink, server), FinishPhase(s.hasRecorder));
  }

  lemma NothingInBetween(a: seq<Event>, b: seq<Event>, d: seq<Event>)
    ensures a + b + [] + d == a + b + d
  {
  }

  /** The events of a prepared `fetch_file_listing` in four parts: the
      preparation, the `MLSD` run, the `LIST` run when there is a fallback
      (nothing otherwise), and the clean-up's recorder calls. */
  lemma ListingShape(s: Session, req: Request, sink: SinkChoice, server: Server)
    returns (le: seq<Event>, de: seq<Event>)
    requires Prepares(s, server)
    ensures ListingShaped(s, req, sink, server, le, de)
  {
    le, de := [], [];
    if CommandError(server.machineListing).None? {
      de := FinishPhase(s.hasRecorder);
      ShapedByMachineListing(s, req, sink, server);
    } else if !FallsBack(server) {
      ShapeWithoutFallback(s, req, sink, server);
      FinishPhaseOnly(false);
    } else if CommandError(server.listListing).Some? {
      ShapeFallbackFails(s, req, sink, server);
      le := ListEvents(s, req, sink, server);
      FinishPhaseOnly(false);
    } else {
      le, de := ListEvents(s, req, sink, server), FinishPhase(s.hasRecorder);
      ShapedSucceeds(s, req, sink, server);
    }
  }

  /** The `MLSD` run sends `MLSD` when its stream is set up and releases
      its data connection. */
  lemma MachineRunTrace(s: Session, req: Request, sink: SinkChoice, server: Server)
    requires Prepares(s, server)
    ensures Commands(MachineEvents(s, req, sink, server))
      == if server.machineListing.setup.SetupDone? then [SendCommand(MlsdCommand(req))] else []
    ensures ReleaseCycles(DataPool(MachineEvents(s, req, sink, server)))
  {
    var p := PrepareFetch(s, req, sink, server);
    var run := FetchWithCommand(s.hasRecorder, MlsdCommand(p.result.value.0), p.result.value.1, server.machineListing);
    FetchWithCommandEvents(s.hasRecorder, MlsdCommand(p.result.value.0), p.result.value.1, server.machineListing);
    CycleIsReleaseCycles(run.acquired);
  }

  /** The `LIST` run sends `LIST` when its stream is set up and releases
      its data connection. */
  lemma ListRunTrace(s: Session, req: Request, sink: SinkChoice, server: Server)
    requires Prepares(s, server)
    ensures Commands(ListEvents(s, req, sink, server))
      == if server.listListing.setup.SetupDone? then [SendCommand(ListCommand(req))] else []
    ensures ReleaseCycles(DataPool(ListEvents(s, req, sink, server)))
  {
    var p := PrepareFetch(s, req, sink, server);
    var run := FetchWithCommand(s.hasRecorder, ListCommand(p.result.value.0), EmptyBody, server.listListing);
    FetchWithCommandEvents(s.hasRecorder, ListCommand(p.result.value.0), EmptyBody, server.listListing);
    CycleIsReleaseCycles(run.acquired);
  }

  lemma FourPartsCommands(pe: seq<Event>, me: seq<Event>, le: seq<Event>, de: seq<Event>)
    requires Commands(pe) == [] && Commands(de) == []
    ensures Commands(pe + me + le + de) == Commands(me) + Commands(le)
  {
    FilterAppend(pe + me + le, de, IsSendCommand);
    FilterAppendThree(pe, me, le, IsSendCommand);
  }

  lemma FourPartsReleased(pe: seq<Event>, me: seq<Event>, le: seq<Event>, de: seq<Event>)
    requires DataPool(pe) == [] && DataPool(de) == []
    requires ReleaseCycles(DataPool(me)) && ReleaseCycles(DataPool(le))
    ensures ReleaseCycles(DataPool(pe + me + le + de))
  {
    FilterAppend(pe + me + le, de, IsDataPool);
    FilterAppendThree(pe, me, le, IsDataPool);
    ReleaseCyclesAppend(DataPool(me), DataPool(le));
    assert DataPool(pe + me + le + de) == DataPool(me) + DataPool(le);
  }

  /** The preparation sends no command. */
  lemma PrepareSendsNothing(s: Session, req: Request, sink: SinkChoice, server: Server)
    requires Prepares(s, server)
    ensures Commands(PrepareFetch(s, req, sink, server).events) == []
  {
    var p := PrepareFetch(s, req, sink, server);
    var conn := server.controlCheckOut.value;
    PrepareFetchTrace(s, req, sink, server);
    CommandsAreMilestones(p.events);
    ControlPhaseSendsNothing(s.hasRecorder, conn, Addressed(req, conn), LogInCredentials(req.urlInfo));
  }

  /** `fetch_file_listing` sends `MLSD` when its data stream can be set up,
      and sends `LIST` on the same path exactly when the `MLSD` attempt
      failed with reply code 500 or 502 and `LIST`'s data stream can be set
      up; nothing else is sent. */
  lemma ListingCommands(s: Session, req: Request, sink: SinkChoice, server: Server)
    requires Prepares(s, server)
    ensures Commands(FetchFileListing(s, req, sink, server).events)
      == (if server.machineListing.setup.SetupDone? then [SendCommand(MlsdCommand(req))] else [])
         + (if FallsBack(server) && server.listListing.setup.SetupDone? then [SendCommand(ListCommand(req))] else [])
  {
    var le, de := ListingShape(s, req, sink, server);
    PrepareSendsNothing(s, req, sink, server);
    MachineRunTrace(s, req, sink, server);
    ListRunTrace(s, req, sink, server);
    FourPartsCommands(PrepareFetch(s, req, sink, server).events, MachineEvents(s, req, sink, server), le, de);
  }

  /** A successful `MLSD` makes the listing: the body holds what it
      transferred, rewound, and the files are the machine-listing parse of it. */
  lemma ListingByMachineListing(s: Session, req: Request, sink: SinkChoice, server: Server)
    requires Prepares(s, server) && CommandError(server.machineListing).None?
    ensures var o := FetchFileListing(s, req, sink, server);
      var addressed := Addressed(req, server.controlCheckOut.value);
      && o.result.Success?
      && Success(o.result.value.reply) == server.machineListing.outcome
      && o.result.value.body.data == Write(ChooseBody(sink, addressed), ReadBytes(server.machineListing.transfer)).data
      && o.result.value.files == Some(server.parseMachineListing(o.result.value.body.data))
  {
  }

  /** A server error other than 500 or 502 from `MLSD` is raised unchanged,
      with the body already emptied; no `LIST` is tried. Any other exception
      is raised unchanged with the body as `MLSD` left it. */
  lemma ListingWithoutFallback(s: Session, req: Request, sink: SinkChoice, server: Server)
    requires Prepares(s, server) && CommandError(server.machineListing).Some? && !FallsBack(server)
    ensures var o := FetchFileListing(s, req, sink, server);
      var e := CommandError(server.machineListing).value;
      var addressed := Addressed(req, server.controlCheckOut.value);
      var written := if server.machineListing.setup.SetupDone?
        then Write(ChooseBody(sink, addressed), ReadBytes(server.machineListing.transfer))
        else ChooseBody(sink, addressed);
      && o.result == Failure(e)
      && o.sink == Some(if e.ServerError? then EmptyBody else written)
  {
  }

  /** After a fallback, a failing `LIST` is raised unchanged and not retried;
      the body holds only what `LIST` wrote after the reset. */
  lemma ListingFallbackFails(s: Session, req: Request, sink: SinkChoice, server: Server)
    requires Prepares(s, server) && FallsBack(server) && CommandError(server.listListing).Some?
    ensures var o := FetchFileListing(s, req, sink, server);
      && o.result == Failure(CommandError(server.listListing).value)
      && o.sink == Some(if server.listListing.setup.SetupDone?
                        then Write(EmptyBody, ReadBytes(server.listListing.transfer)) else EmptyBody)
  {
  }

  /** After a fallback, a successful `LIST` makes the listing: the body holds
      exactly what `LIST` transferred (nothing of the failed `MLSD` attempt),
      rewound, and the files are the heuristic parse of it. */
  lemma ListingFallbackSucceeds(s: Session, req: Request, sink: SinkChoice, server: Server)
    requires Prepares(s, server) && FallsBack(server) && CommandError(server.listListing).None?
    ensures var o := FetchFileListing(s, req, sink, server);
      && o.result.Success?
      && Success(o.result.value.reply) == server.listListing.outcome
      && o.result.value.body.data == ReadBytes(server.listListing.transfer)
      && o.result.value.body.pos == 0
      && o.result.value.files == Some(server.parseListing(ReadBytes(server.listListing.transfer)))
  {
    WriteEmpty(ReadBytes(server.listListing.transfer));
  }

  /** Whatever the outcome of `fetch_file_listing`, both its data-channel
      commands release their data connections. */
  lemma ListingReleasesData(s: Session, req: Request, sink: SinkChoice, server: Server)
    ensures ReleaseCycles(DataPool(FetchFileListing(s, req, sink, server).events))
  {
    if Prepares(s, server) {
      PreparedListingReleasesData(s, req, sink, server);
    } else {
      UnpreparedListing(s, req, sink, server);
      PrepareFetchTrace(s, req, sink, server);
    }
  }

  /** A listing whose preparation fails stops with the preparation's events. */
  lemma UnpreparedListing(s: Session, req: Request, sink: SinkChoice, server: Server)
    requires !Prepares(s, server)
    ensures FetchFileListing(s, req, sink, server).events == PrepareFetch(s, req, sink, server).events
  {
  }

  lemma PreparedListingReleasesData(s: Session, req: Request, sink: SinkChoice, server: Server)
    requires Prepares(s, server)
    ensures ReleaseCycles(DataPool(FetchFileListing(s, req, sink, server).events))
  {
    var le, de := ListingShape(s, req, sink, server);
    var pe := PrepareFetch(s, req, sink, server).events;
    var me := MachineEvents(s, req, sink, server);
    PrepareFetchTrace(s, req, sink, server);
    MachineRunTrace(s, req, sink, server);
    ListRunTrace(s, req, sink, server);
    assert ReleaseCycles(DataPool(le)) by {
      if le == [] {
        FilterNone(le, IsDataPool);
      }
    }
    FourPartsReleased(pe, me, le, de);
    assert FetchFileListing(s, req, sink, server).events == pe + me + le + de;
  }

  /** No data connection stays checked out after `fetch_file_listing`. */
  lemma ListingLeavesNoDataConnection(s: Session, req: Request, sink: SinkChoice, server: Server, c: Conn)
    ensures var pool := DataPool(FetchFileListing(s, req, sink, server).events);
      && Occurrences(pool, CheckOut(Data, c)) == Occurrences(pool, CheckIn(Data, c))
      && Occurrences(pool, CheckOut(Data, c)) == Occurrences(pool, CloseConn(Data, c))
  {
    ListingReleasesData(s, req, sink, server);
    ReleaseCyclesBalance(DataPool(FetchFileListing(s, req, sink, server).events), c);
  }

  // ---------------------------------------------------------------------
  // clean and close

  /** `clean` is not idempotent: it does not forget the connection, so a
      second call checks the same connection in again, and a `close` after it
      still closes it. */
  lemma CleanRepeats(s: Session)
    requires s.connection.Some?
    ensures var c := s.connection.value;
      && Clean(s).1 + Clean(Clean(s).0).1 == [CheckIn(Control, c), CheckIn(Control, c)]
      && Clean(s).1 + Close(Clean(s).0).1 == [CheckIn(Control, c), CloseConn(Control, c)]
  {
  }
}
