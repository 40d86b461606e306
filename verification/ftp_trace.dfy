/** Views of a session's event trace: which events a given observer sees. */
module FtpTrace {
  import opened FtpTypes

  /** The events of `s` that satisfy `p`, in order. */
  function Filter(s: seq<Event>, p: Event -> bool): (r: seq<Event>)
    ensures |r| <= |s|
  {
    if s == [] then []
    else (if p(s[0]) then [s[0]] else []) + Filter(s[1..], p)
  }

  lemma {:induction false} FilterAppend(a: seq<Event>, b: seq<Event>, p: Event -> bool)
    ensures Filter(a + b, p) == Filter(a, p) + Filter(b, p)
    decreases |a|
  {
    if a == [] {
      assert a + b == b;
    } else {
      var head := if p(a[0]) then [a[0]] else [];
      assert (a + b)[0] == a[0];
      assert (a + b)[1..] == a[1..] + b;
      assert Filter(a + b, p) == head + Filter(a[1..] + b, p);
      FilterAppend(a[1..], b, p);
      assert Filter(a, p) == head + Filter(a[1..], p);
    }
  }

  lemma FilterAppendThree(a: seq<Event>, b: seq<Event>, c: seq<Event>, p: Event -> bool)
    ensures Filter(a + b, p) == Filter(a, p) + Filter(b, p)
    ensures Filter(a + b + c, p) == Filter(a, p) + Filter(b, p) + Filter(c, p)
  {
    FilterAppend(a + b, c, p);
    FilterAppend(a, b, p);
  }

  lemma FilterSingleton(e: Event, p: Event -> bool)
    ensures Filter([e], p) == if p(e) then [e] else []
  {
    assert [e][1..] == [];
  }

  /** Filtering a short literal sequence, element by element. */
  lemma FilterPair(e1: Event, e2: Event, p: Event -> bool)
    ensures Filter([e1, e2], p) == (if p(e1) then [e1] else []) + (if p(e2) then [e2] else [])
  {
    assert [e1, e2] == [e1] + [e2];
    FilterAppend([e1], [e2], p);
    FilterSingleton(e1, p);
    FilterSingleton(e2, p);
  }

  lemma OccurrencesSingleton(x: Event, e: Event)
    ensures Occurrences([x], e) == if x == e then 1 else 0
  {
    assert [x][1..] == [];
  }

  lemma OccurrencesPair(x1: Event, x2: Event, e: Event)
    ensures Occurrences([x1, x2], e) == (if x1 == e then 1 else 0) + (if x2 == e then 1 else 0)
  {
    assert [x1, x2] == [x1] + [x2];
    OccurrencesAppend([x1], [x2], e);
    OccurrencesSingleton(x1, e);
    OccurrencesSingleton(x2, e);
  }

  /** A filter keeps nothing of a sequence none of whose events it accepts. */
  lemma {:induction false} FilterNone(s: seq<Event>, p: Event -> bool)
    requires forall e :: e in s ==> !p(e)
    ensures Filter(s, p) == []
    decreases |s|
  {
    if s != [] {
      assert s[0] in s;
      assert forall e :: e in s[1..] ==> e in s;
      FilterNone(s[1..], p);
    }
  }

  /** A filter keeps all of a sequence whose events it all accepts. */
  lemma {:induction false} FilterAll(s: seq<Event>, p: Event -> bool)
    requires forall e :: e in s ==> p(e)
    ensures Filter(s, p) == s
    decreases |s|
  {
    if s != [] {
      assert s[0] in s;
      assert forall e :: e in s[1..] ==> e in s;
      FilterAll(s[1..], p);
      assert s == [s[0]] + s[1..];
    }
  }

  predicate IsMilestone(e: Event) { e.IsMilestone() }
  predicate IsDataPool(e: Event) { e.IsDataPool() }
  predicate IsRecorderCall(e: Event) { e.IsRecorderCall() }
  predicate IsNotRecorderCall(e: Event) { !e.IsRecorderCall() }
  predicate IsControlCheckOut(e: Event) { e.IsControlCheckOut() }
  predicate IsSendCommand(e: Event) { e.SendCommand? }
  predicate IsClearDataObservers(e: Event) { e.ClearDataObservers? }

  /** The phase markers of a trace. */
  function Milestones(s: seq<Event>): seq<Event> { Filter(s, IsMilestone) }

  /** The data-connection pool traffic of a trace. */
  function DataPool(s: seq<Event>): seq<Event> { Filter(s, IsDataPool) }

  /** The trace with every recorder call removed. */
  function WithoutRecorder(s: seq<Event>): seq<Event> { Filter(s, IsNotRecorderCall) }

  /** The recorder calls of a trace. */
  function RecorderCalls(s: seq<Event>): seq<Event> { Filter(s, IsRecorderCall) }

  /** The commands sent, as events. */
  function Commands(s: seq<Event>): seq<Event> { Filter(s, IsSendCommand) }

  predicate IsControlTraffic(e: Event) { e.RequestControlData? || e.ResponseControlData? }

  /** The control-channel bytes forwarded to the recorder, as events. */
  function ControlTraffic(s: seq<Event>): seq<Event> { Filter(s, IsControlTraffic) }

  /** The data bytes forwarded to the recorder's `response_data`, joined in order. */
  function ForwardedData(s: seq<Event>): seq<Byte>
  {
    if s == [] then []
    else (if s[0].ResponseData? then s[0].bytes else []) + ForwardedData(s[1..])
  }

  lemma {:induction false} ForwardedDataAppend(a: seq<Event>, b: seq<Event>)
    ensures ForwardedData(a + b) == ForwardedData(a) + ForwardedData(b)
    decreases |a|
  {
    if a == [] {
      assert a + b == b;
    } else {
      assert (a + b)[0] == a[0];
      assert (a + b)[1..] == a[1..] + b;
      ForwardedDataAppend(a[1..], b);
    }
  }

  /** A trace without `response_data` calls forwards no data bytes. */
  lemma {:induction false} ForwardedDataNone(s: seq<Event>)
    requires forall e :: e in s ==> !e.ResponseData?
    ensures ForwardedData(s) == []
    decreases |s|
  {
    if s != [] {
      assert s[0] in s;
      assert forall e :: e in s[1..] ==> e in s;
      ForwardedDataNone(s[1..]);
    }
  }

  lemma ForwardedDataSingleton(e: Event)
    ensures ForwardedData([e]) == if e.ResponseData? then e.bytes else []
  {
    assert [e][1..] == [];
  }

  /** Number of occurrences of `e` in `s`. */
  function Occurrences(s: seq<Event>, e: Event): nat
  {
    if s == [] then 0 else (if s[0] == e then 1 else 0) + Occurrences(s[1..], e)
  }

  lemma {:induction false} OccurrencesAppend(a: seq<Event>, b: seq<Event>, e: Event)
    ensures Occurrences(a + b, e) == Occurrences(a, e) + Occurrences(b, e)
    decreases |a|
  {
    if a == [] {
      assert a + b == b;
    } else {
      assert (a + b)[0] == a[0];
      assert (a + b)[1..] == a[1..] + b;
      OccurrencesAppend(a[1..], b, e);
    }
  }

  lemma {:induction false} OccurrencesAbsent(s: seq<Event>, e: Event)
    requires e !in s
    ensures Occurrences(s, e) == 0
    decreases |s|
  {
    if s != [] {
      assert s[0] in s;
      assert forall x :: x in s[1..] ==> x in s;
      OccurrencesAbsent(s[1..], e);
    }
  }

  /** The release pattern of one data connection: check out, close, check in. */
  function ReleaseCycle(c: Conn): seq<Event>
  {
    [CheckOut(Data, c), CloseConn(Data, c), CheckIn(Data, c)]
  }

  /** A release cycle holds only pool events; a filter sees it element by element. */
  lemma FilterCycle(c: Conn, p: Event -> bool)
    ensures Filter(ReleaseCycle(c), p)
      == (if p(CheckOut(Data, c)) then [CheckOut(Data, c)] else [])
         + (if p(CloseConn(Data, c)) then [CloseConn(Data, c)] else [])
         + (if p(CheckIn(Data, c)) then [CheckIn(Data, c)] else [])
  {
    assert ReleaseCycle(c) == [CheckOut(Data, c)] + [CloseConn(Data, c), CheckIn(Data, c)];
    FilterAppend([CheckOut(Data, c)], [CloseConn(Data, c), CheckIn(Data, c)], p);
    FilterSingleton(CheckOut(Data, c), p);
    FilterPair(CloseConn(Data, c), CheckIn(Data, c), p);
  }

  /** Pool traffic made only of whole release cycles, one after another. */
  predicate ReleaseCycles(p: seq<Event>)
    decreases |p|
  {
    p == [] || (|p| >= 3 && p[0].CheckOut? && p[..3] == ReleaseCycle(p[0].conn) && ReleaseCycles(p[3..]))
  }

  lemma {:induction false} ReleaseCyclesAppend(a: seq<Event>, b: seq<Event>)
    requires ReleaseCycles(a) && ReleaseCycles(b)
    ensures ReleaseCycles(a + b)
    decreases |a|
  {
    if a == [] {
      assert a + b == b;
    } else {
      assert (a + b)[0] == a[0];
      assert (a + b)[..3] == a[..3];
      assert (a + b)[3..] == a[3..] + b;
      ReleaseCyclesAppend(a[3..], b);
      assert ReleaseCycles((a + b)[3..]);
    }
  }

  /** One release cycle holds one check-out, one close and one check-in of its connection. */
  lemma CycleOccurrences(d: Conn, c: Conn)
    ensures Occurrences(ReleaseCycle(d), CheckOut(Data, c)) == if d == c then 1 else 0
    ensures Occurrences(ReleaseCycle(d), CloseConn(Data, c)) == if d == c then 1 else 0
    ensures Occurrences(ReleaseCycle(d), CheckIn(Data, c)) == if d == c then 1 else 0
  {
    var r := ReleaseCycle(d);
    assert r[1..] == [CloseConn(Data, d), CheckIn(Data, d)];
    assert r[1..][1..] == [CheckIn(Data, d)];
    assert r[1..][1..][1..] == [];
    forall e | e in {CheckOut(Data, c), CloseConn(Data, c), CheckIn(Data, c)}
      ensures Occurrences(r, e) == (if r[0] == e then 1 else 0) + (if r[1] == e then 1 else 0)
                                   + (if r[2] == e then 1 else 0)
    {
      assert Occurrences(r[1..][1..][1..], e) == 0;
      assert Occurrences(r[1..][1..], e) == (if r[2] == e then 1 else 0);
      assert Occurrences(r[1..], e) == (if r[1] == e then 1 else 0) + Occurrences(r[1..][1..], e);
    }
  }

  /** Pool traffic made of release cycles leaves no data connection checked
      out: for every connection, check-outs, closes and check-ins balance. */
  lemma {:induction false} ReleaseCyclesBalance(p: seq<Event>, c: Conn)
    requires ReleaseCycles(p)
    ensures Occurrences(p, CheckOut(Data, c)) == Occurrences(p, CheckIn(Data, c))
    ensures Occurrences(p, CheckOut(Data, c)) == Occurrences(p, CloseConn(Data, c))
    decreases |p|
  {
    if p != [] {
      assert p == p[..3] + p[3..];
      CycleOccurrences(p[0].conn, c);
      OccurrencesAppend(p[..3], p[3..], CheckOut(Data, c));
      OccurrencesAppend(p[..3], p[3..], CheckIn(Data, c));
      OccurrencesAppend(p[..3], p[3..], CloseConn(Data, c));
      ReleaseCyclesBalance(p[3..], c);
    }
  }
}
