/** The scripting hook of the crawler: how the values a script's callbacks
    return become crawl decisions. The script is arbitrary, so every callback
    is an input; so are the decisions of the unhooked base classes the hooks
    wrap (`super().should_fetch()`, `super().handle_response(...)`, the base
    resolver, the URL parser and the filter run). */
module Hook {
  import opened Wrappers

  // ---------------------------------------------------------------------
  // Script values

  /** A value handed to or returned by a script. */
  datatype Value =
    | NoneValue
    | BoolValue(b: bool)
    | IntValue(i: int)
    | StrValue(s: string)
    | DictValue(entries: map<string, Value>)

  /** Python truthiness. */
  predicate Truthy(v: Value) {
    match v
    case NoneValue => false
    case BoolValue(b) => b
    case IntValue(i) => i != 0
    case StrValue(s) => s != ""
    case DictValue(entries) => |entries| != 0
  }

  // ---------------------------------------------------------------------
  // Actions

  const NormalName: string := "normal"
  const RetryName: string := "retry"
  const FinishName: string := "finish"
  const StopName: string := "stop"

  /** The values of `Actions`. */
  datatype Action = Normal | Retry | Finish | Stop

  function ActionName(a: Action): string {
    match a
    case Normal => NormalName
    case Retry => RetryName
    case Finish => FinishName
    case Stop => StopName
  }

  /** The action a returned value names, if any: only the exact strings
      compare equal to the action names. */
  function ParseAction(v: Value): (r: Option<Action>)
    ensures r.Some? ==> v == StrValue(ActionName(r.value))
    ensures r.None? ==> forall a: Action :: v != StrValue(ActionName(a))
  {
    if v == StrValue(NormalName) then Some(Normal)
    else if v == StrValue(RetryName) then Some(Retry)
    else if v == StrValue(FinishName) then Some(Finish)
    else if v == StrValue(StopName) then Some(Stop)
    else None
  }

  lemma ParseActionName(a: Action)
    ensures ParseAction(StrValue(ActionName(a))) == Some(a)
  {
  }

  // ---------------------------------------------------------------------
  // URL items

  /** `Status` of a URL record. */
  datatype Status = Todo | InProgress | Done | Error | Skipped

  /** What the URL parser makes of a script's URL. */
  datatype ParsedUrl = ParsedUrl(url: string)

  /** One URL added to an item, with its link type and POST data. */
  datatype LinkInfo = LinkInfo(url: ParsedUrl, linkType: Value, postData: Value)

  /** The URL item of the session: its status, try count and the URLs added to it. */
  datatype UrlItem = UrlItem(status: Status, tryCount: nat, inlineUrls: seq<LinkInfo>, linkedUrls: seq<LinkInfo>)

  /** `set_status`: the new status, and one more try unless told otherwise. */
  function SetStatus(item: UrlItem, status: Status, incrementTryCount: bool): (r: UrlItem)
    ensures r.status == status
    ensures r.tryCount == item.tryCount + (if incrementTryCount then 1 else 0)
    ensures r.inlineUrls == item.inlineUrls && r.linkedUrls == item.linkedUrls
  {
    item.(status := status, tryCount := if incrementTryCount then item.tryCount + 1 else item.tryCount)
  }

  /** `skip`: mark the item skipped; it is not a try. */
  function Skip(item: UrlItem): (r: UrlItem)
    ensures r == SetStatus(item, Skipped, false)
  {
    item.(status := Skipped)
  }

  // ---------------------------------------------------------------------
  // Callbacks and environment

  /** What `get_urls` returns: nothing, a list of URL dicts, or a Lua table
      indexed from 1. */
  datatype UrlList =
    | NoUrls
    | ScriptList(dicts: seq<NewUrlDict>)
    | LuaTable(entries: map<int, NewUrlDict>)

  /** One dict of `get_urls`: `url`, and the optional `link_type`, `inline`
      and `post_data`, missing ones being `None`. */
  datatype NewUrlDict = NewUrlDict(url: Value, linkType: Value, inline: Value, postData: Value)

  /** The callbacks a script installs; `Callbacks` gives their defaults. */
  datatype Callbacks = Callbacks(
    resolveDns: string -> Option<string>,
    acceptUrl: (Value, Value, Value, Value) -> Value,
    handleResponse: (Value, Value) -> Value,
    handleError: (Value, Value) -> Value,
    getUrls: (Value, Value, Value) -> UrlList,
    exitStatus: Value -> Value)

  /** The defaults: keep the verdict, the exit code and the DNS answer, add
      no URLs, and answer `normal` to responses and errors. */
  function DefaultCallbacks(): Callbacks {
    Callbacks(
      host => None,
      (urlInfo, recordInfo, verdict, reasons) => verdict,
      (urlInfo, responseInfo) => StrValue(NormalName),
      (urlInfo, errorInfo) => StrValue(NormalName),
      (filename, urlInfo, documentInfo) => NoUrls,
      exitCode => exitCode)
  }

  /** The callbacks in their default state are neutral. */
  lemma DefaultCallbacksNeutral(urlInfo: Value, record: Value, verdict: Value, reasons: Value, info: Value, host: string)
    ensures DefaultCallbacks().acceptUrl(urlInfo, record, verdict, reasons) == verdict
    ensures DefaultCallbacks().exitStatus(verdict) == verdict
    ensures DefaultCallbacks().resolveDns(host).None?
    ensures ParseAction(DefaultCallbacks().handleResponse(urlInfo, info)) == Some(Normal)
    ensures ParseAction(DefaultCallbacks().handleError(urlInfo, info)) == Some(Normal)
    ensures DefaultCallbacks().getUrls(urlInfo, record, info) == NoUrls
  {
  }

  /** `HookEnvironment`: a Lua script or a Python one, and its callbacks.
      `luaTable` is the Lua table that `to_lua_table` builds from a dict's
      entries through the Lua runtime, which is not part of this model. */
  datatype HookEnvironment = HookEnvironment(isLua: bool, callbacks: Callbacks, luaTable: map<string, Value> -> Value)

  /** `to_script_native_type`: for a Lua script, `to_lua_type`, which under
      Python 3 turns a dict into a Lua table and keeps every other value;
      for a Python script, the value itself. */
  function ToScriptNative(env: HookEnvironment, v: Value): (r: Value)
    ensures !env.isLua ==> r == v
    ensures env.isLua && v.DictValue? ==> r == env.luaTable(v.entries)
  {
    if env.isLua && v.DictValue? then env.luaTable(v.entries) else v
  }

  /** Only a dict handed to a Lua script is converted: every other value
      reaches the script unchanged, whatever the script's language. */
  lemma ScalarsUnchanged(env: HookEnvironment, v: Value)
    requires !v.DictValue?
    ensures ToScriptNative(env, v) == v
  {
  }

  // ---------------------------------------------------------------------
  // Dispatch of handle_response / handle_error

  /** What a response or error handler decided: its return value and the item afterwards. */
  datatype Handled = Handled(result: bool, item: UrlItem)

  datatype HookError = HookStop(message: string) | NotImplemented | AssertionFailed

  /** The action dispatch shared by `handle_response` and `handle_error`:
      `normal` is the base behaviour, `retry` is `False` with the item
      untouched, `finish` marks the item done and is `True`, `stop` raises
      `HookStop` with the handler's message, anything else raises
      `NotImplementedError`. */
  function DispatchAction(action: Value, base: Handled, item: UrlItem, stopMessage: string): (r: Result<Handled, HookError>)
    ensures r.Success? <==> ParseAction(action).Some? && ParseAction(action) != Some(Stop)
    ensures r.Failure? ==> r.error == if ParseAction(action) == Some(Stop) then HookStop(stopMessage) else NotImplemented
    ensures ParseAction(action) == Some(Normal) ==> r == Success(base)
    ensures ParseAction(action) == Some(Retry) ==> r == Success(Handled(false, item))
    ensures ParseAction(action) == Some(Finish) ==> r == Success(Handled(true, SetStatus(item, Done, true)))
  {
    if action == StrValue(NormalName) then Success(base)
    else if action == StrValue(RetryName) then Success(Handled(false, item))
    else if action == StrValue(FinishName) then Success(Handled(true, SetStatus(item, Done, true)))
    else if action == StrValue(StopName) then Failure(HookStop(stopMessage))
    else Failure(NotImplemented)
  }

  /** Outside `normal`, the handler's answer is the action's alone: `True`
      exactly for `finish`, and only `finish` changes the item. */
  lemma DispatchOutsideNormal(action: Value, base: Handled, item: UrlItem, stopMessage: string)
    requires ParseAction(action) != Some(Normal)
    ensures var r := DispatchAction(action, base, item, stopMessage);
      && (r.Success? ==> (r.value.result <==> ParseAction(action) == Some(Finish)))
      && (r.Success? && r.value.item != item ==> ParseAction(action) == Some(Finish))
      && (r.Success? ==> r.value.item.inlineUrls == item.inlineUrls && r.value.item.linkedUrls == item.linkedUrls)
  {
  }

  /** The message `handle_error` stops with; `handle_response` stops with none. */
  const ErrorStopMessage: string := "Script requested immediate stop."

  /** `handle_response`: ask the script with the URL and response dicts and
      dispatch its action; `base` is what the unhooked handler does. */
  function HandleResponse(env: HookEnvironment, urlInfo: Value, response: Value, item: UrlItem, base: Handled): (r: Result<Handled, HookError>)
    ensures var action := env.callbacks.handleResponse(ToScriptNative(env, urlInfo), ToScriptNative(env, response));
      r == DispatchAction(action, base, item, "")
    ensures r.Failure? && r.error.HookStop? ==> r.error.message == ""
  {
    var action := env.callbacks.handleResponse(ToScriptNative(env, urlInfo), ToScriptNative(env, response));
    DispatchAction(action, base, item, "")
  }

  /** The dict `handle_error` describes an error with: its class name. */
  function ErrorInfo(errorName: string): Value {
    DictValue(map["error" := StrValue(errorName)])
  }

  /** `handle_error`: ask the script with the URL dict and the error's class
      name and dispatch its action; `base` is what the unhooked handler does. */
  function HandleError(env: HookEnvironment, urlInfo: Value, errorName: string, item: UrlItem, base: Handled): (r: Result<Handled, HookError>)
    ensures var action := env.callbacks.handleError(ToScriptNative(env, urlInfo), ToScriptNative(env, ErrorInfo(errorName)));
      r == DispatchAction(action, base, item, ErrorStopMessage)
    ensures r.Failure? && r.error.HookStop? ==> r.error.message == ErrorStopMessage
  {
    var action := env.callbacks.handleError(ToScriptNative(env, urlInfo), ToScriptNative(env, ErrorInfo(errorName)));
    DispatchAction(action, base, item, ErrorStopMessage)
  }

  /** With the default callbacks, both handlers do exactly what the unhooked
      handlers do. */
  lemma DefaultHandlersNeutral(env: HookEnvironment, urlInfo: Value, response: Value, errorName: string, item: UrlItem, base: Handled)
    requires env.callbacks == DefaultCallbacks()
    ensures HandleResponse(env, urlInfo, response, item, base) == Success(base)
    ensures HandleError(env, urlInfo, errorName, item, base) == Success(base)
  {
  }

  /** The two handlers dispatch alike: the same action gives the same
      decision, except that only `handle_error` names a reason to stop. */
  lemma HandlersAgree(action: Value, base: Handled, item: UrlItem)
    ensures var fromResponse := DispatchAction(action, base, item, "");
      var fromError := DispatchAction(action, base, item, ErrorStopMessage);
      && fromResponse.Success? == fromError.Success?
      && (fromResponse.Success? ==> fromResponse == fromError)
      && (ParseAction(action) == Some(Stop) ==>
            fromResponse == Failure(HookStop("")) && fromError == Failure(HookStop(ErrorStopMessage)))
  {
  }

  // ---------------------------------------------------------------------
  // should_fetch

  /** Set every name of `names`, in order, to `v`. */
  function MarkAll(m: map<string, bool>, names: seq<string>, v: bool): map<string, bool>
    decreases |names|
  {
    if names == [] then m else MarkAll(m[names[0] := v], names[1..], v)
  }

  lemma {:induction false} MarkAllSpec(m: map<string, bool>, names: seq<string>, v: bool)
    ensures MarkAll(m, names, v).Keys == m.Keys + set n | n in names
    ensures forall n :: n in MarkAll(m, names, v) ==>
      MarkAll(m, names, v)[n] == if n in names then v else m[n]
    decreases |names|
  {
    if names != [] {
      MarkAllSpec(m[names[0] := v], names[1..], v);
      assert forall n :: n in names <==> n == names[0] || n in names[1..];
    }
  }

  /** `_get_filter_info`: each passed filter's name maps to `True`, then each
      failed one's to `False`. So the info names exactly the filters that
      ran, and a filter is `True` iff no failed filter has its name. */
  function FilterInfo(passed: seq<string>, failed: seq<string>): (info: map<string, bool>)
    ensures info.Keys == (set n | n in passed) + (set n | n in failed)
    ensures forall n :: n in info ==> (info[n] <==> n !in failed)
  {
    MarkAllSpec(map[], passed, true);
    MarkAllSpec(MarkAll(map[], passed, true), failed, false);
    MarkAll(MarkAll(map[], passed, true), failed, false)
  }

  /** The `reasons` dict handed to `accept_url`: one key, `filters`, holding
      a dict from each filter that ran to whether it passed. */
  function Reasons(passed: seq<string>, failed: seq<string>): (r: Value)
    ensures r.DictValue? && r.entries.Keys == {"filters"}
    ensures r.entries["filters"].DictValue?
    ensures r.entries["filters"].entries.Keys == (set n | n in passed) + (set n | n in failed)
    ensures forall n :: n in r.entries["filters"].entries ==>
      r.entries["filters"].entries[n].BoolValue? && (r.entries["filters"].entries[n].b <==> n !in failed)
  {
    var info := FilterInfo(passed, failed);
    DictValue(map["filters" := DictValue(map n | n in info :: BoolValue(info[n]))])
  }

  /** What the unhooked `should_fetch` decided and did to the item. */
  datatype Verdict = Verdict(verdict: bool, item: UrlItem)

  /** `should_fetch`: undo a skip by the base class (status back to
      in-progress, not a new try), ask `accept_url` with the base verdict and
      the filter results, skip the item iff the script says no, and return
      the script's answer. */
  function ShouldFetch(env: HookEnvironment, base: Verdict, urlInfo: Value, record: Value,
                       passed: seq<string>, failed: seq<string>): (r: (Value, UrlItem))
    ensures r.0 == env.callbacks.acceptUrl(ToScriptNative(env, urlInfo), ToScriptNative(env, record),
                                           BoolValue(base.verdict), ToScriptNative(env, Reasons(passed, failed)))
    ensures r.1.status == if Truthy(r.0) then InProgress else Skipped
    ensures r.1.tryCount == base.item.tryCount
    ensures r.1.inlineUrls == base.item.inlineUrls && r.1.linkedUrls == base.item.linkedUrls
  {
    var item := SetStatus(base.item, InProgress, false);
    var verdict := env.callbacks.acceptUrl(ToScriptNative(env, urlInfo), ToScriptNative(env, record),
                                           BoolValue(base.verdict), ToScriptNative(env, Reasons(passed, failed)));
    if !Truthy(verdict) then (verdict, Skip(item)) else (verdict, item)
  }

  /** With the default callbacks the hooked `should_fetch` agrees with the
      base verdict, and skips exactly when the base class said no, whatever
      the base class did to the item. */
  lemma DefaultShouldFetchNeutral(env: HookEnvironment, base: Verdict, urlInfo: Value, record: Value,
                                  passed: seq<string>, failed: seq<string>)
    requires env.callbacks == DefaultCallbacks()
    ensures var r := ShouldFetch(env, base, urlInfo, record, passed, failed);
      && r.0 == BoolValue(base.verdict)
      && r.1 == base.item.(status := if base.verdict then InProgress else Skipped)
  {
  }

  // ---------------------------------------------------------------------
  // Resolver

  const AddressFamilyIPv4: int := 2
  const AddressFamilyIPv6: int := 10

  /** A resolved address: family, host and port. */
  datatype Resolved = Resolved(family: int, host: string, port: int)

  /** `HookedResolver.resolve`: a non-empty answer from `resolve_dns` is the
      address, IPv6 if it holds a colon and IPv4 otherwise, with the port
      asked for; otherwise the base resolver answers. */
  function Resolve(callbacks: Callbacks, host: string, port: int, base: Resolved): (r: Resolved)
    ensures var answer := callbacks.resolveDns(host);
      && (answer.Some? && answer.value != "" ==>
            && r.host == answer.value && r.port == port
            && (r.family == AddressFamilyIPv6 <==> ':' in answer.value)
            && (r.family == AddressFamilyIPv4 <==> ':' !in answer.value))
      && (answer.None? || answer.value == "" ==> r == base)
  {
    var answer := callbacks.resolveDns(host);
    if answer.Some? && answer.value != "" then
      Resolved(if ':' in answer.value then AddressFamilyIPv6 else AddressFamilyIPv4, answer.value, port)
    else base
  }

  /** With the default callbacks the base resolver always answers. */
  lemma DefaultResolveNeutral(host: string, port: int, base: Resolved)
    ensures Resolve(DefaultCallbacks(), host, port, base) == base
  {
  }

  // ---------------------------------------------------------------------
  // Exit status

  /** With the default callbacks `exit_status` answers the exit code it is
      handed, converted for the script, and an integer code reaches a script
      of either language unconverted: the default keeps the computed code. */
  lemma DefaultExitCodeNeutral(env: HookEnvironment, computed: int)
    requires env.callbacks == DefaultCallbacks()
    ensures env.callbacks.exitStatus(ToScriptNative(env, IntValue(computed))) == IntValue(computed)
  {
    ScalarsUnchanged(env, IntValue(computed));
  }

  // ---------------------------------------------------------------------
  // Hooked URLs

  /** `_add_hooked_url`: the URL must be truthy; an unparseable URL is
      dropped; a parsed one goes to the inline URLs if `inline` is truthy
      and to the linked URLs otherwise. */
  function AddHookedUrl(item: UrlItem, d: NewUrlDict, parse: Value -> Option<ParsedUrl>): (r: Result<UrlItem, HookError>)
    ensures r.Failure? <==> !Truthy(d.url)
    ensures r.Failure? ==> r.error == AssertionFailed
    ensures r.Success? ==>
      && r.value.status == item.status && r.value.tryCount == item.tryCount
      && r.value.inlineUrls == item.inlineUrls + Pick(d, parse, true)
      && r.value.linkedUrls == item.linkedUrls + Pick(d, parse, false)
  {
    if !Truthy(d.url) then Failure(AssertionFailed)
    else
      var parsed := parse(d.url);
      if parsed.None? then Success(item)
      else
        var link := LinkInfo(parsed.value, d.linkType, d.postData);
        if Truthy(d.inline) then Success(item.(inlineUrls := item.inlineUrls + [link]))
        else Success(item.(linkedUrls := item.linkedUrls + [link]))
  }

  /** The link a dict adds to the inline (`inline`) or linked (`!inline`)
      URLs: one if it parses and its `inline` flag matches, none otherwise. */
  function Pick(d: NewUrlDict, parse: Value -> Option<ParsedUrl>, inline: bool): (r: seq<LinkInfo>)
    ensures |r| <= 1
    ensures |r| == 1 <==> parse(d.url).Some? && Truthy(d.inline) == inline
  {
    var parsed := parse(d.url);
    if parsed.Some? && Truthy(d.inline) == inline then [LinkInfo(parsed.value, d.linkType, d.postData)] else []
  }

  /** Every dict's URL lands in exactly one list, or in none when it does not parse. */
  lemma PickOnce(d: NewUrlDict, parse: Value -> Option<ParsedUrl>)
    ensures |Pick(d, parse, true)| + |Pick(d, parse, false)| == if parse(d.url).Some? then 1 else 0
  {
  }

  /** The links some dicts add to one of the lists, in order. */
  function Picked(dicts: seq<NewUrlDict>, parse: Value -> Option<ParsedUrl>, inline: bool): seq<LinkInfo>
    decreases |dicts|
  {
    if dicts == [] then [] else Pick(dicts[0], parse, inline) + Picked(dicts[1..], parse, inline)
  }

  lemma {:induction false} PickedAppend(a: seq<NewUrlDict>, b: seq<NewUrlDict>, parse: Value -> Option<ParsedUrl>, inline: bool)
    ensures Picked(a + b, parse, inline) == Picked(a, parse, inline) + Picked(b, parse, inline)
    decreases |a|
  {
    if a == [] {
      assert a + b == b;
    } else {
      assert (a + b)[0] == a[0];
      assert (a + b)[1..] == a[1..] + b;
      PickedAppend(a[1..], b, parse, inline);
    }
  }

  /** One more dict picks what the earlier ones picked, then its own link. */
  lemma PickedStep(dicts: seq<NewUrlDict>, i: nat, parse: Value -> Option<ParsedUrl>, inline: bool)
    requires i < |dicts|
    ensures Picked(dicts[..i + 1], parse, inline) == Picked(dicts[..i], parse, inline) + Pick(dicts[i], parse, inline)
  {
    assert dicts[..i + 1] == dicts[..i] + [dicts[i]];
    PickedAppend(dicts[..i], [dicts[i]], parse, inline);
    assert Picked([dicts[i]], parse, inline) == Pick(dicts[i], parse, inline) + Picked([], parse, inline);
  }

  /** The number of leading dicts with a truthy URL: where the assertion of
      `_add_hooked_url` first fails, or all of them. */
  function LeadingUrls(dicts: seq<NewUrlDict>): (n: nat)
    ensures n <= |dicts|
    ensures forall i :: 0 <= i < n ==> Truthy(dicts[i].url)
    ensures n < |dicts| ==> !Truthy(dicts[n].url)
    decreases |dicts|
  {
    if dicts == [] || !Truthy(dicts[0].url) then 0 else 1 + LeadingUrls(dicts[1..])
  }

  /** Add the dicts one by one. The first dict without a URL raises, and the
      URLs added before it stay added. */
  method AddHookedUrls(item: UrlItem, dicts: seq<NewUrlDict>, parse: Value -> Option<ParsedUrl>)
    returns (r: UrlItem, error: Option<HookError>)
    ensures var n := LeadingUrls(dicts);
      && (error.Some? <==> n < |dicts|)
      && (error.Some? ==> error.value == AssertionFailed)
      && r.status == item.status && r.tryCount == item.tryCount
      && r.inlineUrls == item.inlineUrls + Picked(dicts[..n], parse, true)
      && r.linkedUrls == item.linkedUrls + Picked(dicts[..n], parse, false)
  {
    r, error := item, None;
    var i := 0;
    while i < |dicts|
      invariant 0 <= i <= LeadingUrls(dicts)
      invariant r.status == item.status && r.tryCount == item.tryCount
      invariant r.inlineUrls == item.inlineUrls + Picked(dicts[..i], parse, true)
      invariant r.linkedUrls == item.linkedUrls + Picked(dicts[..i], parse, false)
      decreases |dicts| - i
    {
      var added := AddHookedUrl(r, dicts[i], parse);
      if added.Failure? {
        error := Some(added.error);
        return;
      }
      PickedStep(dicts, i, parse, true);
      PickedStep(dicts, i, parse, false);
      r := added.value;
      i := i + 1;
    }
    assert dicts[..i] == dicts;
  }

  /** The keys of a Lua table from `i` on. */
  function KeysFrom(entries: map<int, NewUrlDict>, i: int): set<int> {
    set k | k in entries && k >= i
  }

  /** The entries of a Lua table at `i`, `i + 1`, ... up to the first missing
      index: what `_scrape_document` reads from a Lua result. */
  function LuaSequence(entries: map<int, NewUrlDict>, i: int): seq<NewUrlDict>
    decreases |KeysFrom(entries, i)|
  {
    if i !in entries then []
    else
      KeysFromShrink(entries, i);
      [entries[i]] + LuaSequence(entries, i + 1)
  }

  /** The sequence read from a Lua table holds the entries at consecutive
      indexes from `i`, and stops exactly at the first missing one. */
  lemma {:induction false} LuaSequenceSpec(entries: map<int, NewUrlDict>, i: int)
    ensures forall k :: i <= k < i + |LuaSequence(entries, i)| ==>
      k in entries && LuaSequence(entries, i)[k - i] == entries[k]
    ensures i + |LuaSequence(entries, i)| !in entries
    decreases |KeysFrom(entries, i)|
  {
    if i in entries {
      KeysFromShrink(entries, i);
      LuaSequenceSpec(entries, i + 1);
      var rest := LuaSequence(entries, i + 1);
      var r := LuaSequence(entries, i);
      assert r == [entries[i]] + rest;
      assert i + |r| == (i + 1) + |rest|;
      forall k | i + 1 <= k < i + |r|
        ensures k in entries && r[k - i] == entries[k]
      {
        assert r[k - i] == rest[k - (i + 1)];
      }
    } else {
      assert LuaSequence(entries, i) == [];
    }
  }

  lemma KeysFromShrink(entries: map<int, NewUrlDict>, i: int)
    requires i in entries
    ensures |KeysFrom(entries, i + 1)| < |KeysFrom(entries, i)|
  {
    var a, b := KeysFrom(entries, i), KeysFrom(entries, i + 1);
    assert b + {i} == a;
    assert i !in b;
  }

  /** Whether `get_urls` returned something truthy. */
  predicate HasUrls(urls: UrlList) {
    match urls
    case NoUrls => false
    case ScriptList(dicts) => dicts != []
    case LuaTable(entries) => |entries| != 0
  }

  /** The dicts `_scrape_document` hands to `_add_hooked_url`, in order:
      nothing for a falsy result, the entries from index 1 of a Lua table
      that has index 1, the list itself otherwise. */
  function HookedDicts(urls: UrlList): (r: seq<NewUrlDict>)
    ensures !HasUrls(urls) ==> r == []
    ensures urls.ScriptList? ==> r == urls.dicts
    ensures urls.LuaTable? && 1 in urls.entries ==> r == LuaSequence(urls.entries, 1)
    ensures urls.LuaTable? && 1 !in urls.entries ==> r == []
  {
    match urls
    case NoUrls => []
    case ScriptList(dicts) => dicts
    case LuaTable(entries) => if 1 in entries then LuaSequence(entries, 1) else []
  }

  /** `_scrape_document`, after the base scraper: ask `get_urls` with the
      file name, URL dict and document dict, and add what it returns. */
  method ScrapeDocument(env: HookEnvironment, item: UrlItem, filename: Value, urlInfo: Value, document: Value,
                        parse: Value -> Option<ParsedUrl>)
    returns (r: UrlItem, error: Option<HookError>)
    ensures var dicts := HookedDicts(env.callbacks.getUrls(ToScriptNative(env, filename), ToScriptNative(env, urlInfo),
                                                           ToScriptNative(env, document)));
      var n := LeadingUrls(dicts);
      && (error.Some? <==> n < |dicts|)
      && r.status == item.status && r.tryCount == item.tryCount
      && r.inlineUrls == item.inlineUrls + Picked(dicts[..n], parse, true)
      && r.linkedUrls == item.linkedUrls + Picked(dicts[..n], parse, false)
  {
    var urls := env.callbacks.getUrls(ToScriptNative(env, filename), ToScriptNative(env, urlInfo),
                                      ToScriptNative(env, document));
    r, error := AddHookedUrls(item, HookedDicts(urls), parse);
  }

  /** With the default callbacks the hooked scraper adds nothing. */
  method DefaultScrapeAddsNothing(env: HookEnvironment, item: UrlItem, filename: Value, urlInfo: Value, document: Value,
                                  parse: Value -> Option<ParsedUrl>)
    returns (r: UrlItem, error: Option<HookError>)
    requires env.callbacks == DefaultCallbacks()
    ensures r == item && error.None?
  {
    r, error := ScrapeDocument(env, item, filename, urlInfo, document, parse);
    assert item.inlineUrls + [] == item.inlineUrls;
    assert item.linkedUrls + [] == item.linkedUrls;
  }
}
