# wpull FTP session and scripting hook, in Dafny

This project models two parts of the wpull web crawler and proves properties about them.

**The FTP fetch session** is `Session` in `wpull/ftp/client.py`. One session serves one request:

1. It checks out a control connection and logs in, with the URL's credentials or the defaults `anonymous` / `-wpull@`.
2. It sends `RETR` for a file. For a directory listing it sends `MLSD` and falls back once to `LIST`.
3. It streams the data channel into a seekable body and releases the data connection in a `finally` block.
4. It finalises the response.

The session is a pure state machine:

- The world is an input. `Server` holds the outcome of the control check-out, the commander's round-trips, the data-channel commands and the listing parsers.
- Every operation returns the session afterwards, the events it appends, and the response or exception.
- An event is one of four kinds: pool traffic (check-out, close, check-in of control and data connections), a commander call (reconnect, log-in, a command sent), clearing the data stream's observers, or a recorder call.
- Properties are stated over projections of the trace: phase markers, data-pool traffic, commands sent, and the trace with recorder calls removed.

**The scripting hook** is `wpull/hook.py`. It turns what a user script's callbacks return into crawl decisions:

- `handle_response` and `handle_error` dispatch on the returned action.
- `should_fetch` maps the script's verdict to skip or keep.
- The filter results become a name-to-bool map for the script.
- The DNS override picks an address family.
- `get_urls` adds URLs to the item.
- The default exit status hook keeps the exit code.

The callbacks are arbitrary functions. So are the decisions of the unhooked base classes the hooks wrap, which enter as inputs.

Files:

| file | module | contents |
|---|---|---|
| `wrappers.dfy` | `Wrappers` | `Option`, `Result` |
| `ftp_types.dfy` | `FtpTypes` | requests, replies, connections, errors, events; reply codes 500 and 502 |
| `ftp_body.dfy` | `FtpBody` | the response body: write, seek to 0, truncate, read |
| `ftp_trace.dfy` | `FtpTrace` | trace projections, counting, release cycles |
| `ftp_client.dfy` | `FtpClient` | the session operations |
| `ftp_client_properties.dfy` | `FtpClientProperties` | phase order, commands sent, listing fallback, data-connection release |
| `ftp_recorder_properties.dfy` | `FtpRecorderProperties` | attaching a recorder changes nothing but recorder calls |
| `ftp_recorder_traffic.dfy` | `FtpRecorderTraffic` | what the recorder receives: control traffic and data bytes, in place between the phase markers |
| `ftp_lifetime.dfy` | `FtpLifetime` | any sequence of calls on one session |
| `hook.dfy` | `Hook` | the scripting hook |

`clean` does not clear `_connection` (`wpull/ftp/client.py:255-261`). So a second `clean` checks the same connection in again; `FtpClientProperties.CleanRepeats` states this.

## Model

| member | source | states |
|---|---|---|
| FtpClient.LogInCredentials | wpull/ftp/client.py:71-72 | The user is the URL's user name if it is neither None nor empty, `anonymous` otherwise; likewise the password with `-wpull@`; both are never empty |
| FtpClient.NewSession | wpull/ftp/client.py:27-33 | A new session holds no control connection and no request, and keeps whether a recorder is attached |
| FtpClient.LogIn | wpull/ftp/client.py:64-75 | The log-in fails with the reconnect's exception if it raised, and with the log-in's exception otherwise |
| FtpClient.LogInTrace | wpull/ftp/client.py:71-75 | `reconnect` comes before `login`, which is sent with the chosen credentials only when the reconnect succeeded; log-in touches no pool |
| FtpClient.InitStream | wpull/ftp/client.py:40-50 | With a control connection already held, the assertion fails and nothing changes; otherwise it succeeds iff the pool hands out a connection, which the session then holds along with the request |
| FtpClient.ControlEvent | wpull/ftp/client.py:53-60 | Control bytes in the reply direction go to `response_control_data`, all others to `request_control_data`, with the same bytes |
| FtpClient.RouteControl | wpull/ftp/client.py:52-62 | With a recorder, each control chunk becomes one recorder call in order; without one, none |
| FtpClient.DataEvent | wpull/ftp/client.py:189-193 | Only bytes read from the data stream are forwarded, to `response_data` |
| FtpClient.Stream | wpull/ftp/client.py:188-197 | Streaming produces only recorder traffic, and none without a recorder |
| FtpClient.StreamTraffic | wpull/ftp/client.py:188-197 | With a recorder, the bytes forwarded to `response_data` are exactly the bytes read, in order; without one, none; the control chunks interleaved with the stream reach the recorder in order through `ControlEvent` |
| FtpClient.RouteControlTraffic | wpull/ftp/client.py:52-62 | Routed control chunks are all control traffic and forward no data bytes |
| FtpClient.ReleaseData | wpull/ftp/client.py:200-206 | The `finally` block clears the observers first iff a stream exists, and ends by closing and then checking in the acquired connection, with nothing else |
| FtpClient.StreamWritesReadBytes | wpull/ftp/client.py:195-197 | The body after streaming is the old body with all bytes read written into it in order |
| FtpClient.FetchWithCommand | wpull/ftp/client.py:167-206 | The data connection obtained is the factory's; a stream exists iff the setup succeeded; the result is the command's reply or exception, or the setup's exception; only a created stream writes into the body |
| FtpClient.FetchWithCommandEvents | wpull/ftp/client.py:173-206 | Whatever the outcome, a connection the factory obtained is closed and then checked in, once; nothing is released if the setup failed before the factory ran; observers are cleared iff a stream was created; the command is sent iff the stream was set up |
| FtpClient.ReleaseDataEvents | wpull/ftp/client.py:200-206 | The `finally` block's pool traffic is close-then-check-in of the acquired connection, and observers are cleared once iff the stream exists |
| FtpClient.ChooseBody | wpull/ftp/client.py:144-150 | With a callback, the body is the callback's answer, or a new empty body if it answers None; without one, the given file, or a new empty body if there is none |
| FtpClient.PrepareFetch | wpull/ftp/client.py:127-153 | Preparation succeeds iff no connection is held, the check-out succeeds and the log-in succeeds; otherwise it fails with the first step's exception; on success the request carries the control connection's address, and the body is the callback's answer if there is a callback and the given file otherwise, or a new empty body when that is None |
| FtpClient.PrepareFetchTrace | wpull/ftp/client.py:133-153 | Preparation checks out one control connection iff none is held and the pool hands one out, touches no data connection, and on success runs check-out, `begin_control`, reconnect, log-in, `pre_response` in that order |
| FtpClient.Fetch | wpull/ftp/client.py:78-96 | `fetch` succeeds iff preparation and `RETR` succeed; its exception is the first failing step's; on success the response carries the addressed request, the final reply and a rewound body holding the transferred bytes |
| FtpClient.CleanUpFetch | wpull/ftp/client.py:155-164 | The clean-up keeps the request, sets the reply and the files, rewinds the body without changing its bytes, and with a recorder calls `response` then `end_control` |
| FtpClient.GetListing | wpull/ftp/client.py:209-253 | A listing command fails iff its run fails, leaving the body as the run left it; on success the files are the parser's reading of everything the body holds, read from the start |
| FtpClient.GetMachineListing | wpull/ftp/client.py:208-227 | `MLSD` on the request's path is sent iff its stream is set up; the listing succeeds iff the command does, failing with the command's exception; on success the body holds the bytes transferred and the files are the machine-listing parse of all of them |
| FtpClient.GetListListing | wpull/ftp/client.py:229-253 | `LIST` on the request's path is sent iff its stream is set up; the listing succeeds iff the command does, failing with the command's exception; on success the body holds the bytes transferred and the files are the heuristic parse of all of them |
| FtpClient.IsFallbackCode | wpull/ftp/client.py:116-117 | The codes that lead from `MLSD` to `LIST` are exactly 500 and 502 |
| FtpClient.RecoverMachineListing | wpull/ftp/client.py:113-120 | Only a server error is caught and it always empties the body; `LIST` is tried iff the reply code is 500 or 502; everything else is re-raised unchanged |
| FtpClient.FetchFileListing | wpull/ftp/client.py:99-124 | A listing fails with the preparation's exception when preparation fails; a successful one carries the addressed request, a rewound body and the parsed files |
| FtpClient.Clean | wpull/ftp/client.py:255-257 | `clean` checks the control connection in iff one is held and keeps it in the session |
| FtpClient.Close | wpull/ftp/client.py:259-261 | `close` closes the control connection iff one is held and keeps it in the session |
| FtpBody.ResetEmpties | wpull/ftp/client.py:114-115 | Seeking to 0 and truncating leaves an empty body at position 0, whatever it held |
| FtpClientProperties.CleanUpEvents | wpull/ftp/client.py:155-164 | The clean-up makes only recorder calls, and none without a recorder |
| FtpClientProperties.FetchPhaseOrder | wpull/ftp/client.py:86-96 | A successful `fetch` runs check-out, `begin_control`, reconnect, log-in, `pre_response`, one `RETR <path>`, `response`, `end_control` in that order, and sends no other command |
| FtpClientProperties.FetchReleasesData | wpull/ftp/client.py:90-92 | On every outcome, the data-pool traffic of `fetch` is whole check-out/close/check-in cycles |
| FtpClientProperties.FetchLeavesNoDataConnection | wpull/ftp/client.py:200-206 | After `fetch`, every data connection has been checked in and closed as often as it was checked out |
| FtpClientProperties.ListingCommands | wpull/ftp/client.py:111-120 | A listing sends `MLSD` when its stream is set up, and `LIST` on the same path iff `MLSD` failed with code 500 or 502 and `LIST`'s stream is set up; nothing else |
| FtpClientProperties.ListingByMachineListing | wpull/ftp/client.py:111-124 | A successful `MLSD` makes the response: its reply, its bytes in the body, the machine-listing parse of them |
| FtpClientProperties.ListingWithoutFallback | wpull/ftp/client.py:113-120 | A server error from `MLSD` other than 500 or 502 is re-raised with the body emptied; any other exception is re-raised with the body as `MLSD` left it |
| FtpClientProperties.ListingFallbackFails | wpull/ftp/client.py:116-118 | A failing `LIST` after a fallback is raised unchanged and not retried; the body holds only what `LIST` wrote |
| FtpClientProperties.ListingFallbackSucceeds | wpull/ftp/client.py:113-124 | A successful `LIST` after a fallback makes the response: its reply, only its bytes in the body, rewound, and the heuristic parse of them |
| FtpClientProperties.ListingReleasesData | wpull/ftp/client.py:111-118 | On every outcome, the data-pool traffic of a listing is whole check-out/close/check-in cycles |
| FtpClientProperties.ListingLeavesNoDataConnection | wpull/ftp/client.py:200-206 | After a listing, every data connection has been checked in and closed as often as it was checked out |
| FtpClientProperties.CleanRepeats | wpull/ftp/client.py:255-261 | A second `clean` checks the same connection in again, and a `close` after `clean` still closes it |
| FtpRecorderProperties.RunPassive | wpull/ftp/client.py:188-193 | A data command with a recorder has the same outcome and body as without one, and the same trace except for recorder calls |
| FtpRecorderProperties.LogInPassive | wpull/ftp/client.py:52-62 | Log-in with a recorder has the same outcome and the same trace except for recorder calls |
| FtpRecorderProperties.PreparePassive | wpull/ftp/client.py:137-153 | Preparation with a recorder has the same result and session (but for the flag), and the same trace except for recorder calls |
| FtpRecorderProperties.FetchRecorderPassive | wpull/ftp/client.py:137-164 | `fetch` with a recorder returns the same response or exception and leaves the same body and session; the traces differ only in recorder calls |
| FtpRecorderProperties.ListingTracePassive | wpull/ftp/client.py:107-124 | A listing with a recorder leaves the same session, and its trace differs only in recorder calls |
| FtpRecorderProperties.ListingResultPassive | wpull/ftp/client.py:107-124 | A listing with a recorder returns the same listing or exception and leaves the same body |
| FtpRecorderTraffic.RunTraffic | wpull/ftp/client.py:167-197 | With a recorder, a data command forwards exactly the bytes read iff its stream was set up, and the control chunks of the setup and then of the stream in order |
| FtpRecorderTraffic.PrepareTraffic | wpull/ftp/client.py:127-153 | With a recorder, a successful preparation ends with `pre_response`, forwards no data bytes, and forwards the reconnect's and then the log-in's control chunks in order |
| FtpRecorderTraffic.FetchTraffic | wpull/ftp/client.py:78-96 | With a recorder, a successful `fetch` splits into the preparation, ending with `pre_response` and carrying only the log-in's control traffic; the `RETR` run, carrying its control traffic and exactly the bytes read; and `response`, `end_control` |
| FtpRecorderTraffic.FetchForwardsBody | wpull/ftp/client.py:86-96 | With a recorder, the bytes a successful `fetch` forwards to `response_data` are exactly the bytes written into the body |
| FtpLifetime.StepCheckOuts | wpull/ftp/client.py:45-47 | One call checks out a control connection exactly when none is held and the pool hands one out; a held connection is never replaced |
| FtpLifetime.RunCheckOuts | wpull/ftp/client.py:45-47 | Over any sequence of calls, a session checks out at most one control connection, and none if it already holds one |
| FtpLifetime.SessionChecksOutOnce | wpull/ftp/client.py:45-47 | A new session checks out at most one control connection in its whole life |
| FtpLifetime.HeldSessionRefuses | wpull/ftp/client.py:45 | While a connection is held, `fetch` and `fetch_file_listing` fail the assertion and change nothing |
| FtpLifetime.SecondFetchRefused | wpull/ftp/client.py:45-47 | After a call that checked out a connection, the next fetch on the same session is refused |
| Hook.ParseAction | wpull/hook.py:42-51 | A returned value names an action iff it equals that action's string |
| Hook.ParseActionName | wpull/hook.py:42-51 | Each action's string names that action |
| Hook.SetStatus | wpull/hook.py:226-227 | Setting a status changes only the status, and the try count only when asked |
| Hook.Skip | wpull/hook.py:246-247 | A falsy verdict skips the item: the status becomes skipped, and the try count and URL lists are kept |
| Hook.DispatchAction | wpull/hook.py:276-286 | `normal` gives the base result; `retry` gives False with the item untouched; `finish` gives True with the item done; `stop` raises `HookStop`; anything else raises `NotImplementedError` |
| Hook.DispatchOutsideNormal | wpull/hook.py:278-282 | Outside `normal`, the answer is True exactly for `finish`, and only `finish` changes the item |
| Hook.HandleResponse | wpull/hook.py:267-286 | The response handler dispatches the script's action, and a stop carries no message |
| Hook.HandleError | wpull/hook.py:288-309 | The error handler dispatches the script's action, and a stop carries the message `Script requested immediate stop.` |
| Hook.HandlersAgree | wpull/hook.py:276-309 | Both handlers make the same decision for the same action and differ only in the stop message |
| Hook.DefaultCallbacksNeutral | wpull/hook.py:54-171 | The default callbacks keep the verdict and the exit code, answer no DNS override, answer `normal` and add no URLs |
| Hook.DefaultHandlersNeutral | wpull/hook.py:91-121 | With the default callbacks both handlers do exactly what the unhooked handlers do |
| Hook.ToScriptNative | wpull/hook.py:436-447 | For a Lua script a dict becomes the Lua table built from its entries; a Python script gets every value unchanged |
| Hook.ScalarsUnchanged | wpull/hook.py:436-447 | Under Python 3 only a dict handed to a Lua script is converted: `to_lua_number` and `to_lua_string` return their argument and `to_lua_table` converts only a dict, so every other value reaches a script of either language unchanged |
| Hook.MarkAllSpec | wpull/hook.py:257-263 | Marking names sets exactly those names to the value and keeps every other entry |
| Hook.FilterInfo | wpull/hook.py:251-265 | The filter info names exactly the filters that ran, and a name is True iff no failed filter has it |
| Hook.Reasons | wpull/hook.py:236-239 | `reasons` has the single key `filters`, a dict naming exactly the filters that ran, each mapped to a bool that is True iff no failed filter has its name |
| Hook.ShouldFetch | wpull/hook.py:223-249 | The verdict is `accept_url`'s answer on the base verdict and filter info; the item ends in progress if the answer is truthy and skipped otherwise, with its try count unchanged |
| Hook.DefaultShouldFetchNeutral | wpull/hook.py:74-89 | With the default callbacks the verdict is the base verdict, and the item is skipped iff the base said no |
| Hook.Resolve | wpull/hook.py:181-190 | A non-empty DNS override is the address with the port asked for, family 10 iff it holds a colon and 2 otherwise; without one the base resolver answers |
| Hook.DefaultResolveNeutral | wpull/hook.py:57-72 | With the default callbacks the base resolver always answers |
| Hook.DefaultExitCodeNeutral | wpull/hook.py:159-171 | With the default callbacks, `exit_status` handed the computed code, converted for the script, answers that code, for a Lua script as for a Python one |
| Hook.AddHookedUrl | wpull/hook.py:342-363 | A falsy URL fails the assertion; otherwise the URL is added to the inline list iff `inline` is truthy and to the linked list otherwise, or dropped if it does not parse; the status and try count are kept |
| Hook.Pick | wpull/hook.py:353-363 | A dict adds at most one link to a list, and one exactly when it parses and its `inline` flag matches |
| Hook.PickOnce | wpull/hook.py:353-363 | A parsed URL lands in exactly one of the two lists, an unparsed one in neither |
| Hook.LeadingUrls | wpull/hook.py:339-349 | The number of dicts added before the first one whose URL fails the assertion |
| Hook.AddHookedUrls | wpull/hook.py:338-340 | Dicts are added in order; the first falsy URL raises, and the URLs added before it stay added |
| Hook.LuaSequenceSpec | wpull/hook.py:327-337 | A Lua table read from index i yields entries[i], entries[i+1], ... in order, every one present, and stops exactly at the first missing index |
| Hook.HookedDicts | wpull/hook.py:324-340 | A falsy `get_urls` result adds nothing; a list is added as it is; a Lua table with index 1 is read as a sequence |
| Hook.ScrapeDocument | wpull/hook.py:311-340 | The hooked scraper adds, in order, the URLs of the dicts `get_urls` returns, up to the first one whose URL fails the assertion |
| Hook.DefaultScrapeAddsNothing | wpull/hook.py:124-145 | With the default callbacks the hooked scraper leaves the item unchanged and raises nothing |

## Left out

- Concurrency: the coroutine machinery is left out, and so is sharing a connection pool between sessions. Each call runs sequentially on one session.
- Sockets, `ControlStream` and the `Commander`'s framing are inputs. Each round-trip is some control traffic followed by completion or an exception.
- The listing parsers are inputs. These are `parse_machine_listing`, `ListingParser` with its heuristics, and the latin-1 decoding and text wrapper.
- Release of the control connection on error paths is not modelled. The code leaves it to the caller through `clean`/`close`, so nothing is claimed about it.
- Recorder events carry only the request for `begin_control` and the bytes for traffic. The response snapshots that `pre_response`, `response` and `end_control` receive are not modelled.
- FtpClient.ChooseBody: the source calls `callback(request, response)`, and the model's callback receives only the request. The body, reply and files the callback could set on the response are overwritten later. A callback that reassigns `response.request` (set at `wpull/ftp/client.py:142`) would keep its value, which the model does not represent.
- `wpull.body.Body` is modelled as a byte sequence with a position (`FtpBody`). Its file backing is not modelled.
- `Session.__init__` is modelled by `NewSession`. The stream and commander objects it creates are not modelled.
- Hook.SetStatus: the `UrlItem` class is not part of this model. `set_status` is taken to replace the status and, by default, add one try. `skip` is taken to set the status to skipped without a try.
- Hook.Resolve: the DNS override is taken to return None or a string. A truthy non-string answer is not modelled.
- Hook.Resolve: the host is passed to `resolve_dns` unconverted. `to_lua_type` leaves a string unchanged under Python 3 (`Hook.ScalarsUnchanged`), which is the only version modelled.
- Hook.HookedDicts: a Lua table without index 1 adds nothing. The code would iterate the table, and how the Lua binding iterates a table is not part of this model.
- A `get_urls` dict without `url` raises `KeyError`, which is not modelled. `_get_from_native_dict`'s probing of Lua tables for `link_type`, `inline` and `post_data` is taken as given. A missing key is `None`.
- Lua loading (`load_lua`) is left out. The Lua table that `to_lua_table` builds through `lua.eval` is an input of `HookEnvironment`, applied to a dict's entries.
- `to_lua_number` and `to_lua_string` convert only under Python 2, which is not modelled. Under Python 3 they return their argument.
- `HookedEngine._compute_exit_code_from_stats` is left out. It wires `exit_status` into the engine, which is not part of this model. Only the conversion of the code and the default `exit_status` are modelled.
- The pool's `close()` and `check_in()` are taken never to raise. If `data_connection.close()` raised at `wpull/ftp/client.py:205`, the `check_in` at line 206 would be skipped and the new exception would replace the command's. So `FtpClient.FetchWithCommandEvents` and `FtpClientProperties.ListingReleasesData` hold only under that assumption.
- The assertion `assert not self._connection` (`wpull/ftp/client.py:45`) is taken to be enabled. `FtpLifetime.RunCheckOuts` depends on it: under `python -O` a second fetch would check out a second control connection.
- `finishing_statistics` and `HookedEngine._print_stats` are left out. They only notify the script and decide nothing.
- The factories of `HookEnvironment` and the `HookedWebProcessor` session classes are left out. They are pass-throughs to classes that are not part of this model.
- Logging is left out.
- `doc/api/template.py` is left out. It generates documentation files and holds no session or hook logic.
