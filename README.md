# ApacheJS request core in Dafny

A model of the request-handling core of ApacheJS (`node-apache-js`), a small Node.js web
server that serves virtual hosts from a `vhosts.json` table and runs `*.node.js` scripts in
worker threads. The model has three parts.

1. **The range resolver.** `sendFile` turns an optional `Range` header and a file size into
   one of three answers: 200 with the whole file, 206 with a byte window, or 416.
   `RangeResolver.ResolveRange` states this as a function. `RangeResolver.SendFile` follows the
   source's step-by-step updates of `start` and `end` (`RequestedWindow`) and its writes to the
   response (`SendWindow`).
   - The header is taken apart as the code does it: the first `bytes=` is removed, the rest is
     split on `-`, and the parts go through JavaScript's `parseInt` (`JsParseInt`).
   - Suffix ranges (section 2.1 of RFC 7233) are not implemented by the code, so `bytes=-N`
     means bytes 0 to N.
   - Nothing checks that start ≤ end.
2. **The request classifier and the error responders.**
   - `HostRegistry` covers the host lookup key, the client address, `getHostSettings` and the
     extension blacklist (`fileAllowed` as a loop).
   - `Dispatcher.Classify` is the whole GET/POST/other decision tree as a function of the
     request and an abstract filesystem. `Dispatcher.Respond` says what each outcome does to
     the response.
   - The class `Dispatcher.Server` holds the request counter. Its `HandleRequest` method
     handles one request step by step and is proved to do what `Classify` and `Respond` say.
3. **The worker message protocol.**
   - `WorkerApi` is the worker side: the `Res` class and `log` append tagged messages to the
     `parentPort` outbox.
   - `Relay` is the main-thread side: the guarded relay of index.js applies those messages to
     the response, settles the run first-wins, and then unlinks the uploaded files or sends a
     500.
   - `NodeHttp` encodes the facts about Node's `ServerResponse` that the guards depend on, both
     as a value (`Response`) and as a mutable object (`ServerResponse`):
     - `write` and `end` send the headers;
     - `end` ends the response;
     - `setHeader` and `writeHead` throw once the headers are sent.

The inputs that I/O would supply are parameters, all of them abstract:
- the filesystem, a map from path strings to what `lstat` reports;
- `path.resolve`, a function;
- the `mime.lookup` result;
- the URL and `decodeURI` results, folded into an optional decoded path;
- the contents of `vhosts.json` and `extension-blacklist.json`;
- the sequence of worker messages and the exit code.

Behaviours of the code the model keeps:
- The host key drops the first `www.` anywhere in the `Host` header, not only a leading one.
- `host in vhosts` also accepts names inherited from `Object.prototype` (see Findings). This is
  kept in `HostRegistry.GetHostSettingsAsWritten` and `Dispatcher.ClassifyAsWritten`. The rest of the
  model, `Dispatcher.Classify` and `Dispatcher.Server.HandleRequest` included, uses the corrected
  lookup of the table's own keys, and `Dispatcher.InheritedHostPostAsWritten` shows where the two differ.
- A configured error document is sent with the status `sendFile` picks (200, 206 or 416), not
  with 404 or 403.
- Redirect, proxy and header-override settings do not appear in the code and are not modelled.

## Model

| member | source | states |
|---|---|---|
| Text.IndexOfFrom | index.ts:259 | the index found holds an occurrence of the pattern and no earlier index at or after the start does |
| Text.ReplaceFirstSplits | index.ts:259 | `replace` with a literal pattern keeps the text before the first occurrence, drops that occurrence and keeps the rest |
| Text.ReplaceFirstAtStart | index.ts:106 | a pattern at the very start is replaced and the rest kept |
| Text.ReplaceFirstAbsent | index.ts:259 | a string without the pattern is unchanged |
| Text.ReplaceFirst | index.ts:259 | when the pattern occurs, the result is shorter by the pattern and longer by the replacement; `ReplaceFirstSplits`, `ReplaceFirstAtStart` and `ReplaceFirstAbsent` give its contents |
| Text.EndsWith | index.ts:79-87 | `endsWith`: `FileAllowed`, `DefaultBlacklistCoversScripts` and `RunsWorkerExactly` are stated with it |
| Text.Split | index.ts:107 | `split` on one character gives at least one part, and no part contains the separator |
| Text.JoinSplit | index.ts:107 | joining the parts of a split with the separator gives back the string |
| Text.SplitNoSeparator | index.ts:107 | a string without the separator splits into itself alone |
| Text.SplitAtFirst | index.ts:107 | splitting `x + sep + y` gives `x` followed by the parts of `y` |
| Text.NatToString | index.ts:122 | `String(n)` is a non-empty run of decimal digits with no minus sign and no leading zero |
| Text.NatToStringAppend | index.ts:132 | appending a digit to a numeral multiplies by ten and adds the digit |
| Text.IntToString | index.ts:134 | `String(i)` starts with '-' exactly when i is negative |
| JsParseInt.TrimStart | index.ts:108 | parseInt's leading white space is removed: the result is a suffix that starts with a non-white-space character |
| JsParseInt.DigitRun | index.ts:108 | the longest prefix of digits of the radix: every character in it is a digit, and the next one is not |
| JsParseInt.ParseMagnitude | index.ts:108 | the unsigned part of `parseInt` never yields a negative number |
| JsParseInt.ParseInt | index.ts:108 | a negative result needs a `-` after the leading white space; `ParseIntRoundTrip`, `ParseIntOfNumeral`, `ParseIntWithoutMinus`, `ParseIntWithoutDigits` and `ParseIntSkipsWhiteSpace` give its values |
| JsParseInt.ValueOfNatToString | index.ts:108 | the numeral `String(n)` has value n |
| JsParseInt.ParseIntRoundTrip | index.ts:108 | `parseInt(String(n)) == n` for every natural n |
| JsParseInt.ParseIntOfNumeral | index.ts:108 | parseInt reads a numeral followed by a non-digit as the numeral's value |
| JsParseInt.ParseIntWithoutMinus | index.ts:105-108 | a string without '-' never parses to a negative number |
| JsParseInt.ParseIntWithoutDigits | index.ts:108-111 | a string without digits parses to NaN |
| JsParseInt.ParseIntSkipsWhiteSpace | index.ts:108 | leading white space does not change the result |
| NodeHttp.StoreHeaders | index.ts:121-123 | after `writeHead` the header table holds the old names plus the ASCII-lower-cased names of the list; which `Header` each name holds is `StoreHeadersContents` |
| NodeHttp.StoreHeadersContents | index.ts:121-123 | each lower-cased name of the list holds the last entry of the list with that name; a name the list never mentions keeps its old entry |
| NodeHttp.StoredLast | index.ts:121-123 | an entry that no later entry of the same lower-cased name overrides is what the table holds under that name |
| NodeHttp.StoredKept | index.ts:121-123 | a name that no entry of the list has keeps its old entry |
| NodeHttp.Response.SetHeader | index.js:362 | `setHeader` on the value; `OperationsEvolve` states that it keeps the response consistent and never changes a sent or ended one |
| NodeHttp.Response.WriteHead | index.ts:121-123 | `writeHead` on the value; `OperationsEvolve` states that it is refused once the headers are sent and keeps the response consistent |
| NodeHttp.Response.Write | index.ts:125 | `write` on the value; `WriteAndEndFlush` states that it succeeds exactly on a string or bytes before the end, and then leaves the headers sent |
| NodeHttp.Response.End | index.ts:126 | `end` on the value; `WriteAndEndFlush` states that it succeeds exactly before the end on a non-object, and then leaves the response ended |
| NodeHttp.OperationsEvolve | index.js:336-377 | every response operation keeps `ended ==> headersSent`; the body only grows; a sent response keeps its status and headers; an ended one never changes |
| NodeHttp.WriteAndEndFlush | index.js:340-356 | `write` succeeds exactly on a string or bytes before the end and leaves the headers sent; `end` succeeds exactly on a non-object before the end and leaves the response ended |
| NodeHttp.ServerResponse.SetHeader | index.js:362 | `setHeader` on the object: the new state is the value-level `SetHeader`, refused once the headers are sent |
| NodeHttp.ServerResponse.WriteHead | index.ts:121-123 | `writeHead` on the object, refused once the headers are sent |
| NodeHttp.ServerResponse.Write | index.ts:125 | `write` on the object, refused after the end or for a value that is neither a string nor bytes |
| NodeHttp.ServerResponse.End | index.ts:126 | `end` on the object: it ends the response and sends the headers |
| RangeResolver.RequestedWindow | index.ts:100-115 | the step-by-step `start`/`end` updates give exactly `Bounds(range, size)` |
| RangeResolver.Bounds | index.ts:100-115 | the window; `RequestedWindow`, `RangeDefaults`, `NumeralRange` and `DashNumeralMeansFromZero` state what it is |
| RangeResolver.Reply | index.ts:117-142 | the reply for a window; `ReplyWithRange` and `ReplyOnEmptyFile` state it with a Range header, `NoRangeMeansWholeFile` without |
| RangeResolver.ResolveRange | index.ts:100-142 | `Bounds`, then `Reply`; `UnsatisfiableExactly`, `PartialWithinFile`, `NumeralRangeReply` and `EmptyFileRangeIsUnsatisfiable` state its replies |
| RangeResolver.Deliver | index.ts:117-142 | what `sendFile` writes for a reply; `DeliverOutcome` and `DeliverOnFreshResponse` state it |
| RangeResolver.SendFile | index.ts:96-147 | the response afterwards is what `writeHead` (plus, for a 416, the text and `end`) does with the reply `ResolveRange` picks; the streamed window is the reply's window, or none for a 416 or when `writeHead` threw |
| RangeResolver.SendWindow | index.ts:117-147 | for a window already computed, the response afterwards is what `writeHead` (plus, for a 416, the text and `end`) does with the reply `Reply` picks; that window is streamed unless the reply is a 416 or `writeHead` threw |
| RangeResolver.DeliverOutcome | index.ts:117-142 | a 416 writes status, `Content-Range`, "Range Not Satisfiable" and ends; the other replies only call `writeHead`; nothing happens once the headers were sent |
| RangeResolver.NoRangeMeansWholeFile | index.ts:100-142 | without a Range header: 200, `Content-Length` is the file size, and the window is 0 to size-1, with the end held at 0 for an empty file |
| RangeResolver.PartsAreNeverNegative | index.ts:104-115 | the parts come from a split on '-', so parseInt never gives a negative start or end |
| RangeResolver.RangeDefaults | index.ts:104-115 | a non-numeric start becomes 0 and a non-numeric end becomes size-1 (0 for an empty file); numbers are kept |
| RangeResolver.NumeralRange | index.ts:104-111 | "bytes=A-B" gives exactly the window A to B |
| RangeResolver.DashNumeralMeansFromZero | index.ts:104-115 | "bytes=-N" gives the window 0 to N, not the last N bytes |
| RangeResolver.UnsatisfiableExactly | index.ts:117-127 | with a Range header the reply is 416 with `bytes */size` exactly when start ≥ size or end ≥ size; otherwise it is 206 |
| RangeResolver.ReplyWithRange | index.ts:117-136 | for any window, with a Range header: 416 with `bytes */size` exactly when an end is at or past the size, otherwise 206 naming that window with length end-start+1 |
| RangeResolver.ReplyOnEmptyFile | index.ts:117-127 | on a 0-byte file every window gives 416 with `bytes */0` |
| RangeResolver.EmptyFileRangeIsUnsatisfiable | index.ts:117-127 | any range on a 0-byte file is a 416 |
| RangeResolver.PartialWithinFile | index.ts:129-136 | a 206 has 0 ≤ start < size and 0 ≤ end < size, `Content-Range` names its window and `Content-Length` is end-start+1 |
| RangeResolver.NumeralRangeReply | index.ts:117-136 | the full decision for "bytes=A-B": 206 for A..B when both lie inside the file, 416 otherwise |
| RangeResolver.InvertedRangeAccepted | index.ts:129-136 | "bytes=5-2" on 10 bytes is a 206 whose `Content-Length` is -2 |
| RangeResolver.HundredBytesOfThousand | index.ts:129-136 | "bytes=100-199" on 1000 bytes is a 206 with `bytes 100-199/1000` and length 100 |
| RangeResolver.DeliverOnFreshResponse | index.ts:117-142 | on an untouched response the reply's status and headers go out, and only a 416 ends it, with body "Range Not Satisfiable" |
| HostRegistry.GetHostSettings | index.ts:185-200 | no settings exactly for a name that is not a key of the table; otherwise the entry merged over the defaults |
| HostRegistry.Merge | index.ts:192-199 | the spread over the defaults; `SettingsKeepTheEntry` states which field comes from where |
| HostRegistry.SettingsKeepTheEntry | index.ts:192-199 | every field of the entry is kept; missing ones take the defaults `filemanager = false` and null error documents |
| HostRegistry.GetHostSettingsAsWritten | index.ts:188 | the `in` test as written: no settings only for a name that is neither a key nor inherited from `Object.prototype` |
| HostRegistry.InheritedNameIsFoundAsWritten | index.ts:188-190 | the Host "constructor" is unknown, yet the code finds settings for it, with root `undefined` |
| HostRegistry.LookupsAgreeOffThePrototype | index.ts:185-200 | both lookups agree on every name not inherited from `Object.prototype` |
| HostRegistry.HostKey | index.ts:259 | the key is the header, or the header four characters shorter; the `HostKey...` lemmas below give its contents |
| HostRegistry.HostKeyDropsLeadingWww | index.ts:259 | `www.` + h has key h |
| HostRegistry.HostKeyWithoutWww | index.ts:259 | a header without "www." is its own key |
| HostRegistry.HostKeyDropsFirstWww | index.ts:259 | the first "www." is removed wherever it is |
| HostRegistry.HostKeyOfSubdomain | index.ts:259 | "shop.www.example.com" has key "shop.example.com" |
| HostRegistry.HostKeyDropsOneWww | index.ts:259 | "www.www.example.com" has key "www.example.com" |
| HostRegistry.ClientIp | index.ts:257 | the `ip` header wins when present; it throws only when there is neither that header nor a socket address |
| HostRegistry.MappedAddressUnwrapped | index.ts:257 | "::ffff:" + v4 gives v4 |
| HostRegistry.LoadBlacklist | index.ts:75-77 | the file's list, or `[".node.js", ".node.ts"]` when there is none |
| HostRegistry.FileAllowed | index.ts:79-87 | the loop returns false exactly when some blacklist entry is a suffix of the path |
| HostRegistry.DefaultBlacklistCoversScripts | index.ts:75-87 | with the default list, files ending in ".node.js" or ".node.ts" are blacklisted and "app.js" is not |
| Dispatcher.LoadEnv | index.ts:74-77 | a missing `vhosts.json` gives the empty table, and a missing blacklist file gives the default list |
| Dispatcher.Derive | index.ts:257-260 | the request is readable exactly when address, Host and decoded path are all present; the key is `HostKey` of the header |
| Dispatcher.NotFound | index.ts:204-218 | `send404`: the host's 404 document through `sendFile` when configured, else a bare 404 "Not Found" |
| Dispatcher.Forbidden | index.ts:220-234 | `send403`: the host's 403 document through `sendFile` when configured, else a bare 403 "Forbidden" |
| Dispatcher.ClassifyGet | index.ts:276-315 | a GET never yields a worker run or `NoResponse`: it always gives a bare answer or a file for `sendFile` (which, for an error document `lstat` cannot find, writes nothing; see `MissingErrorDocumentAnswersNothing`); `GetCases` gives each case |
| Dispatcher.ClassifyPost | index.ts:316-437 | a POST runs only the script at `root + path`, and its only bare answer is 404 "Not Found"; `PostCases` gives each case |
| Dispatcher.Dispatch | index.ts:265-442 | an unknown host gets a bare 404 "Not Found"; a known host with a method other than GET and POST gets no response |
| Dispatcher.Classify | index.ts:252-449 | an unreadable request gets the bare 500; with the own-key lookup, `UnknownHostIsNotFound`, `GetCases`, `PostCases`, `RunsWorkerExactly` and `NoResponseExactly` give the rest |
| Dispatcher.ClassifyAsWritten | index.ts:185-200 | the same tree with `in` as written; an unreadable request gets the bare 500; `ClassifyAgreesOffThePrototype` and `InheritedHostPostAsWritten` relate it to `Classify` |
| Dispatcher.SendBare | index.ts:270-271 | on a response whose headers are unsent and which has not ended: the status, headers sent and ended, the headers kept, and the body extended by the text (nothing for empty text); on sent headers the response is unchanged, because the catch's `writeHead(500)` throws too |
| Dispatcher.ServeFile | index.ts:96-147 | a file `lstat` does not find leaves the response untouched; a window is streamed only for a found file on unsent headers, and it is `Bounds` of the range |
| Dispatcher.Respond | index.ts:252-449 | a worker run or no response leaves the response untouched here, and only a served file streams a window |
| Dispatcher.WriteBare | index.ts:270-271 | `writeHead(status)` then `end(text)` on the object, as `SendBare` says |
| Dispatcher.Send500 | index.ts:236-244 | `send500` writes a bare 500 "Internal Server Error" |
| Dispatcher.Server.constructor | index.ts:250 | the counter starts at 0 |
| Dispatcher.Server.ServeTo | index.ts:96 | `sendFile` on a file `lstat` finds; a missing file leaves the response untouched |
| Dispatcher.Server.Send404 | index.ts:204-218 | the method gives `NotFound` and does to the response what `Respond` says |
| Dispatcher.Server.Send403 | index.ts:220-234 | the method gives `Forbidden` and does to the response what `Respond` says |
| Dispatcher.Server.HandleGet | index.ts:276-315 | the GET branch, with `FileAllowed` and `SendFile`, meets `ClassifyGet` and `Respond` |
| Dispatcher.Server.HandlePost | index.ts:316-437 | the POST branch meets `ClassifyPost` and `Respond`, up to the start of the worker |
| Dispatcher.Server.HandleRequest | index.ts:252-449 | the outcome is `Classify` and the response is `Respond` of it; the counter rises by one exactly when the request is readable, and the id is the new count |
| Dispatcher.UnknownHostIsNotFound | index.ts:265-274 | a host that is not in the table gets a bare 404 "Not Found" for every method |
| Dispatcher.ClassifyAgreesOffThePrototype | index.ts:185-200 | the tree as written and the model agree on every request whose host key is in the table or is not an `Object.prototype` name |
| Dispatcher.InheritedHostPostAsWritten | index.ts:185-331 | a POST with host key "constructor" and no such entry: the model answers a bare 404, while the code looks the file up under "undefined" and, not finding it, answers nothing |
| Dispatcher.UnreadableRequestIsInternalError | index.ts:443-448 | a request whose address, URL, host or path throws gets a bare 500 |
| Dispatcher.GetServes | index.ts:276-315 | a GET serves only: an existing, non-blacklisted file; the `index.html` of a directory when it exists; or a configured error document |
| Dispatcher.GetCases | index.ts:276-315 | GET: a missing path gets the 404 answer, a directory its `index.html` or the 404 answer, a blacklisted file the 403 answer, any other file is served |
| Dispatcher.PostCases | index.ts:316-437 | POST with a known host: nothing for a missing path, the 404 answer for a directory or for a file not named "*.node.js", a worker run otherwise |
| Dispatcher.GetNeverLeaksScripts | index.ts:305-311 | with the default blacklist, a GET of an existing ".node.js" file gets the 403 answer and never runs a worker |
| Dispatcher.RunsWorkerExactly | index.ts:316-331 | a worker runs exactly for a POST to an existing non-directory whose name ends in ".node.js" |
| Dispatcher.NoResponseExactly | index.ts:316-442 | nothing is written exactly for a method other than GET and POST, or for a POST to a missing path |
| Dispatcher.BareOnFreshResponse | index.ts:213-214 | a bare answer on an untouched response sends the status and text and ends |
| Dispatcher.ErrorDocumentSentWith200 | index.ts:210-211 | without a Range header, a configured 404 document that exists goes out with status 200 |
| Dispatcher.MissingErrorDocumentAnswersNothing | index.ts:96 | a configured error document that does not exist leaves the response untouched |
| WorkerApi.ParentPort.PostMessage | plugins/workers/index.ts:68 | `postMessage` appends the message to the outbox |
| WorkerApi.HeaderMessages | plugins/workers/index.ts:64-70 | one `set-header` per entry of the headers, in order; none when they are omitted |
| WorkerApi.WriteHeadMessages | plugins/workers/index.ts:72-77 | exactly `HeaderMessages(headers)`, then one `set-status-code` with the code, which comes last; without headers only that message |
| WorkerApi.SendMessages | plugins/workers/index.ts:83-90 | the messages of `send`: `Res.Send` posts them, and `WriteHeadThenSendMessages` states the sequence after a `writeHead` |
| WorkerApi.LogText | plugins/workers/index.ts:95-101 | the text `log` posts: `Log` states that an Error is replaced by its stack |
| WorkerApi.Log | plugins/workers/index.ts:95-101 | `log` posts exactly one `log` message; an Error is replaced by its stack |
| WorkerApi.Res.constructor | plugins/workers/index.ts:60-62 | a new `Res` has status 200 |
| WorkerApi.Res.AddHeaders | plugins/workers/index.ts:64-70 | the `for ... in` loop posts exactly `HeaderMessages` |
| WorkerApi.Res.WriteHead | plugins/workers/index.ts:72-77 | posts `WriteHeadMessages` and sets `statusCode` to the code |
| WorkerApi.Res.Write | plugins/workers/index.ts:79-81 | posts one `write` message with the body unchanged; `statusCode` is not touched |
| WorkerApi.Res.Send | plugins/workers/index.ts:83-90 | posts `set-status-code` with the current status, then `response` with the body |
| WorkerApi.WriteHeadThenSendMessages | plugins/workers/index.ts:72-90 | `writeHead(c)` then `send(b)` posts status c twice, then the response |
| Relay.ConvertValue | index.js:326-333 | bytes keep their bytes, an object becomes its JSON text, and strings and `undefined` are unchanged; no object is left |
| Relay.ConvertBody | index.js:325-335 | only `response` and `write` messages are touched |
| Relay.Settle | index.js:345-346 | a promise settles once: a later resolve or reject is ignored |
| Relay.ExitError | index.js:386-393 | exit code 0 gives `NoResponse`, any other code `Unspecified` |
| Relay.Apply | index.js:336-377 | the run resolves only on a `response` before the end, and that message ends the response; `EndedIsFinal`, `ResponseEnds`, `WriteAppends` and `HeaderAndStatusGuards` give each case |
| Relay.Step | index.js:336-377 | the settlement either stays or goes from pending to resolved; `WorkerRun.OnMessage` is proved to do what it says |
| Relay.Replay | index.js:336-377 | the messages in order; `ReplayConcat`, `EndedStaysFinal`, `HeadersStayFrozen` and `SettledStays` are stated about it |
| Relay.Exit | index.js:386-393 | the exit leaves the response alone and rejects a pending run with `ExitError(code)` |
| Relay.Conclusion | index.js:397-415 | nothing is unlinked unless the run resolved; `SilentExitIs500`, `ExitWithoutResponseIs500` and `CreatedOk` give both sides |
| Relay.RunWorker | index.js:320-415 | a run still pending at the end had no exit; `CreatedOk`, `WriteBeforeStatusKeeps200`, `SilentExitIs500`, `ExitWithoutResponseIs500` and `ExitAfterWriteLeavesResponseOpen` are runs of it |
| Relay.WorkerRun.Resolve | index.js:346 | `resolve()` settles a pending run as resolved |
| Relay.WorkerRun.OnMessage | index.js:336-377 | the guarded handler on the response object does what `Step` says |
| Relay.WorkerRun.OnExit | index.js:386-393 | the exit handler rejects a pending run with `ExitError(code)` |
| Relay.WorkerRun.Conclude | index.js:404-415 | after a resolve, the loop unlinks each uploaded file's temp path exactly once, in order; after a rejection `send500` runs |
| Relay.EndedIsFinal | index.js:340-356 | on an ended response no message changes anything or resolves |
| Relay.EndedStaysFinal | index.js:340-356 | once ended, replaying any messages leaves the state as it is |
| Relay.ApplyEvolves | index.js:336-377 | every message keeps Node's response evolution: the body only grows, sent headers and status stay, an ended response is frozen |
| Relay.HeadersStayFrozen | index.js:357-369 | once the headers are sent, no sequence of messages changes the status or the headers |
| Relay.ResponseEnds | index.js:340-348 | a `response` before the end ends the response with the converted body and resolves the run |
| Relay.WriteAppends | index.js:349-356 | a `write` before the end appends its string, bytes or JSON text and flushes the headers; after the end, or for `undefined`, it changes nothing |
| Relay.HeaderAndStatusGuards | index.js:357-369 | `set-header` applies exactly while the headers are unsent; `set-status-code` exactly while they are unsent and the response is not ended |
| Relay.InertMessagesChangeNothing | index.js:336-377 | `log` and unrecognised messages can be removed from any run without changing the result |
| Relay.ReplayConcat | index.js:336-377 | replaying `a + b` is replaying `a` then `b` |
| Relay.SettledStays | index.js:340-393 | first-wins: once settled, neither messages nor the exit change the settlement |
| Relay.EndedExactlyWhenResolved | index.js:340-348 | before the exit, the run is resolved exactly when the response has ended |
| Relay.CreatedOk | index.js:340-369 | worker `writeHead(201)` then `send("ok")`: status 201, body "ok", ended and resolved for any exit, every temp file unlinked |
| Relay.WriteBeforeStatusKeeps200 | index.js:349-369 | a `write` before `writeHead(201)` and `send` flushes the headers, so the status stays 200 |
| Relay.NoResponseStaysPending | index.js:340-348 | without a `response` message a pending run stays pending |
| Relay.NothingFlushedWithoutWrite | index.js:349-369 | without a `write` or `response` message the headers stay unsent and the response open |
| Relay.ReplayKeepsConsistent | index.js:336-377 | every run keeps the response consistent: an ended response has sent its headers |
| Relay.ExitWithoutResponseIs500 | index.js:336-415 | any run with no `response` message, then an exit: rejected with `ExitError(code)` and nothing unlinked; if nothing was flushed (always so when the worker never wrote), a bare 500 with the headers set so far and "Internal Server Error" appended to the body; after a flush, nothing changes |
| Relay.SilentExitIs500 | index.js:386-415 | a run with no messages at all, then an exit: it rejects (`NoResponse` for code 0, else `Unspecified`), answers a bare 500 with body "Internal Server Error", and unlinks nothing |
| Relay.ExitAfterWriteLeavesResponseOpen | index.js:411-431 | after a `write` and an exit, `send500`'s `writeHead` throws, so the response keeps status 200 and is never ended |

## Left out

- Server lifecycle (index.ts:455-519): startup, `listen`, the logger, the exit and SIGINT handlers and the statistics. These are I/O and floating-point rates.
- Form parsing (index.ts:152-181): `parseForm` wraps formidable and `JSON.parse`, which are foreign calls. The uploaded files it reports are an input to `Relay.WorkerRun.Conclude`. An error that formidable reports rejects the promise, and the handler's catch then answers a bare 500. A body that `JSON.parse` cannot read throws inside formidable's callback, outside the handler's `try`: it is an uncaught exception, and the request is never answered. `HandleRequest` follows neither, since it stops at the `RunWorker` outcome.
- Filesystem and streaming: `fs.exists`, `lstat`, `createReadStream().pipe` and `unlink` are left out.
  - The filesystem is a map from path strings to what `lstat` reports.
  - The difference between `exists` (which follows links) and `lstat` (which does not) is folded into that map.
  - The model stops at the byte window handed to the stream, so the stream error when an `index.html` is a directory is not modelled.
  - The unlinks are returned as a list of paths. Their un-awaited promises are not modelled.
- RangeResolver.SendFile and RangeResolver.SendWindow report a window as streamed even when `createReadStream` rejects it. For an inverted range such as "bytes=5-2" (`InvertedRangeAccepted`), `createReadStream(filePath, { start, end })` at index.ts:146 throws after `writeHead(206)`. No caller awaits `sendFile`, so the throw is an unhandled rejection, and the response, with its 206 headers sent, is never ended. The model does not capture that throw or the open response it leaves.
- Dispatcher.Server.HandleRequest follows the corrected own-key host lookup, not `host in vhosts` as written. For a Host such as "constructor", the code goes on with root "undefined" instead of answering 404; `Dispatcher.ClassifyAsWritten` keeps that behaviour as a function.
- `mime.lookup`, `path.resolve`, `URL` and `decodeURI` are uninterpreted. Only "lookup false gives the empty type" is kept. A throwing URL or `decodeURI` is an absent path.
- Worker threads and the event loop: spawning, `workerData`, the structured clone of messages (including its DataCloneError) and how messages and the exit interleave are not modelled. A run is a message sequence followed by an optional exit code.
- The worker `'error'` event only logs, and is not modelled.
- Logging: chalk colours, `console.log` and the text of log messages are not modelled.
- The unguarded copy of the relay in index.ts:378-397, an older version of index.js:336-377, is not modelled. The guarded index.js relay is the reference.
- Node's validation of header names, header values and status codes, and the error a `write` after the end emits asynchronously. The model keeps only that the response is unchanged.
- Bodies of other primitive types (numbers, booleans, `null`) are not modelled. `JSON.stringify` is abstracted: an object body carries its JSON text.
- The order in which `for ... in` walks an object (integer-like keys first) and inherited enumerable properties: `HeaderList` is given in walk order.
- Number precision: integers are unbounded. JavaScript would round a `parseInt` result or a `Content-Length` above 2^53.
- The request counter is kept only as "the id is the count after incrementing". The `filemanager` flag is carried but unused, as in the code.
- The test scripts (test.ts, test.js, test-worker.ts, test-worker.js) are not modelled; they are a self-contained streaming experiment.

## Findings

| source | as written | input that shows it | evidently intended | confidence | as-written member | corrected member |
|---|---|---|---|---|---|---|
| index.ts:188 | `if (!(host in vhosts)) return null`. `in` also finds properties inherited from `Object.prototype`, so these names count as configured hosts. Their settings are the defaults with no `root`, and files are then looked up under "undefined" + path. | `Host: constructor` (or `www.constructor`) with no such entry in `vhosts.json` | an unknown host answers a bare 404 "Not Found", which requires a lookup of the table's own keys | high; not executed | HostRegistry.InheritedNameIsFoundAsWritten | HostRegistry.GetHostSettings |
