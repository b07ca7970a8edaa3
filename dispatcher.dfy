/** The request handler `requestListener` (index.ts:250-449, index.js:223-435) up to the point
    where a worker is started, and the error responders `send404`, `send403` and `send500`
    (index.ts:204-244, index.js:195-219).

    `Classify` is the decision tree as a function from the request and the server's
    environment to what is sent; `Respond` is what that does to the response; the class
    `Server` holds the request counter and handles one request step by step, proved to do
    what `Classify` and `Respond` say. */
module Dispatcher {
  import opened Opt
  import opened Text
  import opened NodeHttp
  import opened HostRegistry
  import opened RangeResolver

  /** What `lstat` reports for a path: a directory or another file, with its size. */
  datatype FsNode = File(size: nat) | Dir(size: nat)

  /** The parts of an `http.IncomingMessage` the handler reads; `verb` is `req.method`.
      `path` is the decoded path of the URL and `None` when `new URL(...)` or `decodeURI`
      throws; `remoteAddress` is `None` when the socket has none. */
  datatype Request = Request(
    host: Option<string>,
    ipHeader: Option<string>,
    remoteAddress: Option<string>,
    verb: string,
    path: Option<string>,
    range: Option<string>)

  /** What the handler works against: the virtual hosts, the blacklist, the filesystem as
      `fs.exists`/`lstat` see it (keyed by the path string handed to them) and `path.resolve`. */
  datatype Env = Env(
    vhosts: map<string, VHost>,
    blacklist: seq<string>,
    fs: map<string, FsNode>,
    resolve: string -> string)

  /** The server's start-up reading of `vhosts.json` and `extension-blacklist.json`: a missing
      file gives the empty table or the default blacklist. */
  function LoadEnv(vhostsFile: Option<map<string, VHost>>, blacklistFile: Option<seq<string>>,
                   fs: map<string, FsNode>, resolve: string -> string): (env: Env)
    ensures vhostsFile.None? ==> env.vhosts == map[]
    ensures blacklistFile.None? ==> env.blacklist == [".node.js", ".node.ts"]
    ensures vhostsFile.Some? ==> env.vhosts == vhostsFile.value
    ensures blacklistFile.Some? ==> env.blacklist == blacklistFile.value
  {
    Env(vhostsFile.GetOr(map[]), LoadBlacklist(blacklistFile), fs, resolve)
  }

  /** What lines 257-260 compute before the request is counted. */
  datatype Derived = Derived(ip: string, host: string, path: string)

  /** Client address, lookup key and path; `None` when any of these steps throws (no socket
      address, an unparsable URL, no `Host` header, a malformed escape). */
  function Derive(req: Request): (d: Option<Derived>)
    ensures d.Some? <==> ClientIp(req.ipHeader, req.remoteAddress).Some? && req.host.Some? && req.path.Some?
    ensures d.Some? ==> d.value.host == HostKey(req.host.value) && d.value.path == req.path.value
  {
    var ip :- ClientIp(req.ipHeader, req.remoteAddress);
    var header :- req.host;
    var path :- req.path;
    Some(Derived(ip, HostKey(header), path))
  }

  /** What the handler does with the response. `Serve(f)` is `sendFile(req, res, f)`;
      `RunWorker(f)` starts the worker `f` (see the relay); `NoResponse` writes nothing. */
  datatype Outcome =
    | Bare(status: int, text: string)
    | Serve(file: string)
    | RunWorker(script: string)
    | NoResponse

  const InternalServerError: Outcome := Bare(500, "Internal Server Error")

  /** `send404`: the host's 404 document through `sendFile`, or a bare "Not Found". */
  function NotFound(s: HostSettings): (o: Outcome)
    ensures s.error404document.None? <==> o == Bare(404, "Not Found")
    ensures s.error404document.Some? ==> o == Serve(RootText(s.root) + s.error404document.value)
  {
    match s.error404document
    case Some(doc) => Serve(RootText(s.root) + doc)
    case None => Bare(404, "Not Found")
  }

  /** `send403`: the host's 403 document through `sendFile`, or a bare "Forbidden". */
  function Forbidden(s: HostSettings): (o: Outcome)
    ensures s.error403document.None? <==> o == Bare(403, "Forbidden")
    ensures s.error403document.Some? ==> o == Serve(RootText(s.root) + s.error403document.value)
  {
    match s.error403document
    case Some(doc) => Serve(RootText(s.root) + doc)
    case None => Bare(403, "Forbidden")
  }

  /** The GET branch (index.ts:276-315). */
  function ClassifyGet(env: Env, s: HostSettings, path: string): (o: Outcome)
    ensures !o.RunWorker? && !o.NoResponse?
  {
    var file := env.resolve(RootText(s.root) + path);
    if file !in env.fs then NotFound(s)
    else if env.fs[file].Dir? then
      if file + "/index.html" in env.fs then Serve(file + "/index.html") else NotFound(s)
    else if Blacklisted(env.blacklist, file) then Forbidden(s)
    else Serve(file)
  }

  /** The POST branch (index.ts:316-437): no `path.resolve` here, and a missing file is not
      answered at all. */
  function ClassifyPost(env: Env, s: HostSettings, path: string): (o: Outcome)
    ensures o.RunWorker? ==> o.script == RootText(s.root) + path
    ensures !o.Bare? || o == Bare(404, "Not Found")
  {
    var file := RootText(s.root) + path;
    if file !in env.fs then NoResponse
    else if env.fs[file].Dir? then NotFound(s)
    else if EndsWith(file, ".node.js") then RunWorker(file)
    else NotFound(s)
  }

  /** Lines 265-441 once the host lookup has answered: a bare 404 for an unknown host, else
      the branch of the request's method; other methods are ignored. */
  function Dispatch(env: Env, verb: string, path: string, found: Option<HostSettings>): (o: Outcome)
    ensures found.None? ==> o == Bare(404, "Not Found")
    ensures found.Some? && verb != "GET" && verb != "POST" ==> o == NoResponse
  {
    match found
    case None => Bare(404, "Not Found")
    case Some(s) =>
      if verb == "GET" then ClassifyGet(env, s, path)
      else if verb == "POST" then ClassifyPost(env, s, path)
      else NoResponse
  }

  /** The whole decision tree of `requestListener`, with the own-key host lookup. */
  function Classify(env: Env, req: Request): (o: Outcome)
    ensures Derive(req).None? ==> o == InternalServerError
  {
    match Derive(req)
    case None => InternalServerError
    case Some(d) => Dispatch(env, req.verb, d.path, GetHostSettings(env.vhosts, d.host))
  }

  /** The decision tree as written, where `host in vhosts` also finds the names inherited from
      `Object.prototype`. */
  function ClassifyAsWritten(env: Env, req: Request): (o: Outcome)
    ensures Derive(req).None? ==> o == InternalServerError
  {
    match Derive(req)
    case None => InternalServerError
    case Some(d) => Dispatch(env, req.verb, d.path, GetHostSettingsAsWritten(env.vhosts, d.host))
  }

  // ---- what an outcome does to the response ----

  /** `res.writeHead(status); res.end(text)`. When `writeHead` throws, the handler's `catch`
      calls `writeHead(500)`, which throws again, so the response is left as it was. */
  function SendBare(r: Response, status: int, text: string): (r': Response)
    ensures !r.headersSent ==> r'.statusCode == status && r'.headersSent && r'.ended
    ensures !r.headersSent && !r.ended ==>
              r'.headers == r.headers && r'.body == r.body + (if text == "" then [] else [TextChunk(text)])
    ensures r.headersSent ==> r' == r
  {
    match r.WriteHead(status, [])
    case None => r
    case Some(r1) =>
      assert r1.headers == r.headers;
      assert r1.body + [] == r1.body;
      After(r1, r1.End(Str(text)))
  }

  /** `sendFile(req, res, file)`: the response and the byte window streamed. For a file
      `lstat` cannot find, its promise rejects before anything is written. */
  function ServeFile(r: Response, fs: map<string, FsNode>, file: string, range: Option<string>,
                     mime: string -> Option<string>): (res: (Response, Option<Window>))
    ensures file !in fs ==> res == (r, None)
    ensures res.1.Some? ==> file in fs && !r.headersSent && res.1.value == Bounds(range, fs[file].size)
  {
    if file in fs then
      var reply := ResolveRange(range, fs[file].size, MimeType(mime(file)));
      (After(r, Deliver(r, reply)), if !reply.Unsatisfiable? && !r.headersSent then Some(reply.window) else None)
    else (r, None)
  }

  /** The response after an outcome, and the byte window streamed into it. A worker's
      messages are applied by the relay, not here. */
  function Respond(r: Response, o: Outcome, fs: map<string, FsNode>, range: Option<string>,
                   mime: string -> Option<string>): (res: (Response, Option<Window>))
    ensures (o.RunWorker? || o.NoResponse?) ==> res == (r, None)
    ensures res.1.Some? ==> o.Serve?
  {
    match o
    case Bare(status, text) => (SendBare(r, status, text), None)
    case Serve(file) => ServeFile(r, fs, file, range, mime)
    case RunWorker(_) => (r, None)
    case NoResponse => (r, None)
  }

  /** `res.writeHead(status); res.end(text)` on the response object. */
  method WriteBare(res: ServerResponse, status: int, text: string)
    requires res.Valid()
    modifies res
    ensures res.Valid()
    ensures res.State() == SendBare(old(res.State()), status, text)
  {
    var ok := res.WriteHead(status, []);
    if ok {
      ok := res.End(Str(text));
    }
  }

  /** `send500(res, message)`. */
  method Send500(res: ServerResponse)
    requires res.Valid()
    modifies res
    ensures res.Valid()
    ensures res.State() == SendBare(old(res.State()), 500, "Internal Server Error")
  {
    WriteBare(res, 500, "Internal Server Error");
  }

  /** The state of the request handler: the request counter and the environment. */
  class Server {
    var numOfRequests: nat
    const env: Env

    constructor (env: Env)
      ensures this.env == env && numOfRequests == 0
    {
      this.env := env;
      numOfRequests := 0;
    }

    /** `sendFile(req, res, file)`, once the file's `lstat` has succeeded or failed. */
    method ServeTo(res: ServerResponse, file: string, range: Option<string>, mime: string -> Option<string>)
      returns (stream: Option<Window>)
      requires res.Valid()
      modifies res
      ensures res.Valid()
      ensures (res.State(), stream) == ServeFile(old(res.State()), env.fs, file, range, mime)
    {
      if file in env.fs {
        stream := SendFile(res, range, env.fs[file].size, mime(file));
      } else {
        stream := None;
      }
    }

    /** `send404(req, res, hostSettings, message)`. */
    method Send404(res: ServerResponse, s: HostSettings, range: Option<string>, mime: string -> Option<string>)
      returns (outcome: Outcome, stream: Option<Window>)
      requires res.Valid()
      modifies res
      ensures res.Valid()
      ensures outcome == NotFound(s)
      ensures (res.State(), stream) == Respond(old(res.State()), outcome, env.fs, range, mime)
    {
      if s.error404document.Some? {
        outcome := Serve(RootText(s.root) + s.error404document.value);
        stream := ServeTo(res, outcome.file, range, mime);
      } else {
        outcome, stream := Bare(404, "Not Found"), None;
        WriteBare(res, 404, "Not Found");
      }
    }

    /** `send403(req, res, hostSettings, message)`. */
    method Send403(res: ServerResponse, s: HostSettings, range: Option<string>, mime: string -> Option<string>)
      returns (outcome: Outcome, stream: Option<Window>)
      requires res.Valid()
      modifies res
      ensures res.Valid()
      ensures outcome == Forbidden(s)
      ensures (res.State(), stream) == Respond(old(res.State()), outcome, env.fs, range, mime)
    {
      if s.error403document.Some? {
        outcome := Serve(RootText(s.root) + s.error403document.value);
        stream := ServeTo(res, outcome.file, range, mime);
      } else {
        outcome, stream := Bare(403, "Forbidden"), None;
        WriteBare(res, 403, "Forbidden");
      }
    }

    /** The GET branch. */
    method HandleGet(res: ServerResponse, s: HostSettings, path: string, range: Option<string>,
                     mime: string -> Option<string>)
      returns (outcome: Outcome, stream: Option<Window>)
      requires res.Valid()
      modifies res
      ensures res.Valid()
      ensures outcome == ClassifyGet(env, s, path)
      ensures (res.State(), stream) == Respond(old(res.State()), outcome, env.fs, range, mime)
    {
      var file := env.resolve(RootText(s.root) + path);
      if file in env.fs {
        if env.fs[file].Dir? {
          var finalFile := file + "/index.html";
          if finalFile in env.fs {
            outcome := Serve(finalFile);
            stream := ServeTo(res, finalFile, range, mime);
          } else {
            outcome, stream := Send404(res, s, range, mime);
          }
        } else {
          var allowed := FileAllowed(env.blacklist, file);
          if allowed {
            outcome := Serve(file);
            stream := ServeTo(res, file, range, mime);
          } else {
            outcome, stream := Send403(res, s, range, mime);
          }
        }
      } else {
        outcome, stream := Send404(res, s, range, mime);
      }
    }

    /** The POST branch up to the start of the worker. */
    method HandlePost(res: ServerResponse, s: HostSettings, path: string, range: Option<string>,
                      mime: string -> Option<string>)
      returns (outcome: Outcome, stream: Option<Window>)
      requires res.Valid()
      modifies res
      ensures res.Valid()
      ensures outcome == ClassifyPost(env, s, path)
      ensures (res.State(), stream) == Respond(old(res.State()), outcome, env.fs, range, mime)
    {
      var file := RootText(s.root) + path;
      outcome, stream := NoResponse, None;
      if file in env.fs {
        if env.fs[file].Dir? {
          outcome, stream := Send404(res, s, range, mime);
        } else if EndsWith(file, ".node.js") {
          outcome := RunWorker(file);
        } else {
          outcome, stream := Send404(res, s, range, mime);
        }
      }
    }

    /** `requestListener(req, res)` up to the start of a worker: the request is counted once
        its address, host and path are known, and gets the id it is counted under. */
    method HandleRequest(req: Request, res: ServerResponse, mime: string -> Option<string>)
      returns (id: Option<nat>, outcome: Outcome, stream: Option<Window>)
      requires res.Valid()
      modifies this, res
      ensures res.Valid()
      ensures outcome == Classify(env, req)
      ensures (res.State(), stream) == Respond(old(res.State()), outcome, env.fs, req.range, mime)
      ensures id.Some? <==> Derive(req).Some?
      ensures numOfRequests == if id.Some? then old(numOfRequests) + 1 else old(numOfRequests)
      ensures id.Some? ==> id.value == numOfRequests
    {
      var derived := Derive(req);
      if derived.None? {
        id, outcome, stream := None, InternalServerError, None;
        Send500(res);
        return;
      }
      numOfRequests := numOfRequests + 1;
      id := Some(numOfRequests);
      var settings := GetHostSettings(env.vhosts, derived.value.host);
      if settings.None? {
        outcome, stream := Bare(404, "Not Found"), None;
        WriteBare(res, 404, "Not Found");
        return;
      }
      if req.verb == "GET" {
        outcome, stream := HandleGet(res, settings.value, derived.value.path, req.range, mime);
      } else if req.verb == "POST" {
        outcome, stream := HandlePost(res, settings.value, derived.value.path, req.range, mime);
      } else {
        outcome, stream := NoResponse, None;
      }
    }
  }

  // ---- properties ----

  /** A request whose host is not a key of the table gets a bare 404 "Not Found", whatever its
      method. */
  lemma UnknownHostIsNotFound(env: Env, req: Request)
    requires Derive(req).Some? && HostKey(req.host.value) !in env.vhosts
    ensures Classify(env, req) == Bare(404, "Not Found")
  {
  }

  /** The tree as written and the model's agree on every request whose host key is a key of
      the table or is not inherited from `Object.prototype`. */
  lemma ClassifyAgreesOffThePrototype(env: Env, req: Request)
    requires Derive(req).Some? ==>
      Derive(req).value.host in env.vhosts || Derive(req).value.host !in ObjectPrototypeNames
    ensures ClassifyAsWritten(env, req) == Classify(env, req)
  {
    if Derive(req).Some? {
      LookupsAgreeOffThePrototype(env.vhosts, Derive(req).value.host);
    }
  }

  /** A POST with Host "constructor" and no such entry: the model answers a bare 404, while
      the code as written finds inherited settings, looks the file up under "undefined" and,
      finding nothing there, answers nothing at all. */
  lemma InheritedHostPostAsWritten(env: Env, req: Request)
    requires Derive(req).Some? && Derive(req).value.host == "constructor"
    requires "constructor" !in env.vhosts && req.verb == "POST"
    requires "undefined" + Derive(req).value.path !in env.fs
    ensures Classify(env, req) == Bare(404, "Not Found")
    ensures ClassifyAsWritten(env, req) == NoResponse
  {
    InheritedNameIsFoundAsWritten(env.vhosts);
  }

  /** A request whose address, URL, host or path cannot be read gets a bare 500. */
  lemma UnreadableRequestIsInternalError(env: Env, req: Request)
    requires Derive(req).None?
    ensures Classify(env, req) == Bare(500, "Internal Server Error")
  {
  }

  /** The host settings of a request that passed the host lookup. */
  function SettingsOf(env: Env, req: Request): HostSettings
    requires Derive(req).Some? && Derive(req).value.host in env.vhosts
  {
    Merge(env.vhosts[Derive(req).value.host])
  }

  /** GET serves a file exactly when it exists and is not blacklisted, or when it is the
      `index.html` of a directory; every other served file is one of the host's error
      documents. */
  lemma GetServes(env: Env, req: Request, f: string)
    requires Derive(req).Some? && Derive(req).value.host in env.vhosts && req.verb == "GET"
    ensures var s := SettingsOf(env, req);
      var file := env.resolve(RootText(s.root) + Derive(req).value.path);
      Classify(env, req) == Serve(f) ==>
        || (f == file && f in env.fs && env.fs[f].File? && !Blacklisted(env.blacklist, f))
        || (file in env.fs && env.fs[file].Dir? && f == file + "/index.html" && f in env.fs)
        || (s.error403document.Some? && f == RootText(s.root) + s.error403document.value)
        || (s.error404document.Some? && f == RootText(s.root) + s.error404document.value)
  {
  }

  /** With a known host, GET gives each case of the tree: a missing path or a directory
      without `index.html` is a 404, a blacklisted file a 403, any other file is served. */
  lemma GetCases(env: Env, req: Request)
    requires Derive(req).Some? && Derive(req).value.host in env.vhosts && req.verb == "GET"
    ensures var s := SettingsOf(env, req);
      var file := env.resolve(RootText(s.root) + Derive(req).value.path);
      var o := Classify(env, req);
      && (file !in env.fs ==> o == NotFound(s))
      && (file in env.fs && env.fs[file].Dir? ==>
            o == if file + "/index.html" in env.fs then Serve(file + "/index.html") else NotFound(s))
      && (file in env.fs && env.fs[file].File? ==>
            o == if Blacklisted(env.blacklist, file) then Forbidden(s) else Serve(file))
  {
  }

  /** With a known host, POST gives each case of the tree: nothing for a missing path, a 404
      for a directory or for a file not named "*.node.js", and a worker run otherwise. */
  lemma PostCases(env: Env, req: Request)
    requires Derive(req).Some? && Derive(req).value.host in env.vhosts && req.verb == "POST"
    ensures var s := SettingsOf(env, req);
      var file := RootText(s.root) + Derive(req).value.path;
      var o := Classify(env, req);
      && (file !in env.fs ==> o == NoResponse)
      && (file in env.fs && env.fs[file].Dir? ==> o == NotFound(s))
      && (file in env.fs && env.fs[file].File? ==>
            o == if EndsWith(file, ".node.js") then RunWorker(file) else NotFound(s))
  {
  }

  /** A GET never starts a worker, and with the default blacklist it never sends the source
      of a server-side script: such a file gets the 403 answer. */
  lemma GetNeverLeaksScripts(env: Env, req: Request, base: string)
    requires Derive(req).Some? && Derive(req).value.host in env.vhosts && req.verb == "GET"
    requires env.blacklist == DefaultBlacklist
    requires var s := SettingsOf(env, req);
      env.resolve(RootText(s.root) + Derive(req).value.path) == base + ".node.js"
    requires base + ".node.js" in env.fs && env.fs[base + ".node.js"].File?
    ensures Classify(env, req) == Forbidden(SettingsOf(env, req))
    ensures !Classify(env, req).RunWorker?
  {
    DefaultBlacklistCoversScripts(base);
  }

  /** A worker runs exactly for a POST to an existing file, not a directory, whose name
      ends in ".node.js" (".node.ts" does not count). */
  lemma RunsWorkerExactly(env: Env, req: Request, f: string)
    requires Derive(req).Some? && Derive(req).value.host in env.vhosts
    ensures var file := RootText(SettingsOf(env, req).root) + Derive(req).value.path;
      Classify(env, req) == RunWorker(f) <==>
        req.verb == "POST" && f == file && f in env.fs && env.fs[f].File? && EndsWith(f, ".node.js")
  {
  }

  /** Nothing is written exactly for a method other than GET and POST, or a POST to a path
      that does not exist. */
  lemma NoResponseExactly(env: Env, req: Request)
    requires Derive(req).Some? && Derive(req).value.host in env.vhosts
    ensures var file := RootText(SettingsOf(env, req).root) + Derive(req).value.path;
      Classify(env, req) == NoResponse <==>
        (req.verb != "GET" && req.verb != "POST") || (req.verb == "POST" && file !in env.fs)
  {
    var s := SettingsOf(env, req);
    var d := Derive(req).value;
    if req.verb == "GET" {
      var file := env.resolve(RootText(s.root) + d.path);
      assert NotFound(s) != NoResponse && Forbidden(s) != NoResponse;
    }
  }

  /** On an untouched response a bare answer sends its status and text and ends. */
  lemma BareOnFreshResponse(status: int, text: string)
    ensures var r := SendBare(Fresh(), status, text);
      && r.statusCode == status && r.headersSent && r.ended && r.headers == map[]
      && r.body == if text == "" then [] else [TextChunk(text)]
  {
  }

  /** An error document goes out through `sendFile`, so with no `Range` header a configured
      404 document is sent with status 200, not 404. */
  lemma ErrorDocumentSentWith200(fs: map<string, FsNode>, s: HostSettings, range: Option<string>,
                                 mime: string -> Option<string>)
    requires s.error404document.Some? && !HasRange(range)
    requires RootText(s.root) + s.error404document.value in fs
    ensures var (r, w) := Respond(Fresh(), NotFound(s), fs, range, mime);
      && r.statusCode == 200 && r.headersSent && !r.ended && w.Some?
  {
    var doc := RootText(s.root) + s.error404document.value;
    var reply := ResolveRange(range, fs[doc].size, MimeType(mime(doc)));
    NoRangeMeansWholeFile(range, fs[doc].size, MimeType(mime(doc)));
    DeliverOnFreshResponse(reply);
  }

  /** A configured error document that does not exist leaves the response untouched: the
      request is never answered. */
  lemma MissingErrorDocumentAnswersNothing(fs: map<string, FsNode>, s: HostSettings,
                                           range: Option<string>, mime: string -> Option<string>)
    requires s.error404document.Some? && RootText(s.root) + s.error404document.value !in fs
    ensures Respond(Fresh(), NotFound(s), fs, range, mime) == (Fresh(), None)
  {
  }
}
