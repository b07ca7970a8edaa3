/** The main-thread side of the worker protocol: the guarded relay of index.js:325-393 that
    applies a worker's messages to the response, the settlement of the run, and what follows
    it (index.js:398-415): the uploaded files are unlinked after a response, and `send500`
    runs after an exit without one.

    The order in which messages and the exit arrive is taken as given: a run is a sequence of
    messages followed, possibly, by the exit code. */
module Relay {
  import opened Opt
  import opened NodeHttp
  import opened WorkerApi
  import D = Dispatcher

  /** `convertBody` on a body: a byte array becomes a `Buffer` with the same bytes, another
      object its JSON text; strings and `undefined` stay as they are. */
  function ConvertValue(v: Value): (c: Value)
    ensures !c.Obj?
    ensures v.Obj? ==> c == Str(v.json)
    ensures !v.Obj? ==> c == v
  {
    match v
    case Obj(json) => Str(json)
    case _ => v
  }

  /** `convertBody(message)`: only `response` and `write` messages are touched. */
  function ConvertBody(m: PostMessage): (c: PostMessage)
    ensures !m.ResponseMsg? && !m.WriteMsg? ==> c == m
    ensures m.ResponseMsg? ==> c == ResponseMsg(ConvertValue(m.body))
    ensures m.WriteMsg? ==> c == WriteMsg(ConvertValue(m.body))
  {
    match m
    case ResponseMsg(b) => ResponseMsg(ConvertValue(b))
    case WriteMsg(b) => WriteMsg(ConvertValue(b))
    case _ => m
  }

  /** The `WorkerError` an exit rejects the run with. */
  datatype WorkerError = NoResponse | Unspecified

  /** The promise `runWorker()` returns. */
  datatype Settlement = Pending | Resolved | Rejected(error: WorkerError)

  /** A promise settles once: a later `resolve` or `reject` is ignored. */
  function Settle(s: Settlement, next: Settlement): (t: Settlement)
    ensures s.Pending? ==> t == next
    ensures !s.Pending? ==> t == s
  {
    if s.Pending? then next else s
  }

  /** The `'exit'` handler: code 0 is `NoResponse`, any other code `Unspecified`. */
  function ExitError(code: int): (e: WorkerError)
    ensures e == NoResponse <==> code == 0
  {
    if code == 0 then NoResponse else Unspecified
  }

  /** The `'message'` handler on the response: the new response, and whether `resolve()` was
      reached. A call that throws is caught and logged, and leaves the response as it was. */
  function Apply(r: Response, m: PostMessage): (res: (Response, bool))
    ensures res.1 ==> m.ResponseMsg? && !r.ended && res.0.ended
  {
    match ConvertBody(m)
    case ResponseMsg(b) =>
      if r.ended then (r, false)
      else (match r.End(b) case None => (r, false) case Some(r1) => (r1, true))
    case WriteMsg(b) =>
      if r.ended then (r, false) else (After(r, r.Write(b)), false)
    case SetHeaderMsg(name, value) =>
      if r.headersSent then (r, false) else (After(r, r.SetHeader(name, value)), false)
    case SetStatusCodeMsg(code) =>
      if !r.headersSent && !r.ended then (r.(statusCode := code), false) else (r, false)
    case LogMsg(_, _) => (r, false)
    case Unrecognised(_) => (r, false)
  }

  /** The response and the settlement of a run. */
  datatype RelayState = RelayState(res: Response, settled: Settlement)

  /** One message. */
  function Step(st: RelayState, m: PostMessage): (st': RelayState)
    ensures st'.settled == st.settled || (st.settled.Pending? && st'.settled.Resolved?)
  {
    var (r, resolved) := Apply(st.res, m);
    RelayState(r, if resolved then Settle(st.settled, Resolved) else st.settled)
  }

  /** The messages in the order they arrive. */
  function Replay(st: RelayState, ms: seq<PostMessage>): (st': RelayState)
    decreases |ms|
  {
    if ms == [] then st else Replay(Step(st, ms[0]), ms[1..])
  }

  /** The worker's exit. */
  function Exit(st: RelayState, code: int): (st': RelayState)
    ensures st'.res == st.res
    ensures st.settled.Pending? ==> st'.settled == Rejected(ExitError(code))
  {
    st.(settled := Settle(st.settled, Rejected(ExitError(code))))
  }

  /** An uploaded file, as `parseForm` describes it. */
  datatype UploadedFile = UploadedFile(name: string, tempPath: string, size: nat, mimeType: string)

  function TempPaths(files: seq<UploadedFile>): (ps: seq<string>)
    ensures |ps| == |files| && forall i :: 0 <= i < |files| ==> ps[i] == files[i].tempPath
  {
    seq(|files|, i requires 0 <= i < |files| => files[i].tempPath)
  }

  /** What follows `await runWorker()`: after a resolve the files to unlink, after a rejection
      `send500`; while pending, nothing. */
  function Conclusion(st: RelayState, files: seq<UploadedFile>): (res: (Response, seq<string>))
    ensures !st.settled.Resolved? ==> res.1 == []
  {
    match st.settled
    case Resolved => (st.res, TempPaths(files))
    case Rejected(_) => (D.SendBare(st.res, 500, "Internal Server Error"), [])
    case Pending => (st.res, [])
  }

  /** A whole run on a new response: the response at the end, the settlement and the
      temporary files unlinked. */
  function RunWorker(ms: seq<PostMessage>, exit: Option<int>, files: seq<UploadedFile>)
    : (res: (Response, Settlement, seq<string>))
    ensures res.1.Pending? ==> exit.None?
  {
    var st := Replay(RelayState(Fresh(), Pending), ms);
    var st' := if exit.Some? then Exit(st, exit.value) else st;
    var (r, unlinked) := Conclusion(st', files);
    (r, st'.settled, unlinked)
  }

  /** The run of one worker on the response of its request. */
  class WorkerRun {
    const res: ServerResponse
    var settled: Settlement

    function State(): RelayState
      reads this, res
    {
      RelayState(res.State(), settled)
    }

    constructor (res: ServerResponse)
      ensures this.res == res && settled == Pending
    {
      this.res := res;
      settled := Pending;
    }

    /** `resolve()`. */
    method Resolve()
      modifies this
      ensures settled == Settle(old(settled), Resolved)
    {
      if settled.Pending? {
        settled := Resolved;
      }
    }

    /** `worker.on('message', ...)`. */
    method OnMessage(m: PostMessage)
      requires res.Valid()
      modifies this, res
      ensures res.Valid()
      ensures State() == Step(old(State()), m)
    {
      var c := ConvertBody(m);
      match c
      case ResponseMsg(b) =>
        if !res.ended {
          var ok := res.End(b);
          if ok {
            Resolve();
          }
        }
      case WriteMsg(b) =>
        if !res.ended {
          var ok := res.Write(b);
        }
      case SetHeaderMsg(name, value) =>
        if !res.headersSent {
          var ok := res.SetHeader(name, value);
        }
      case SetStatusCodeMsg(code) =>
        if !res.headersSent && !res.ended {
          res.statusCode := code;
        }
      case LogMsg(_, _) =>
      case Unrecognised(_) =>
    }

    /** `worker.on('exit', ...)`. */
    method OnExit(code: int)
      modifies this
      ensures settled == Settle(old(settled), Rejected(ExitError(code)))
    {
      settled := Settle(settled, Rejected(ExitError(code)));
    }

    /** The continuation of `await runWorker()` once the run has settled: the loop that
        unlinks each uploaded file (returned in the order unlinked), or `send500`. */
    method Conclude(files: seq<UploadedFile>) returns (unlinked: seq<string>)
      requires res.Valid()
      modifies res
      ensures res.Valid()
      ensures (res.State(), unlinked) == Conclusion(old(State()), files)
    {
      unlinked := [];
      if settled.Resolved? {
        var i := 0;
        while i < |files|
          invariant 0 <= i <= |files|
          invariant unlinked == TempPaths(files[..i])
        {
          unlinked := unlinked + [files[i].tempPath];
          i := i + 1;
        }
        assert files[..i] == files;
      } else if settled.Rejected? {
        D.Send500(res);
      }
    }
  }

  // ---- properties ----

  /** Once the response has ended, no message changes it. */
  lemma EndedIsFinal(r: Response, m: PostMessage)
    requires r.Consistent() && r.ended
    ensures Apply(r, m) == (r, false)
  {
  }

  lemma {:induction false} EndedStaysFinal(st: RelayState, ms: seq<PostMessage>)
    requires st.res.Consistent() && st.res.ended
    ensures Replay(st, ms) == st
    decreases |ms|
  {
    if ms != [] {
      EndedIsFinal(st.res, ms[0]);
      EndedStaysFinal(Step(st, ms[0]), ms[1..]);
    }
  }

  /** Every message keeps to what Node guarantees of a response: the body only grows, a sent
      response keeps its status and headers, an ended one does not change. */
  lemma ApplyEvolves(r: Response, m: PostMessage)
    requires r.Consistent()
    ensures Evolves(r, Apply(r, m).0)
  {
    match m
    case ResponseMsg(b) => OperationsEvolve(r, "", "", 0, [], ConvertValue(b));
    case WriteMsg(b) => OperationsEvolve(r, "", "", 0, [], ConvertValue(b));
    case SetHeaderMsg(name, value) => OperationsEvolve(r, name, value, 0, [], Undefined);
    case _ =>
  }

  /** Once the headers are sent, no message changes the status or the headers. */
  lemma {:induction false} HeadersStayFrozen(st: RelayState, ms: seq<PostMessage>)
    requires st.res.Consistent() && st.res.headersSent
    ensures Replay(st, ms).res.statusCode == st.res.statusCode
    ensures Replay(st, ms).res.headers == st.res.headers
    decreases |ms|
  {
    if ms != [] {
      ApplyEvolves(st.res, ms[0]);
      HeadersStayFrozen(Step(st, ms[0]), ms[1..]);
    }
  }

  /** A `response` message on a response that has not ended ends it with the converted body
      and resolves the run; the conversion leaves no value `end` rejects. */
  lemma ResponseEnds(r: Response, body: Value)
    requires !r.ended
    ensures var (r1, resolved) := Apply(r, ResponseMsg(body));
      && resolved && r1.ended && r1.headersSent
      && r1.statusCode == r.statusCode && r1.headers == r.headers
      && r1.body == r.body + EndData(ConvertValue(body)).value
  {
  }

  /** A `write` message on a response that has not ended appends its string or bytes and
      flushes the headers; on an ended response it is dropped. */
  lemma WriteAppends(r: Response, body: Value)
    ensures var (r1, resolved) := Apply(r, WriteMsg(body));
      && !resolved
      && (r.ended ==> r1 == r)
      && (!r.ended && body.Str? ==> r1 == r.(body := r.body + [TextChunk(body.s)], headersSent := true))
      && (!r.ended && body.Bytes? ==> r1 == r.(body := r.body + [ByteChunk(body.b)], headersSent := true))
      && (!r.ended && body.Obj? ==> r1 == r.(body := r.body + [TextChunk(body.json)], headersSent := true))
      && (body.Undefined? ==> r1 == r)
  {
  }

  /** A `set-header` is applied exactly while the headers are not sent; a `set-status-code`
      exactly while the headers are not sent and the response has not ended. */
  lemma HeaderAndStatusGuards(r: Response, name: string, value: string, code: int)
    requires r.Consistent()
    ensures Apply(r, SetHeaderMsg(name, value)).0
      == if r.headersSent then r else r.(headers := r.headers[LowerAscii(name) := Header(name, value)])
    ensures Apply(r, SetStatusCodeMsg(code)).0 == if r.headersSent then r else r.(statusCode := code)
  {
  }

  /** `log` messages and messages of an unknown type change nothing. */
  predicate Inert(m: PostMessage) {
    m.LogMsg? || m.Unrecognised?
  }

  function WithoutInert(ms: seq<PostMessage>): (ks: seq<PostMessage>)
    ensures forall i :: 0 <= i < |ks| ==> !Inert(ks[i])
    ensures |ks| <= |ms|
    decreases |ms|
  {
    if ms == [] then []
    else if Inert(ms[0]) then WithoutInert(ms[1..])
    else [ms[0]] + WithoutInert(ms[1..])
  }

  lemma {:induction false} InertMessagesChangeNothing(st: RelayState, ms: seq<PostMessage>)
    ensures Replay(st, ms) == Replay(st, WithoutInert(ms))
    decreases |ms|
  {
    if ms != [] {
      InertMessagesChangeNothing(Step(st, ms[0]), ms[1..]);
      if !Inert(ms[0]) {
        var rest := WithoutInert(ms[1..]);
        assert ([ms[0]] + rest)[0] == ms[0];
        assert ([ms[0]] + rest)[1..] == rest;
      }
    }
  }

  /** Replaying two stretches of messages is replaying them one after the other. */
  lemma {:induction false} ReplayConcat(st: RelayState, a: seq<PostMessage>, b: seq<PostMessage>)
    ensures Replay(st, a + b) == Replay(Replay(st, a), b)
    decreases |a|
  {
    if a == [] {
      assert a + b == b;
    } else {
      assert (a + b)[0] == a[0];
      assert (a + b)[1..] == a[1..] + b;
      ReplayConcat(Step(st, a[0]), a[1..], b);
    }
  }

  /** Settlement is first-wins: once settled, no message and no exit changes it. */
  lemma {:induction false} SettledStays(st: RelayState, ms: seq<PostMessage>, code: int)
    requires !st.settled.Pending?
    ensures Replay(st, ms).settled == st.settled
    ensures Exit(Replay(st, ms), code).settled == st.settled
    decreases |ms|
  {
    if ms != [] {
      SettledStays(Step(st, ms[0]), ms[1..], code);
    }
  }

  /** Before the exit, the run is resolved exactly when the response has ended: only a
      `response` message ends it, and it always resolves. */
  lemma {:induction false} EndedExactlyWhenResolved(st: RelayState, ms: seq<PostMessage>)
    requires st.res.Consistent()
    requires st.settled.Pending? || st.settled.Resolved?
    requires st.res.ended <==> st.settled.Resolved?
    ensures var st' := Replay(st, ms);
      && st'.res.Consistent()
      && (st'.settled.Pending? || st'.settled.Resolved?)
      && (st'.res.ended <==> st'.settled.Resolved?)
    decreases |ms|
  {
    if ms != [] {
      var st1 := Step(st, ms[0]);
      ApplyEvolves(st.res, ms[0]);
      if st.res.ended {
        EndedIsFinal(st.res, ms[0]);
      } else {
        match ms[0]
        case ResponseMsg(b) => ResponseEnds(st.res, b);
        case WriteMsg(b) => WriteAppends(st.res, b);
        case SetHeaderMsg(n, v) => HeaderAndStatusGuards(st.res, n, v, 0);
        case SetStatusCodeMsg(c) => HeaderAndStatusGuards(st.res, "", "", c);
        case LogMsg(_, _) =>
        case Unrecognised(_) =>
      }
      EndedExactlyWhenResolved(st1, ms[1..]);
    }
  }

  /** `writeHead(201)` then `send("ok")` in the worker: status 201, body "ok", the run
      resolved whatever the exit code, and every uploaded file unlinked. */
  lemma CreatedOk(exit: Option<int>, files: seq<UploadedFile>)
    ensures var (r, settled, unlinked) := RunWorker(WriteHeadMessages(201, None) + SendMessages(201, Str("ok")), exit, files);
      && r.statusCode == 201 && r.body == [TextChunk("ok")] && r.ended
      && settled == Resolved && unlinked == TempPaths(files)
  {
    WriteHeadThenSendMessages(201, Str("ok"));
    var st0 := RelayState(Fresh(), Pending);
    var st1 := Step(st0, SetStatusCodeMsg(201));
    assert st1 == RelayState(Fresh().(statusCode := 201), Pending);
    var st2 := Step(st1, SetStatusCodeMsg(201));
    assert st2 == st1;
    var st3 := Step(st2, ResponseMsg(Str("ok")));
    assert st3 == RelayState(Response(201, map[], [TextChunk("ok")], true, true), Resolved);
    ReplayOfThree(st0, SetStatusCodeMsg(201), SetStatusCodeMsg(201), ResponseMsg(Str("ok")));
  }

  /** Three messages, one after the other. */
  lemma ReplayOfThree(st: RelayState, m1: PostMessage, m2: PostMessage, m3: PostMessage)
    ensures Replay(st, [m1, m2, m3]) == Step(Step(Step(st, m1), m2), m3)
  {
    var s1 := Step(st, m1);
    var s2 := Step(s1, m2);
    assert [m1, m2, m3][1..] == [m2, m3];
    assert Replay(st, [m1, m2, m3]) == Replay(s1, [m2, m3]);
    assert [m2, m3][1..] == [m3];
    assert Replay(s1, [m2, m3]) == Replay(s2, [m3]);
    assert [m3][1..] == [];
    assert Replay(s2, [m3]) == Replay(Step(s2, m3), []);
  }

  /** A `write` before `writeHead(201)` and `send`: the write flushed the headers, so both
      status messages are dropped and the response goes out as 200. */
  lemma WriteBeforeStatusKeeps200(a: string, b: string, exit: Option<int>, files: seq<UploadedFile>)
    requires b != ""
    ensures var ms := [WriteMsg(Str(a))] + WriteHeadMessages(201, None) + SendMessages(201, Str(b));
      var (r, settled, _) := RunWorker(ms, exit, files);
      && r.statusCode == 200 && r.body == [TextChunk(a), TextChunk(b)] && r.ended
      && settled == Resolved
  {
    var ms := [WriteMsg(Str(a))] + WriteHeadMessages(201, None) + SendMessages(201, Str(b));
    assert ms == [WriteMsg(Str(a))] + [SetStatusCodeMsg(201), SetStatusCodeMsg(201), ResponseMsg(Str(b))];
    var st0 := RelayState(Fresh(), Pending);
    var st1 := Step(st0, WriteMsg(Str(a)));
    assert st1 == RelayState(Response(200, map[], [TextChunk(a)], true, false), Pending);
    assert Replay(st0, ms) == Replay(st1, [SetStatusCodeMsg(201), SetStatusCodeMsg(201), ResponseMsg(Str(b))]) by {
      assert ms[0] == WriteMsg(Str(a));
      assert ms[1..] == [SetStatusCodeMsg(201), SetStatusCodeMsg(201), ResponseMsg(Str(b))];
    }
    ReplayOfThree(st1, SetStatusCodeMsg(201), SetStatusCodeMsg(201), ResponseMsg(Str(b)));
    var st4 := Step(Step(Step(st1, SetStatusCodeMsg(201)), SetStatusCodeMsg(201)), ResponseMsg(Str(b)));
    assert st4 == RelayState(Response(200, map[], [TextChunk(a), TextChunk(b)], true, true), Resolved);
  }

  /** A worker that exits without a `response`: code 0 rejects with `NoResponse` and any
      other code with `Unspecified`; on an untouched response `send500` answers a bare 500,
      and no file is unlinked. */
  lemma SilentExitIs500(code: int, files: seq<UploadedFile>)
    ensures var (r, settled, unlinked) := RunWorker([], Some(code), files);
      && settled == Rejected(if code == 0 then NoResponse else Unspecified)
      && r == D.SendBare(Fresh(), 500, "Internal Server Error")
      && r.statusCode == 500 && r.body == [TextChunk("Internal Server Error")] && r.ended
      && unlinked == []
  {
  }

  /** Without a `response` message a pending run stays pending. */
  lemma {:induction false} NoResponseStaysPending(st: RelayState, ms: seq<PostMessage>)
    requires st.settled.Pending?
    requires forall i :: 0 <= i < |ms| ==> !ms[i].ResponseMsg?
    ensures Replay(st, ms).settled.Pending?
    decreases |ms|
  {
    if ms != [] {
      NoResponseStaysPending(Step(st, ms[0]), ms[1..]);
    }
  }

  /** Without a `write` or a `response` message the headers stay unsent. */
  lemma {:induction false} NothingFlushedWithoutWrite(st: RelayState, ms: seq<PostMessage>)
    requires !st.res.headersSent && !st.res.ended
    requires forall i :: 0 <= i < |ms| ==> !ms[i].ResponseMsg? && !ms[i].WriteMsg?
    ensures !Replay(st, ms).res.headersSent && !Replay(st, ms).res.ended
    decreases |ms|
  {
    if ms != [] {
      NothingFlushedWithoutWrite(Step(st, ms[0]), ms[1..]);
    }
  }

  /** A worker that exits without ever posting a `response`: the run is rejected with
      `ExitError(code)` and nothing is unlinked. `send500` then answers a bare 500 on top of
      the headers set so far when nothing was flushed, which holds whenever the worker never
      wrote; after a flush it changes nothing. */
  lemma ExitWithoutResponseIs500(ms: seq<PostMessage>, code: int, files: seq<UploadedFile>)
    requires forall i :: 0 <= i < |ms| ==> !ms[i].ResponseMsg?
    ensures var st := Replay(RelayState(Fresh(), Pending), ms).res;
      var (r, settled, unlinked) := RunWorker(ms, Some(code), files);
      && settled == Rejected(ExitError(code))
      && unlinked == []
      && (!st.headersSent ==>
            && r.statusCode == 500 && r.headersSent && r.ended && r.headers == st.headers
            && r.body == st.body + [TextChunk("Internal Server Error")])
      && (st.headersSent ==> r == st)
      && ((forall i :: 0 <= i < |ms| ==> !ms[i].WriteMsg?) ==> r.statusCode == 500 && r.ended)
  {
    var st0 := RelayState(Fresh(), Pending);
    var st := Replay(st0, ms);
    NoResponseStaysPending(st0, ms);
    ReplayKeepsConsistent(st0, ms);
    var st' := Exit(st, code);
    assert st'.res == st.res && st'.settled == Rejected(ExitError(code));
    assert Conclusion(st', files) == (D.SendBare(st.res, 500, "Internal Server Error"), []);
    if forall i :: 0 <= i < |ms| ==> !ms[i].WriteMsg? {
      NothingFlushedWithoutWrite(st0, ms);
    }
  }

  /** Every run keeps the response consistent: an ended response has sent its headers. */
  lemma {:induction false} ReplayKeepsConsistent(st: RelayState, ms: seq<PostMessage>)
    requires st.res.Consistent()
    ensures Replay(st, ms).res.Consistent()
    decreases |ms|
  {
    if ms != [] {
      ApplyEvolves(st.res, ms[0]);
      ReplayKeepsConsistent(Step(st, ms[0]), ms[1..]);
    }
  }

  /** A worker that wrote and then exits without a `response`: `send500` finds the headers
      sent, so the response keeps its status and is never ended. */
  lemma ExitAfterWriteLeavesResponseOpen(a: string, code: int, files: seq<UploadedFile>)
    ensures var (r, settled, _) := RunWorker([WriteMsg(Str(a))], Some(code), files);
      && settled.Rejected? && r.statusCode == 200 && r.body == [TextChunk(a)] && !r.ended
  {
    var st0 := RelayState(Fresh(), Pending);
    var st1 := Step(st0, WriteMsg(Str(a)));
    assert st1 == RelayState(Response(200, map[], [TextChunk(a)], true, false), Pending);
    assert [WriteMsg(Str(a))][1..] == [];
    assert Replay(st0, [WriteMsg(Str(a))]) == st1;
  }
}
