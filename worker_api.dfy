/** The worker side of the message protocol (plugins/workers/index.ts:28-101): the messages a
    worker posts to the main thread, the `Res` object a worker script answers through, and
    `log`. `parentPort.postMessage` appends to an outbox. */
module WorkerApi {
  import opened Opt
  import opened NodeHttp

  /** What a worker posts. The five tagged variants of `PostMessage`, plus any message whose
      `type` is none of them (a worker script may post to `parentPort` directly). */
  datatype PostMessage =
    | ResponseMsg(body: Value)
    | WriteMsg(body: Value)
    | LogMsg(level: string, message: string)
    | SetHeaderMsg(name: string, value: string)
    | SetStatusCodeMsg(statusCode: int)
    | Unrecognised(tag: string)

  /** `parentPort`: everything posted so far, in order. */
  class ParentPort {
    var outbox: seq<PostMessage>

    constructor ()
      ensures outbox == []
    {
      outbox := [];
    }

    /** `parentPort.postMessage(m)`. */
    method PostMessage(m: PostMessage)
      modifies this
      ensures outbox == old(outbox) + [m]
    {
      outbox := outbox + [m];
    }
  }

  /** The headers object handed to `writeHead`, as the `(name, value)` pairs a `for ... in`
      walks in order; `None` when it is omitted. */
  type HeaderList = Option<seq<(string, string)>>

  /** What `addHeaders(headers)` posts: one `set-header` per entry, in order; nothing for an
      omitted object. */
  function HeaderMessages(headers: HeaderList): (ms: seq<PostMessage>)
    ensures headers.None? ==> ms == []
    ensures headers.Some? ==> |ms| == |headers.value|
    ensures headers.Some? ==> forall i :: 0 <= i < |ms| ==>
              ms[i] == SetHeaderMsg(headers.value[i].0, headers.value[i].1)
  {
    match headers
    case None => []
    case Some(h) => seq(|h|, i requires 0 <= i < |h| => SetHeaderMsg(h[i].0, h[i].1))
  }

  /** What `writeHead(code, headers)` posts: the headers' messages, then exactly one
      `set-status-code`, the last message. */
  function WriteHeadMessages(code: int, headers: HeaderList): (ms: seq<PostMessage>)
    ensures |ms| >= 1 && ms[|ms| - 1] == SetStatusCodeMsg(code)
    ensures ms[..|ms| - 1] == HeaderMessages(headers)
    ensures forall i :: 0 <= i < |ms| - 1 ==> ms[i].SetHeaderMsg?
    ensures headers.None? ==> ms == [SetStatusCodeMsg(code)]
  {
    HeaderMessages(headers) + [SetStatusCodeMsg(code)]
  }

  /** What `send(body)` posts when the status is `code`: the status, then the `response`. */
  function SendMessages(code: int, body: Value): (ms: seq<PostMessage>) {
    [SetStatusCodeMsg(code), ResponseMsg(body)]
  }

  /** The argument of `log`: a string, or an `Error` (of which only its stack is sent). */
  datatype LogArg = Message(text: string) | Error(stack: string)

  /** The message text `log` posts: an `Error` is replaced by its stack. */
  function LogText(m: LogArg): (t: string) {
    match m
    case Message(t) => t
    case Error(stack) => stack
  }

  /** `log(level, message)`: exactly one `log` message. */
  method Log(port: ParentPort, level: string, message: LogArg)
    modifies port
    ensures port.outbox == old(port.outbox) + [LogMsg(level, LogText(message))]
  {
    port.PostMessage(LogMsg(level, LogText(message)));
  }

  /** `class Res` of a worker: the status it will send, and the port it posts to. */
  class Res {
    var statusCode: int
    const port: ParentPort

    constructor (port: ParentPort)
      ensures statusCode == 200 && this.port == port
    {
      statusCode := 200;
      this.port := port;
    }

    /** `addHeaders(headers)`: the `for ... in` loop over the headers object. */
    method AddHeaders(headers: HeaderList)
      modifies port
      ensures port.outbox == old(port.outbox) + HeaderMessages(headers)
    {
      if headers.Some? {
        var h := headers.value;
        var i := 0;
        while i < |h|
          invariant 0 <= i <= |h|
          invariant port.outbox == old(port.outbox) + HeaderMessages(Some(h[..i]))
        {
          port.PostMessage(SetHeaderMsg(h[i].0, h[i].1));
          assert HeaderMessages(Some(h[..i + 1])) == HeaderMessages(Some(h[..i])) + [SetHeaderMsg(h[i].0, h[i].1)];
          i := i + 1;
        }
        assert h[..i] == h;
      }
    }

    /** `writeHead(code, headers)`: the headers, then the status; the status is kept for
        `send`. */
    method WriteHead(code: int, headers: HeaderList)
      modifies this, port
      ensures statusCode == code
      ensures port.outbox == old(port.outbox) + WriteHeadMessages(code, headers)
    {
      AddHeaders(headers);
      statusCode := code;
      port.PostMessage(SetStatusCodeMsg(code));
    }

    /** `write(body)`: one `write` message with the body as given; the status is untouched. */
    method Write(body: Value)
      modifies port
      ensures port.outbox == old(port.outbox) + [WriteMsg(body)]
    {
      port.PostMessage(WriteMsg(body));
    }

    /** `send(body)`: the current status, then the `response`. */
    method Send(body: Value)
      modifies port
      ensures port.outbox == old(port.outbox) + SendMessages(statusCode, body)
    {
      port.PostMessage(SetStatusCodeMsg(statusCode));
      port.PostMessage(ResponseMsg(body));
    }
  }

  /** The messages of a script that calls `writeHead(code)` and then `send(body)` on a new
      `Res`: the status twice, then the response. */
  lemma WriteHeadThenSendMessages(code: int, body: Value)
    ensures WriteHeadMessages(code, None) + SendMessages(code, body)
      == [SetStatusCodeMsg(code), SetStatusCodeMsg(code), ResponseMsg(body)]
  {
  }
}
