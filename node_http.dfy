/** The facts about Node's `http.ServerResponse` that the server relies on, as a value
    (`Response`) and as the mutable object the dispatcher owns (`ServerResponse`).
    - `setHeader` and `writeHead` throw once the headers are sent;
    - `writeHead`, `write` and `end` send the headers (`headersSent` becomes true);
    - `end` finishes the response (`writableEnded`), after which nothing changes it;
    - `write` accepts a string or a byte array and throws on anything else; `end` writes its
      argument when it is truthy and throws on an argument of another type;
    - header names are case-insensitive (kept under their ASCII lower-case form). */
module NodeHttp {
  import opened Opt

  type byte = b: int | 0 <= b < 256

  /** A JavaScript value handed to `write`/`end` or posted by a worker as a body:
      a string, a byte array (`Uint8Array`/`Buffer`), another object (carrying the text
      `JSON.stringify` makes of it) or `undefined`. */
  datatype Value = Str(s: string) | Bytes(b: seq<byte>) | Obj(json: string) | Undefined

  /** What has gone out on the wire as body. */
  datatype Chunk = TextChunk(text: string) | ByteChunk(bytes: seq<byte>)

  datatype Header = Header(name: string, value: string)

  datatype Response = Response(
    statusCode: int,
    headers: map<string, Header>,
    body: seq<Chunk>,
    headersSent: bool,
    ended: bool)
  {
    /** An ended response has sent its headers. */
    predicate Consistent() {
      ended ==> headersSent
    }

    // Each operation gives the new response, or None when Node throws (or, for a write or
    // end after the end, reports an error); in that case the response is unchanged.

    function SetHeader(name: string, value: string): Option<Response> {
      if headersSent then None
      else Some(this.(headers := headers[LowerAscii(name) := Header(name, value)]))
    }

    function WriteHead(code: int, list: seq<Header>): Option<Response> {
      if headersSent then None
      else Some(this.(statusCode := code, headers := StoreHeaders(headers, list), headersSent := true))
    }

    function Write(v: Value): Option<Response> {
      if ended then None
      else
        var c :- WriteData(v);
        Some(this.(body := body + [c], headersSent := true))
    }

    function End(v: Value): Option<Response> {
      if ended then None
      else
        var cs :- EndData(v);
        Some(this.(body := body + cs, headersSent := true, ended := true))
    }
  }

  /** A response nobody has touched yet. */
  function Fresh(): (r: Response)
    ensures r.Consistent()
  {
    Response(200, map[], [], false, false)
  }

  function LowerAscii(s: string): (t: string)
    ensures |t| == |s|
  {
    seq(|s|, i requires 0 <= i < |s| => if 'A' <= s[i] <= 'Z' then (s[i] as int + 32) as char else s[i])
  }

  /** The header table after storing `list` in order; a later name overrides an earlier one. */
  function StoreHeaders(table: map<string, Header>, list: seq<Header>): (t: map<string, Header>)
    ensures forall i :: 0 <= i < |list| ==> LowerAscii(list[i].name) in t
    ensures t.Keys == table.Keys + set i | 0 <= i < |list| :: LowerAscii(list[i].name)
    decreases |list|
  {
    if list == [] then table
    else StoreHeaders(table[LowerAscii(list[0].name) := list[0]], list[1..])
  }

  /** Which `Header` the table holds under each name: the last entry of `list` with that
      lower-cased name, or the old entry when `list` has none. */
  lemma StoreHeadersContents(table: map<string, Header>, list: seq<Header>)
    ensures forall i :: 0 <= i < |list| && (forall j :: i < j < |list| ==> LowerAscii(list[j].name) != LowerAscii(list[i].name))
              ==> StoreHeaders(table, list)[LowerAscii(list[i].name)] == list[i]
    ensures forall k :: k in table && (forall i :: 0 <= i < |list| ==> LowerAscii(list[i].name) != k)
              ==> StoreHeaders(table, list)[k] == table[k]
  {
    forall i | 0 <= i < |list| && (forall j :: i < j < |list| ==> LowerAscii(list[j].name) != LowerAscii(list[i].name)) {
      StoredLast(table, list, i);
    }
    forall k | k in table && (forall i :: 0 <= i < |list| ==> LowerAscii(list[i].name) != k) {
      StoredKept(table, list, k);
    }
  }

  /** An entry that no later entry of the same name overrides is what the table holds. */
  lemma {:induction false} StoredLast(table: map<string, Header>, list: seq<Header>, i: nat)
    requires i < |list|
    requires forall j :: i < j < |list| ==> LowerAscii(list[j].name) != LowerAscii(list[i].name)
    ensures StoreHeaders(table, list)[LowerAscii(list[i].name)] == list[i]
    decreases |list|
  {
    var key := LowerAscii(list[0].name);
    var table', rest := table[key := list[0]], list[1..];
    assert StoreHeaders(table, list) == StoreHeaders(table', rest);
    if i == 0 {
      forall j | 0 <= j < |rest| ensures LowerAscii(rest[j].name) != key {
        assert rest[j] == list[j + 1];
      }
      StoredKept(table', rest, key);
    } else {
      assert rest[i - 1] == list[i];
      forall j | i - 1 < j < |rest| ensures LowerAscii(rest[j].name) != LowerAscii(rest[i - 1].name) {
        assert rest[j] == list[j + 1];
      }
      StoredLast(table', rest, i - 1);
    }
  }

  /** A name the list never mentions keeps its old entry. */
  lemma {:induction false} StoredKept(table: map<string, Header>, list: seq<Header>, k: string)
    requires k in table
    requires forall i :: 0 <= i < |list| ==> LowerAscii(list[i].name) != k
    ensures StoreHeaders(table, list)[k] == table[k]
    decreases |list|
  {
    if list != [] {
      var table', rest := table[LowerAscii(list[0].name) := list[0]], list[1..];
      assert LowerAscii(list[0].name) != k;
      forall i | 0 <= i < |rest| ensures LowerAscii(rest[i].name) != k {
        assert rest[i] == list[i + 1];
      }
      StoredKept(table', rest, k);
    }
  }

  /** The chunk `write` sends for `v`, if `write` accepts `v` at all. */
  function WriteData(v: Value): Option<Chunk> {
    match v
    case Str(s) => Some(TextChunk(s))
    case Bytes(b) => Some(ByteChunk(b))
    case _ => None
  }

  /** What `end(v)` adds to the body before finishing: nothing for a falsy argument,
      the chunk for a string or byte array; `None` when `end` throws. */
  function EndData(v: Value): Option<seq<Chunk>> {
    match v
    case Undefined => Some([])
    case Str(s) => if s == "" then Some([]) else Some([TextChunk(s)])
    case Bytes(b) => Some([ByteChunk(b)])
    case Obj(_) => None
  }

  /** The state after a call: the new one, or the old one when the call threw. */
  function After(r: Response, o: Option<Response>): Response {
    o.GetOr(r)
  }

  /** What every operation guarantees: the body only grows, and once sent or ended a
      response stays so; an ended response, and the status and headers of a sent one,
      never change. */
  ghost predicate Evolves(r: Response, r': Response) {
    && r'.Consistent()
    && r.body <= r'.body
    && (r.headersSent ==> r'.headersSent && r'.statusCode == r.statusCode && r'.headers == r.headers)
    && (r.ended ==> r' == r)
  }

  lemma OperationsEvolve(r: Response, name: string, value: string, code: int, list: seq<Header>, v: Value)
    requires r.Consistent()
    ensures Evolves(r, After(r, r.SetHeader(name, value)))
    ensures Evolves(r, After(r, r.WriteHead(code, list)))
    ensures Evolves(r, After(r, r.Write(v)))
    ensures Evolves(r, After(r, r.End(v)))
  {
  }

  /** `write` and `end`, whenever they succeed, leave the headers sent; `end` leaves the
      response ended. */
  lemma WriteAndEndFlush(r: Response, v: Value)
    ensures r.Write(v).Some? <==> !r.ended && (v.Str? || v.Bytes?)
    ensures r.Write(v).Some? ==> r.Write(v).value.headersSent && !r.Write(v).value.ended
    ensures r.End(v).Some? <==> !r.ended && !v.Obj?
    ensures r.End(v).Some? ==> r.End(v).value.headersSent && r.End(v).value.ended
  {
  }

  /** The `http.ServerResponse` object of one request. */
  class ServerResponse {
    var statusCode: int
    var headers: map<string, Header>
    var body: seq<Chunk>
    var headersSent: bool
    var ended: bool

    function State(): Response
      reads this
    {
      Response(statusCode, headers, body, headersSent, ended)
    }

    /** Node never ends a response without sending its headers. */
    ghost predicate Valid()
      reads this
    {
      State().Consistent()
    }

    constructor ()
      ensures Valid() && State() == Fresh()
    {
      statusCode, headers, body, headersSent, ended := 200, map[], [], false, false;
    }

    /** `res.setHeader(name, value)`; `ok` is false when it threw. */
    method SetHeader(name: string, value: string) returns (ok: bool)
      requires Valid()
      modifies this
      ensures Valid()
      ensures ok == old(State()).SetHeader(name, value).Some?
      ensures State() == After(old(State()), old(State()).SetHeader(name, value))
    {
      ok := !headersSent;
      if ok {
        headers := headers[LowerAscii(name) := Header(name, value)];
      }
    }

    /** `res.writeHead(code, headers)`; `ok` is false when it threw. */
    method WriteHead(code: int, list: seq<Header>) returns (ok: bool)
      requires Valid()
      modifies this
      ensures Valid()
      ensures ok == old(State()).WriteHead(code, list).Some?
      ensures State() == After(old(State()), old(State()).WriteHead(code, list))
    {
      ok := !headersSent;
      if ok {
        statusCode, headers, headersSent := code, StoreHeaders(headers, list), true;
      }
    }

    /** `res.write(v)`; `ok` is false when it threw or was refused. */
    method Write(v: Value) returns (ok: bool)
      requires Valid()
      modifies this
      ensures Valid()
      ensures ok == old(State()).Write(v).Some?
      ensures State() == After(old(State()), old(State()).Write(v))
    {
      var data := WriteData(v);
      ok := !ended && data.Some?;
      if ok {
        body, headersSent := body + [data.value], true;
      }
    }

    /** `res.end(v)`; `ok` is false when it threw or was refused. */
    method End(v: Value) returns (ok: bool)
      requires Valid()
      modifies this
      ensures Valid()
      ensures ok == old(State()).End(v).Some?
      ensures State() == After(old(State()), old(State()).End(v))
    {
      var data := EndData(v);
      ok := !ended && data.Some?;
      if ok {
        body, headersSent, ended := body + data.value, true, true;
      }
    }
  }
}
