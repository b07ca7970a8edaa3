/** The byte-range arithmetic of `sendFile` (index.ts:96-146, index.js:107-159): from the
    `Range` request header and the file size to a 200 with the whole file, a 206 with a byte
    window, or a 416. The header text is taken apart as the source does it: the first
    "bytes=" is removed, the rest is split on '-', and the first two parts go through
    `parseInt`. Suffix ranges ("the last N bytes") are not supported by the source:
    "bytes=-N" asks for bytes 0 to N. Nothing checks that the start is not after the end. */
module RangeResolver {
  import opened Opt
  import opened Text
  import opened JsParseInt
  import opened NodeHttp

  /** `if (range)`: an absent header and an empty one both mean "no range". */
  predicate HasRange(range: Option<string>) {
    range.Some? && range.value != ""
  }

  /** `[reqStart, reqEnd]` before parseInt: the first two parts of the header without its first
      "bytes=", split on '-'; the second is undefined when the header has no '-'. */
  function RangeParts(range: string): (string, Option<string>) {
    var parts := Split(ReplaceFirst(range, "bytes=", ""), '-');
    (parts[0], if |parts| >= 2 then Some(parts[1]) else None)
  }

  /** `parseInt(part)`; `parseInt(undefined)` is NaN. */
  function ParsePart(part: Option<string>): Num {
    match part
    case None => NaN
    case Some(p) => ParseInt(p)
  }

  /** The `{ start, end }` handed to `createReadStream`; both ends are inclusive. */
  datatype Window = Window(start: nat, end: nat)

  /** `start` and `end` as lines 101-115 leave them: NaN defaults (0 and size-1), then both
      raised to at least 0. */
  function Bounds(range: Option<string>, size: nat): (w: Window) {
    var (start, end) :=
      if HasRange(range) then
        var (first, second) := RangeParts(range.value);
        var s := ParsePart(Some(first));
        var e := ParsePart(second);
        (if s.NaN? then 0 else s.value, if e.NaN? then size - 1 else e.value)
      else (0, size - 1);
    Window(if start < 0 then 0 else start, if end < 0 then 0 else end)
  }

  datatype RangeReply =
    | Whole(contentType: string, fileSize: nat, window: Window)
    | Partial(contentType: string, contentRange: string, contentLength: int, window: Window)
    | Unsatisfiable(contentRange: string)
  {
    function Status(): int {
      match this
      case Whole(_, _, _) => 200
      case Partial(_, _, _, _) => 206
      case Unsatisfiable(_) => 416
    }

    /** The headers given to `writeHead`, in the source's order; numbers as `String` writes them. */
    function Headers(): seq<Header> {
      match this
      case Whole(ct, len, _) =>
        [Header("Content-Type", ct), Header("Content-Length", NatToString(len))]
      case Partial(ct, cr, len, _) =>
        [Header("Content-Range", cr), Header("Accept-Ranges", "bytes"),
         Header("Content-Length", IntToString(len)), Header("Content-Type", ct)]
      case Unsatisfiable(cr) =>
        [Header("Content-Range", cr)]
    }
  }

  /** `mime.lookup` gives false for an unknown extension, which becomes the empty type. */
  function MimeType(lookup: Option<string>): string {
    lookup.GetOr("")
  }

  /** The reply `sendFile` chooses once the window is known: 200 without a `Range` header, else
      416 when either end is at or past the size, else 206. */
  function Reply(hasRange: bool, w: Window, size: nat, contentType: string): (reply: RangeReply) {
    if hasRange then
      if w.start >= size || w.end >= size then
        Unsatisfiable("bytes */" + NatToString(size))
      else
        Partial(contentType,
                "bytes " + NatToString(w.start) + "-" + NatToString(w.end) + "/" + NatToString(size),
                w.end - w.start + 1, w)
    else
      Whole(contentType, size, w)
  }

  function ResolveRange(range: Option<string>, size: nat, contentType: string): (reply: RangeReply) {
    Reply(HasRange(range), Bounds(range, size), size, contentType)
  }

  /** What `sendFile` does to the response for a reply: `writeHead` with the reply's status and
      headers, and for a 416 also `write('Range Not Satisfiable')` and `end()`. None when
      `writeHead` threw (the headers were already sent). */
  function Deliver(r: Response, reply: RangeReply): (o: Option<Response>) {
    var r1 :- r.WriteHead(reply.Status(), reply.Headers());
    if reply.Unsatisfiable? then
      var r2 :- r1.Write(Str("Range Not Satisfiable"));
      r2.End(Undefined)
    else Some(r1)
  }

  /** Lines 100-115 of `sendFile`: `start` and `end` from the `Range` header, step by step. */
  method RequestedWindow(range: Option<string>, size: nat) returns (start: nat, end: nat)
    ensures Window(start, end) == Bounds(range, size)
  {
    var s: int := 0;
    var e: int := size - 1;
    if HasRange(range) {
      var (first, second) := RangeParts(range.value);
      var reqStart := ParsePart(Some(first));
      var reqEnd := ParsePart(second);
      s := if reqStart.NaN? then 0 else reqStart.value;
      e := if reqEnd.NaN? then size - 1 else reqEnd.value;
    }
    if s < 0 { s := 0; }
    if e < 0 { e := 0; }
    start, end := s, e;
  }

  /** `sendFile(req, res, filePath)` once `fsStats` has given the file's size and `mime.lookup`
      its type. Returns the byte window streamed to the response, or None when nothing is
      streamed (a 416, or `writeHead` threw). */
  method SendFile(res: ServerResponse, range: Option<string>, size: nat, mimeLookup: Option<string>)
    returns (stream: Option<Window>)
    requires res.Valid()
    modifies res
    ensures res.Valid()
    ensures var reply := ResolveRange(range, size, MimeType(mimeLookup));
      && res.State() == After(old(res.State()), Deliver(old(res.State()), reply))
      && stream == if !reply.Unsatisfiable? && !old(res.headersSent) then Some(reply.window) else None
  {
    var start, end := RequestedWindow(range, size);
    stream := SendWindow(res, HasRange(range), Window(start, end), size, MimeType(mimeLookup));
  }

  /** Lines 117-146 of `sendFile`: the status, headers and, for a 416, the text for a window
      already computed. */
  method SendWindow(res: ServerResponse, hasRange: bool, w: Window, size: nat, mimeType: string)
    returns (stream: Option<Window>)
    requires res.Valid()
    modifies res
    ensures res.Valid()
    ensures var reply := Reply(hasRange, w, size, mimeType);
      && res.State() == After(old(res.State()), Deliver(old(res.State()), reply))
      && stream == if !reply.Unsatisfiable? && !old(res.headersSent) then Some(w) else None
  {
    ghost var reply := Reply(hasRange, w, size, mimeType);
    stream := None;
    ghost var r0 := res.State();
    DeliverOutcome(r0, reply);
    if hasRange {
      if w.start >= size || w.end >= size {
        var ok := res.WriteHead(416, [Header("Content-Range", "bytes */" + NatToString(size))]);
        if ok {
          ok := res.Write(Str("Range Not Satisfiable"));
          ok := res.End(Undefined);
        }
        return;
      }
      var ok := res.WriteHead(206, [
        Header("Content-Range", "bytes " + NatToString(w.start) + "-" + NatToString(w.end) + "/" + NatToString(size)),
        Header("Accept-Ranges", "bytes"),
        Header("Content-Length", IntToString(w.end - w.start + 1)),
        Header("Content-Type", mimeType)]);
      if ok { stream := Some(w); }
    } else {
      var ok := res.WriteHead(200, [Header("Content-Type", mimeType), Header("Content-Length", NatToString(size))]);
      if ok { stream := Some(w); }
    }
  }

  /** What the writes of `sendFile` amount to: `writeHead` alone, or for a 416 the status, the
      Content-Range header, the text "Range Not Satisfiable" and the end. */
  lemma DeliverOutcome(r: Response, reply: RangeReply)
    requires r.Consistent()
    ensures !reply.Unsatisfiable? ==> Deliver(r, reply) == r.WriteHead(reply.Status(), reply.Headers())
    ensures reply.Unsatisfiable? && r.headersSent ==> Deliver(r, reply).None?
    ensures reply.Unsatisfiable? && !r.headersSent ==>
              Deliver(r, reply) == Some(r.(statusCode := 416, headers := StoreHeaders(r.headers, reply.Headers()),
                                           body := r.body + [TextChunk("Range Not Satisfiable")],
                                           headersSent := true, ended := true))
  {
    if reply.Unsatisfiable? && !r.headersSent {
      var r1 := r.WriteHead(416, reply.Headers()).value;
      var r2 := r1.Write(Str("Range Not Satisfiable")).value;
      assert r2.End(Undefined).value.body == r2.body + [];
      assert r2.body + [] == r2.body;
    }
  }

  // ---- properties ----

  /** Without a `Range` header: 200, `Content-Length` is the file size and the window the whole
      file, with the end held at 0 for an empty file. */
  lemma NoRangeMeansWholeFile(range: Option<string>, size: nat, contentType: string)
    requires !HasRange(range)
    ensures ResolveRange(range, size, contentType)
      == Whole(contentType, size, Window(0, if size == 0 then 0 else size - 1))
    ensures ResolveRange(range, size, contentType).Status() == 200
  {
  }

  /** Every part comes from splitting on '-', so parseInt never yields a negative bound and
      the clamps to 0 only ever replace the defaults. */
  lemma PartsAreNeverNegative(range: string)
    ensures ParsePart(Some(RangeParts(range).0)).Int? ==> ParsePart(Some(RangeParts(range).0)).value >= 0
    ensures ParsePart(RangeParts(range).1).Int? ==> ParsePart(RangeParts(range).1).value >= 0
  {
    var parts := Split(ReplaceFirst(range, "bytes=", ""), '-');
    ParseIntWithoutMinus(parts[0]);
    if |parts| >= 2 {
      ParseIntWithoutMinus(parts[1]);
    }
  }

  /** With a `Range` header, a number in a part is taken as it is; a start that is not a number
      becomes 0 and an end that is not a number becomes size-1 (0 for an empty file). */
  lemma RangeDefaults(range: Option<string>, size: nat)
    requires HasRange(range)
    ensures var (first, second) := RangeParts(range.value);
      var w := Bounds(range, size);
      && w.start == (match ParseInt(first) case NaN => 0 case Int(v) => v)
      && w.end == (match ParsePart(second) case NaN => if size == 0 then 0 else size - 1 case Int(v) => v)
  {
    PartsAreNeverNegative(range.value);
  }

  /** "bytes=A-B" for numerals A and B asks for exactly bytes A to B. */
  lemma {:induction false} NumeralRange(a: nat, b: nat, size: nat)
    ensures Bounds(Some("bytes=" + NatToString(a) + "-" + NatToString(b)), size) == Window(a, b)
  {
    var x, y := NatToString(a), NatToString(b);
    var h := "bytes=" + x + "-" + y;
    assert h == "bytes=" + (x + "-" + y);
    ReplaceFirstAtStart("bytes=", x + "-" + y, "");
    assert "" + (x + "-" + y) == x + ['-'] + y;
    SplitAtFirst(x, '-', y);
    SplitNoSeparator(y, '-');
    assert RangeParts(h) == (x, Some(y));
    ParseIntRoundTrip(a);
    ParseIntRoundTrip(b);
  }

  /** "bytes=-N" is not a suffix range here: it asks for bytes 0 to N. */
  lemma {:induction false} DashNumeralMeansFromZero(n: nat, size: nat)
    ensures Bounds(Some("bytes=-" + NatToString(n)), size) == Window(0, n)
  {
    var y := NatToString(n);
    var h := "bytes=-" + y;
    assert h == "bytes=" + ("" + ['-'] + y);
    ReplaceFirstAtStart("bytes=", "" + ['-'] + y, "");
    assert "" + ("" + ['-'] + y) == "" + ['-'] + y;
    SplitAtFirst("", '-', y);
    SplitNoSeparator(y, '-');
    assert RangeParts(h) == ("", Some(y));
    ParseIntWithoutDigits("");
    ParseIntRoundTrip(n);
  }

  /** With a `Range` header the reply is 416, with `Content-Range: bytes *\/size`, exactly when
      the start or the end is at or past the size. */
  lemma UnsatisfiableExactly(range: Option<string>, size: nat, contentType: string)
    requires HasRange(range)
    ensures var reply := ResolveRange(range, size, contentType);
      var w := Bounds(range, size);
      && (reply.Unsatisfiable? <==> w.start >= size || w.end >= size)
      && (reply.Unsatisfiable? ==> reply.Status() == 416 && reply.contentRange == "bytes */" + NatToString(size))
      && (!reply.Unsatisfiable? ==> reply.Partial?)
  {
    ReplyWithRange(Bounds(range, size), size, contentType);
  }

  /** The reply to a `Range` header, for any window. */
  lemma ReplyWithRange(w: Window, size: nat, contentType: string)
    ensures var reply := Reply(true, w, size, contentType);
      && (reply.Unsatisfiable? <==> w.start >= size || w.end >= size)
      && (reply.Unsatisfiable? ==> reply.Status() == 416 && reply.contentRange == "bytes */" + NatToString(size))
      && (!reply.Unsatisfiable? ==>
            && reply.Partial? && reply.Status() == 206 && reply.window == w
            && reply.contentRange == "bytes " + NatToString(w.start) + "-" + NatToString(w.end) + "/" + NatToString(size)
            && reply.contentLength == w.end - w.start + 1)
  {
  }

  /** Any range on an empty file is unsatisfiable. */
  lemma EmptyFileRangeIsUnsatisfiable(range: Option<string>, contentType: string)
    requires HasRange(range)
    ensures ResolveRange(range, 0, contentType) == Unsatisfiable("bytes */0")
  {
    ReplyOnEmptyFile(Bounds(range, 0), contentType);
  }

  /** On an empty file every window is past the end. */
  lemma ReplyOnEmptyFile(w: Window, contentType: string)
    ensures Reply(true, w, 0, contentType) == Unsatisfiable("bytes */0")
  {
    assert NatToString(0) == "0";
  }

  /** A 206 lies within the file at both ends, names its window in `Content-Range` and counts
      end-start+1 bytes in `Content-Length`; nothing requires the start not to pass the end. */
  lemma PartialWithinFile(range: Option<string>, size: nat, contentType: string)
    requires ResolveRange(range, size, contentType).Partial?
    ensures var reply := ResolveRange(range, size, contentType);
      var w := reply.window;
      && HasRange(range) && reply.Status() == 206
      && w == Bounds(range, size)
      && 0 <= w.start < size && 0 <= w.end < size
      && reply.contentRange == "bytes " + NatToString(w.start) + "-" + NatToString(w.end) + "/" + NatToString(size)
      && reply.contentLength == w.end - w.start + 1
  {
    ReplyWithRange(Bounds(range, size), size, contentType);
  }

  /** A well-formed "bytes=A-B" header: 206 for bytes A to B when both are inside the file,
      416 otherwise. */
  lemma NumeralRangeReply(a: nat, b: nat, size: nat, contentType: string)
    ensures var reply := ResolveRange(Some("bytes=" + NatToString(a) + "-" + NatToString(b)), size, contentType);
      reply == if a >= size || b >= size then Unsatisfiable("bytes */" + NatToString(size))
               else Partial(contentType,
                            "bytes " + NatToString(a) + "-" + NatToString(b) + "/" + NatToString(size),
                            b - a + 1, Window(a, b))
  {
    NumeralRange(a, b, size);
  }

  /** "bytes=5-2" on a 10-byte file is accepted as a 206 whose `Content-Length` is -2. */
  lemma InvertedRangeAccepted(contentType: string)
    ensures ResolveRange(Some("bytes=5-2"), 10, contentType)
      == Partial(contentType, "bytes 5-2/10", -2, Window(5, 2))
  {
    var five, two := NatToString(5), NatToString(2);
    assert five == "5" && two == "2";
    NatToStringAppend(1, 0);
    assert NatToString(10) == "10";
    assert "bytes=" + five + "-" + two == "bytes=5-2";
    assert "bytes " + five + "-" + two + "/" + NatToString(10) == "bytes 5-2/10";
    NumeralRangeReply(5, 2, 10, contentType);
  }

  /** Bytes 100-199 of a 1000-byte file: 206, `Content-Range: bytes 100-199/1000`, 100 bytes. */
  lemma HundredBytesOfThousand(contentType: string)
    ensures ResolveRange(Some("bytes=100-199"), 1000, contentType)
      == Partial(contentType, "bytes 100-199/1000", 100, Window(100, 199))
  {
    Numerals();
    assert "bytes=" + NatToString(100) + "-" + NatToString(199) == "bytes=100-199";
    assert "bytes " + NatToString(100) + "-" + NatToString(199) + "/" + NatToString(1000) == "bytes 100-199/1000";
    NumeralRangeReply(100, 199, 1000, contentType);
  }

  /** The numerals of 100, 199 and 1000. */
  lemma Numerals()
    ensures NatToString(100) == "100" && NatToString(199) == "199" && NatToString(1000) == "1000"
  {
    assert NatToString(1) == "1";
    NatToStringAppend(1, 0);
    NatToStringAppend(10, 0);
    NatToStringAppend(100, 0);
    NatToStringAppend(1, 9);
    NatToStringAppend(19, 9);
  }

  /** On an untouched response `sendFile` sends the reply's status and headers; only a 416
      finishes the response, with the text "Range Not Satisfiable". */
  lemma DeliverOnFreshResponse(reply: RangeReply)
    ensures Deliver(Fresh(), reply).Some?
    ensures var r := Deliver(Fresh(), reply).value;
      && r.statusCode == reply.Status() && r.headersSent
      && r.headers == StoreHeaders(map[], reply.Headers())
      && (r.ended <==> reply.Unsatisfiable?)
      && r.body == if reply.Unsatisfiable? then [TextChunk("Range Not Satisfiable")] else []
  {
  }
}
