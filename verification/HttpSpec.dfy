/** The requests a byte stream means to this server: one request at a time, from the whole
    stream at once. */
module HttpSpec {
  import opened Options
  import opened Sha256
  import opened Wire

  const BUF_SIZE := 4096
  const BODY_LIMIT := 3072

  datatype Request = Request(verb: Bytes, path: Bytes, query: Bytes, body: Bytes, close: bool)

  // ---------------------------------------------------------------------------------
  // Header fields
  // ---------------------------------------------------------------------------------

  function ToLower(b: Byte): Byte {
    if 65 <= b <= 90 then b + 32 else b
  }

  predicate EqualFold(b: Bytes, lower: Bytes) {
    |b| == |lower| && forall i | 0 <= i < |b| :: ToLower(b[i]) == lower[i]
  }

  predicate IsOws(b: Byte) {
    b == SP || b == HTAB
  }

  function TrimLeft(b: Bytes): Bytes {
    if b != [] && IsOws(b[0]) then TrimLeft(b[1..]) else b
  }

  function TrimRight(b: Bytes): Bytes {
    if b != [] && IsOws(b[|b| - 1]) then TrimRight(b[..|b| - 1]) else b
  }

  /** Optional whitespace around a field value removed. */
  function TrimOws(b: Bytes): Bytes {
    TrimRight(TrimLeft(b))
  }

  lemma {:induction false} TrimLeftMeans(v: Bytes) returns (lo: nat)
    ensures lo <= |v| && TrimLeft(v) == v[lo..] && (forall k | 0 <= k < lo :: v[k] == 32 || v[k] == 9)
    ensures lo < |v| ==> v[lo] != 32 && v[lo] != 9
  {
    lo := 0;
    if v != [] && IsOws(v[0]) {
      var n := TrimLeftMeans(v[1..]);
      lo := n + 1;
      assert v[1..][n..] == v[n + 1..];
    }
  }

  lemma {:induction false} TrimRightMeans(v: Bytes) returns (hi: nat)
    ensures hi <= |v| && TrimRight(v) == v[..hi] && (forall k | hi <= k < |v| :: v[k] == 32 || v[k] == 9)
    ensures hi > 0 ==> v[hi - 1] != 32 && v[hi - 1] != 9
  {
    hi := |v|;
    if v != [] && IsOws(v[|v| - 1]) {
      hi := TrimRightMeans(v[..|v| - 1]);
      assert v[..|v| - 1][..hi] == v[..hi];
    } else {
      assert v[..hi] == v;
    }
  }

  /** Trimming keeps a middle part that neither starts nor ends with a space or a tab, and drops
      nothing but spaces and tabs. */
  lemma TrimMeans(v: Bytes) returns (lo: nat, hi: nat)
    ensures lo <= hi <= |v| && TrimOws(v) == v[lo..hi]
    ensures forall k | 0 <= k < |v| && (k < lo || hi <= k) :: v[k] == 32 || v[k] == 9
    ensures lo < hi ==> v[lo] != 32 && v[lo] != 9 && v[hi - 1] != 32 && v[hi - 1] != 9
  {
    hide TrimLeft, TrimRight;
    lo := TrimLeftMeans(v);
    var n := TrimRightMeans(v[lo..]);
    hi := lo + n;
    assert v[lo..][..n] == v[lo..hi];
  }

  datatype Framing = Framing(contentLen: nat, keepAlive: bool)

  predicate AllDigits(v: Bytes) {
    forall d | d in v :: IsDigit(d)
  }

  /** What one header line does to the framing; None closes the connection. */
  function FieldStep(line: Bytes, f: Framing): Option<Framing> {
    match IndexByte(line, COLON)
    case None => Some(f)
    case Some(ci) =>
      var (name, val) := (line[..ci], TrimOws(line[ci + 1..]));
      if EqualFold(name, Ascii("content-length")) then
        if 1 <= |val| <= 9 && AllDigits(val) then Some(f.(contentLen := DecValue(val))) else None
      else if EqualFold(name, Ascii("connection")) then
        if EqualFold(val, Ascii("close")) then Some(f.(keepAlive := false))
        else if EqualFold(val, Ascii("keep-alive")) then Some(f.(keepAlive := true))
        else Some(f)
      else if EqualFold(name, Ascii("transfer-encoding")) then None
      else Some(f)
  }

  function Fields(ls: seq<Bytes>, f: Framing): Option<Framing> {
    if ls == [] then Some(f)
    else match FieldStep(ls[0], f) case None => None case Some(f') => Fields(ls[1..], f')
  }

  // ---------------------------------------------------------------------------------
  // What the header lines mean together
  // ---------------------------------------------------------------------------------

  /** The line is a field of that name, in any case. */
  predicate Named(l: Bytes, lower: Bytes) {
    match IndexByte(l, COLON) case None => false case Some(ci) => EqualFold(l[..ci], lower)
  }

  /** What follows the first colon, without the white space around it. */
  function ValueOf(l: Bytes): Bytes {
    match IndexByte(l, COLON) case None => [] case Some(ci) => TrimOws(l[ci + 1..])
  }

  /** A length this server reads: one to nine digits. */
  predicate IsLength(v: Bytes) {
    1 <= |v| <= 9 && AllDigits(v)
  }

  /** A line that closes the connection: any Transfer-Encoding, or a length it does not read. */
  predicate Rejected(l: Bytes) {
    Named(l, Ascii("transfer-encoding")) || (Named(l, Ascii("content-length")) && !IsLength(ValueOf(l)))
  }

  /** The last length declared. */
  function DeclaredLength(ls: seq<Bytes>): nat {
    if ls == [] then 0
    else
      var l := ls[|ls| - 1];
      if Named(l, Ascii("content-length")) && IsLength(ValueOf(l)) then DecValue(ValueOf(l)) else DeclaredLength(ls[..|ls| - 1])
  }

  /** The last wish about the connection, and without one what the version says. */
  function StaysOpen(ls: seq<Bytes>, http11: bool): bool {
    if ls == [] then http11
    else
      var l := ls[|ls| - 1];
      if Named(l, Ascii("connection")) && EqualFold(ValueOf(l), Ascii("close")) then false
      else if Named(l, Ascii("connection")) && EqualFold(ValueOf(l), Ascii("keep-alive")) then true
      else StaysOpen(ls[..|ls| - 1], http11)
  }

  lemma NamesDiffer()
    ensures |Ascii("content-length")| == 14 && |Ascii("connection")| == 10 && |Ascii("transfer-encoding")| == 17
    ensures |Ascii("close")| == 5 && |Ascii("keep-alive")| == 10
  {
  }

  lemma StepMeans(l: Bytes, f: Framing)
    ensures FieldStep(l, f)
         == if Rejected(l) then None
            else Some(Framing(if Named(l, Ascii("content-length")) then DecValue(ValueOf(l)) else f.contentLen,
                              StaysOpen([l], f.keepAlive)))
  {
    hide Ascii, TrimOws, DecValue;
    NamesDiffer();
    var ls := [l];
    assert ls[..0] == [];
  }

  lemma {:induction false} FieldsSnoc(ls: seq<Bytes>, l: Bytes, f: Framing)
    ensures Fields(ls + [l], f) == match Fields(ls, f) case None => None case Some(g) => FieldStep(l, g)
  {
    hide FieldStep;
    if ls == [] {
      var one := [l];
      assert [] + one == one && one[1..] == [];
    } else {
      assert (ls + [l])[0] == ls[0] && (ls + [l])[1..] == ls[1..] + [l];
      if FieldStep(ls[0], f).Some? {
        FieldsSnoc(ls[1..], l, FieldStep(ls[0], f).value);
      }
    }
  }

  /** The header lines close the connection exactly when one of them is rejected; otherwise the
      last length and the last wish count. */
  lemma {:induction false} FieldsMean(ls: seq<Bytes>, http11: bool)
    ensures Fields(ls, Framing(0, http11))
         == if exists l :: l in ls && Rejected(l) then None else Some(Framing(DeclaredLength(ls), StaysOpen(ls, http11)))
  {
    hide FieldStep, Rejected, Named, IsLength, ValueOf, DecValue, EqualFold, Ascii;
    if ls != [] {
      var (front, l) := (ls[..|ls| - 1], ls[|ls| - 1]);
      assert ls == front + [l];
      FieldsMean(front, http11);
      FieldsSnoc(front, l, Framing(0, http11));
      StepMeans(l, Framing(DeclaredLength(front), StaysOpen(front, http11)));
      LastWish(l, front, http11);
      if !Rejected(l) && Named(l, Ascii("content-length")) {
        RejectedIs(l);
      }
    }
  }

  lemma RejectedIs(l: Bytes)
    ensures !Rejected(l) && Named(l, Ascii("content-length")) ==> IsLength(ValueOf(l))
  {
    hide Named, IsLength, ValueOf, Ascii;
  }

  lemma LastWish(l: Bytes, front: seq<Bytes>, http11: bool)
    ensures StaysOpen(front + [l], http11) == StaysOpen([l], StaysOpen(front, http11))
  {
    hide Named, ValueOf, EqualFold, Ascii;
    var one := [l];
    assert (front + one)[..|front|] == front && one[..0] == [];
  }

  // ---------------------------------------------------------------------------------
  // Request line and head
  // ---------------------------------------------------------------------------------

  /** Up to the first CR. */
  function LineEnd(head: Bytes): (n: nat)
    ensures n <= |head|
  {
    match IndexByte(head, CR) case None => |head| case Some(i) => i
  }

  /** METHOD SP TARGET SP VERSION, the target between the first and the last space. */
  datatype ReqLine = ReqLine(sp1: nat, sp2: nat, http11: bool)

  function ParseReqLine(l: Bytes): (q: Option<ReqLine>)
    ensures q.Some? ==> q.value.sp1 < q.value.sp2 < |l|
  {
    match (IndexByte(l, SP), LastIndexByte(l, SP))
    case (Some(sp1), Some(sp2)) =>
      if sp2 <= sp1 then None
      else if l[sp2 + 1..] == Ascii("HTTP/1.1") then Some(ReqLine(sp1, sp2, true))
      else if l[sp2 + 1..] == Ascii("HTTP/1.0") then Some(ReqLine(sp1, sp2, false))
      else None
    case _ => None
  }

  function Min(a: nat, b: nat): nat {
    if a < b then a else b
  }

  /** The header lines of a head. */
  function HeaderPart(head: Bytes): Bytes {
    head[Min(LineEnd(head) + 2, |head|)..]
  }

  function PathOf(target: Bytes): Bytes {
    match IndexByte(target, QUESTION) case None => target case Some(q) => target[..q]
  }

  function QueryOf(target: Bytes): Bytes {
    match IndexByte(target, QUESTION) case None => [] case Some(q) => target[q + 1..]
  }

  /** A target without a question mark is all path; any other is the path up to the first one
      and the query behind it. */
  lemma TargetSplits(target: Bytes)
    ensures QUESTION !in target ==> PathOf(target) == target && QueryOf(target) == []
    ensures QUESTION in target ==>
      target == PathOf(target) + [QUESTION] + QueryOf(target) && QUESTION !in PathOf(target)
  {
  }

  datatype Head = Head(verb: Bytes, target: Bytes, framing: Framing)

  function ParseHead(head: Bytes): Option<Head> {
    var l := head[..LineEnd(head)];
    match ParseReqLine(l)
    case None => None
    case Some(q) =>
      match Fields(Lines(HeaderPart(head)), Framing(0, q.http11))
      case None => None
      case Some(f) => Some(Head(l[..q.sp1], l[q.sp1 + 1..q.sp2], f))
  }

  // ---------------------------------------------------------------------------------
  // The stream
  // ---------------------------------------------------------------------------------

  datatype Next = Close | Serve(req: Request, rest: Bytes)

  /** A head was read and t follows it. */
  function AfterHead(head: Option<Head>, t: Bytes): (n: Next)
    ensures n.Serve? ==> |n.rest| <= |t|
  {
    match head
    case None => Close
    case Some(h) =>
      var n := h.framing.contentLen;
      if n > BODY_LIMIT || |t| < n then Close
      else Serve(Request(h.verb, PathOf(h.target), QueryOf(h.target), t[..n], !h.framing.keepAlive), t[n..])
  }

  /** The first request of s.  A head must end within the first 4096 bytes and a body may
      have 3072; anything else, and a stream that ends early, closes the connection. */
  function NextRequest(s: Bytes): (n: Next)
    ensures n.Serve? ==> |n.rest| < |s|
  {
    match Index(s, CRLF2)
    case None => Close
    case Some(i) => if i + 4 > BUF_SIZE then Close else AfterHead(ParseHead(s[..i]), s[i + 4..])
  }

  /** What a head means, apart from how it is read: its header lines together. */
  lemma HeadMeans(head: Bytes)
    ensures var (q, ls) := (ParseReqLine(head[..LineEnd(head)]), Lines(HeaderPart(head)));
      && (ParseHead(head).None? <==> q.None? || exists l :: l in ls && Rejected(l))
      && (ParseHead(head).Some? ==> ParseHead(head).value.framing == Framing(DeclaredLength(ls), StaysOpen(ls, q.value.http11)))
  {
    hide Lines, Rejected, DeclaredLength, StaysOpen, Fields, ParseReqLine, HeaderPart, LineEnd;
    var q := ParseReqLine(head[..LineEnd(head)]);
    if q.Some? {
      FieldsMean(Lines(HeaderPart(head)), q.value.http11);
    }
  }

  /** Exactly when the connection closes instead of another request being dispatched: the stream
      holds no blank line that ends within 4096 bytes; or the first line is not a request line;
      or a header line is rejected; or the body is declared longer than 3072 bytes, or longer
      than what is left of the stream.  A request that is dispatched has the body declared, and
      is the last one exactly when the last wish, or the version, says so. */
  lemma ClosesIff(s: Bytes)
    ensures match Index(s, CRLF2)
      case None => NextRequest(s).Close?
      case Some(i) =>
        var (head, t) := (s[..i], s[i + 4..]);
        var (q, ls) := (ParseReqLine(head[..LineEnd(head)]), Lines(HeaderPart(head)));
        var n := DeclaredLength(ls);
        && (NextRequest(s).Close? <==> i + 4 > 4096 || q.None? || (exists l :: l in ls && Rejected(l)) || n > 3072 || n > |t|)
        && (NextRequest(s).Serve? ==>
              NextRequest(s).req.body == t[..n] && NextRequest(s).rest == t[n..]
              && NextRequest(s).req.close == !StaysOpen(ls, q.value.http11))
  {
    hide Index, Lines, Rejected, DeclaredLength, StaysOpen, ParseHead, ParseReqLine, HeaderPart, LineEnd;
    match Index(s, CRLF2)
    case None =>
    case Some(i) => HeadMeans(s[..i]);
  }

  /** All requests dispatched for the stream s when the first okWrites response writes
      succeed and the next one fails. */
  function Dispatched(s: Bytes, okWrites: nat): seq<Request>
    decreases |s|
  {
    match NextRequest(s)
    case Close => []
    case Serve(req, rest) => [req] + if req.close || okWrites == 0 then [] else Dispatched(rest, okWrites - 1)
  }
}
