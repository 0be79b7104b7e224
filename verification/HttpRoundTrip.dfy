/** Printers for both directions of the connection, and what the parsers make of their
    output: what a client sends is dispatched as sent, and what writeResponse writes is read
    back, response by response, from Content-Length framing alone. */
module HttpRoundTrip {
  import opened Options
  import opened Sha256
  import opened Wire
  import opened HttpSpec

  // ---------------------------------------------------------------------------------
  // Header lines
  // ---------------------------------------------------------------------------------

  /** NAME: VALUE */
  function FieldLine(name: Bytes, val: Bytes): Bytes {
    name + [COLON, SP] + val
  }

  lemma FieldParts(name: Bytes, val: Bytes)
    requires COLON !in name && val != [] && !IsOws(val[0]) && !IsOws(val[|val| - 1])
    ensures var l := FieldLine(name, val);
      IndexByte(l, COLON) == Some(|name|) && l[..|name|] == name && TrimOws(l[|name| + 1..]) == val
  {
    var l := FieldLine(name, val);
    var t := [COLON, SP] + val;
    assert l == name + t;
    IndexByteSkips(name, t, COLON);
    assert t[0] == COLON;
    assert l[|name| + 1..] == [SP] + val;
    assert ([SP] + val)[1..] == val;
    assert TrimLeft([SP] + val) == TrimLeft(val) == val;
  }

  lemma LengthName()
    ensures EqualFold(Ascii("Content-Length"), Ascii("content-length"))
  {
  }

  lemma LengthNoColon()
    ensures COLON !in Ascii("Content-Length") && CR !in Ascii("Content-Length")
  {
  }

  lemma ConnectionName()
    ensures EqualFold(Ascii("Connection"), Ascii("connection"))
  {
  }

  lemma ConnectionNoColon()
    ensures COLON !in Ascii("Connection") && CR !in Ascii("Connection")
  {
  }

  lemma CloseWord()
    ensures var v := Ascii("close"); EqualFold(v, v) && !IsOws(v[0]) && !IsOws(v[4]) && CR !in v && |v| == 5
  {
  }

  lemma KeepWord()
    ensures var v := Ascii("keep-alive"); EqualFold(v, v) && |v| == 10
  {
  }

  lemma KeepEnds()
    ensures var v := Ascii("keep-alive"); !IsOws(v[0]) && !IsOws(v[9]) && CR !in v
  {
  }

  lemma DigitsValue(n: nat)
    ensures var v := DecDigits(n); v != [] && !IsOws(v[0]) && !IsOws(v[|v| - 1]) && AllDigits(v) && CR !in v && DecValue(v) == n
  {
    DecRoundTrip(n);
    var v := DecDigits(n);
    assert v[0] in v && v[|v| - 1] in v;
  }

  const LENGTH: Bytes := Ascii("Content-Length")
  const CONNECTION: Bytes := Ascii("Connection")
  const CLOSE: Bytes := Ascii("close")
  const KEEP: Bytes := Ascii("keep-alive")

  lemma LengthStep(n: nat, f: Framing)
    requires n < 1_000_000_000
    ensures FieldStep(FieldLine(LENGTH, DecDigits(n)), f) == Some(f.(contentLen := n))
    ensures IsLine(FieldLine(LENGTH, DecDigits(n)))
  {
    hide Ascii, DecDigits, DecValue, TrimOws;
    var v := DecDigits(n);
    DigitsValue(n);
    LengthName();
    LengthNoColon();
    FieldParts(LENGTH, v);
    assert Pow10(9) == 1_000_000_000 by {
      assert Pow10(4) == 10_000;
    }
    DecLength(n, 9);
  }

  lemma CloseStep(f: Framing)
    ensures FieldStep(FieldLine(CONNECTION, CLOSE), f) == Some(f.(keepAlive := false))
    ensures IsLine(FieldLine(CONNECTION, CLOSE))
  {
    hide Ascii, TrimOws;
    CloseWord();
    ConnectionName();
    ConnectionNoColon();
    FieldParts(CONNECTION, CLOSE);
    assert |CONNECTION| == 10 && |Ascii("content-length")| == 14;
  }

  lemma KeepStep(f: Framing)
    ensures FieldStep(FieldLine(CONNECTION, KEEP), f) == Some(f.(keepAlive := true))
    ensures IsLine(FieldLine(CONNECTION, KEEP))
  {
    hide Ascii, TrimOws;
    CloseWord();
    KeepWord();
    KeepEnds();
    ConnectionName();
    ConnectionNoColon();
    FieldParts(CONNECTION, KEEP);
    assert |CONNECTION| == 10 && |Ascii("content-length")| == 14;
  }

  /** What a side says about the connection, if anything. */
  datatype Wish = Silent | WantClose | WantKeep

  function WishLines(c: Wish): seq<Bytes> {
    match c
    case Silent => []
    case WantClose => [FieldLine(CONNECTION, CLOSE)]
    case WantKeep => [FieldLine(CONNECTION, KEEP)]
  }

  function Granted(c: Wish, keepAlive: bool): bool {
    if c.Silent? then keepAlive else c.WantKeep?
  }

  /** The header lines both sides print. */
  function FramingLines(n: nat, c: Wish): seq<Bytes> {
    [FieldLine(LENGTH, DecDigits(n))] + WishLines(c)
  }

  lemma OneField(l: Bytes, f: Framing)
    ensures Fields([l], f) == FieldStep(l, f)
  {
    hide FieldStep;
    var ls := [l];
    assert ls[1..] == [];
  }

  lemma WishFields(c: Wish, f: Framing)
    ensures Fields(WishLines(c), f) == Some(f.(keepAlive := Granted(c, f.keepAlive)))
    ensures forall l | l in WishLines(c) :: IsLine(l)
  {
    hide FieldStep, IsLine, FieldLine;
    CloseStep(f);
    KeepStep(f);
    OneField(FieldLine(CONNECTION, CLOSE), f);
    OneField(FieldLine(CONNECTION, KEEP), f);
  }

  lemma FramingFields(n: nat, c: Wish, f: Framing)
    requires n < 1_000_000_000
    ensures Fields(FramingLines(n, c), f) == Some(Framing(n, Granted(c, f.keepAlive)))
    ensures forall l | l in FramingLines(n, c) :: IsLine(l)
  {
    hide FieldStep, IsLine, FieldLine, WishLines;
    LengthStep(n, f);
    WishFields(c, f.(contentLen := n));
    assert FramingLines(n, c)[1..] == WishLines(c);
  }

  /** A header line the server does not care about. */
  predicate Neutral(l: Bytes) {
    && IsLine(l) && !Named(l, Ascii("content-length")) && !Named(l, Ascii("transfer-encoding"))
    && (Named(l, Ascii("connection")) ==>
          !EqualFold(ValueOf(l), Ascii("close")) && !EqualFold(ValueOf(l), Ascii("keep-alive")))
  }

  lemma NeutralStep(l: Bytes, f: Framing)
    requires Neutral(l)
    ensures FieldStep(l, f) == Some(f)
  {
    hide FieldStep, Named, ValueOf, EqualFold, Ascii;
    StepMeans(l, f);
    var ls := [l];
    assert ls[..0] == [];
  }

  lemma {:induction false} SkipNeutral(extra: seq<Bytes>, rest: seq<Bytes>, f: Framing)
    requires forall l | l in extra :: Neutral(l)
    ensures Fields(extra + rest, f) == Fields(rest, f)
  {
    hide FieldStep, Neutral;
    if extra == [] {
      assert extra + rest == rest;
    } else {
      NeutralStep(extra[0], f);
      assert (extra + rest)[0] == extra[0] && (extra + rest)[1..] == extra[1..] + rest;
      SkipNeutral(extra[1..], rest, f);
    }
  }

  // ---------------------------------------------------------------------------------
  // Requests
  // ---------------------------------------------------------------------------------

  /** A request as a client writes it: either version, any further header lines, and what it
      says about the connection. */
  datatype Sent = Sent(verb: Bytes, path: Bytes, query: Option<Bytes>, http11: bool, extra: seq<Bytes>, wish: Wish, body: Bytes) {
    /** The path, and behind a question mark the query if there is one. */
    function Target(): Bytes {
      match query case None => path case Some(x) => path + [QUESTION] + x
    }
  }

  const HTTP11: Bytes := Ascii("HTTP/1.1")
  const HTTP10: Bytes := Ascii("HTTP/1.0")

  function Version(q: Sent): Bytes {
    if q.http11 then HTTP11 else HTTP10
  }

  function RequestLine(q: Sent): Bytes {
    q.verb + [SP] + q.Target() + [SP] + Version(q)
  }

  function RequestHead(q: Sent): seq<Bytes> {
    [RequestLine(q)] + (q.extra + FramingLines(|q.body|, q.wish))
  }

  function PrintRequest(q: Sent): Bytes {
    Join(RequestHead(q)) + CRLF2 + q.body
  }

  /** What a client may send: a one-word method, a target on one line, and sizes that fit. */
  ghost predicate Fits(q: Sent) {
    && (forall l | l in q.extra :: Neutral(l))
    && SP !in q.verb && CR !in q.verb && CR !in q.Target() && QUESTION !in q.path
    && |q.body| <= 3072 && |Join(RequestHead(q))| + 4 <= 4096
  }

  function AsDispatched(q: Sent): Request {
    Request(q.verb, q.path, match q.query case None => [] case Some(x) => x, q.body, !Granted(q.wish, q.http11))
  }

  lemma VersionWord()
    ensures SP !in Ascii("HTTP/1.1") && CR !in Ascii("HTTP/1.1")
    ensures SP !in Ascii("HTTP/1.0") && CR !in Ascii("HTTP/1.0")
  {
  }

  lemma VersionsDiffer()
    ensures Ascii("HTTP/1.0") != Ascii("HTTP/1.1")
  {
    assert Ascii("HTTP/1.0")[7] != Ascii("HTTP/1.1")[7];
  }

  lemma {:induction false} LastIndexByteSkips(a: Bytes, b: Bytes, c: Byte)
    requires c !in b
    ensures LastIndexByte(a + [c] + b, c) == Some(|a|)
  {
    var s := a + [c] + b;
    if b == [] {
      assert s[|s| - 1] == c;
    } else {
      var n := |b| - 1;
      assert s[|s| - 1] == b[n];
      assert s[..|s| - 1] == a + [c] + b[..n];
      LastIndexByteSkips(a, b[..n], c);
    }
  }

  lemma FirstSpace(q: Sent)
    requires SP !in q.verb
    ensures IndexByte(RequestLine(q), SP) == Some(|q.verb|)
  {
    hide Ascii;
    var t := [SP] + q.Target() + [SP] + Version(q);
    assert RequestLine(q) == q.verb + t;
    assert t[0] == SP;
    IndexByteSkips(q.verb, t, SP);
  }

  lemma LastSpace(q: Sent)
    ensures LastIndexByte(RequestLine(q), SP) == Some(|q.verb| + 1 + |q.Target()|)
  {
    hide Ascii, LastIndexByte;
    VersionWord();
    LastIndexByteSkips(q.verb + [SP] + q.Target(), Version(q), SP);
  }

  lemma RequestLineSlices(q: Sent)
    ensures var l := RequestLine(q);
      && l[..|q.verb|] == q.verb && l[|q.verb| + 1..|q.verb| + 1 + |q.Target()|] == q.Target()
      && l[|q.verb| + 1 + |q.Target()| + 1..] == Version(q)
  {
    hide Ascii;
  }

  lemma RequestLineParses(q: Sent)
    requires SP !in q.verb
    ensures ParseReqLine(RequestLine(q)) == Some(ReqLine(|q.verb|, |q.verb| + 1 + |q.Target()|, q.http11))
    ensures var l := RequestLine(q); l[..|q.verb|] == q.verb && l[|q.verb| + 1..|q.verb| + 1 + |q.Target()|] == q.Target()
  {
    hide Ascii, IndexByte, LastIndexByte, RequestLine;
    FirstSpace(q);
    LastSpace(q);
    VersionsDiffer();
    RequestLineSlices(q);
  }

  lemma RequestHeadParses(q: Sent)
    requires Fits(q)
    ensures ParseHead(Join(RequestHead(q))) == Some(Head(q.verb, q.Target(), Framing(|q.body|, Granted(q.wish, q.http11))))
    ensures forall l | l in RequestHead(q) :: IsLine(l)
  {
    hide Ascii, Fields, FieldLine, ParseReqLine, Lines, IndexByte;
    var (l, fs) := (RequestLine(q), q.extra + FramingLines(|q.body|, q.wish));
    var head := Join(RequestHead(q));
    FramingFields(|q.body|, q.wish, Framing(0, q.http11));
    SkipNeutral(q.extra, FramingLines(|q.body|, q.wish), Framing(0, q.http11));
    VersionWord();
    assert IsLine(l);
    assert forall x | x in q.extra :: Neutral(x);
    assert RequestHead(q)[1..] == fs;
    JoinTail(RequestHead(q));
    assert head == l + (CRLF + Join(fs));
    FirstCr(l, CRLF + Join(fs));
    assert LineEnd(head) == |l| && head[..|l|] == l;
    assert HeaderPart(head) == Join(fs);
    LinesOfJoin(fs);
    RequestLineParses(q);
  }

  lemma FirstCr(l: Bytes, t: Bytes)
    requires CR !in l && t != [] && t[0] == CR
    ensures IndexByte(l + t, CR) == Some(|l|)
  {
    IndexByteSkips(l, t, CR);
  }

  lemma TargetReads(q: Sent)
    requires QUESTION !in q.path
    ensures PathOf(q.Target()) == q.path && QueryOf(q.Target()) == match q.query case None => [] case Some(x) => x
  {
    match q.query
    case None =>
    case Some(x) =>
      var t := [QUESTION] + x;
      assert q.Target() == q.path + t && t[0] == QUESTION;
      IndexByteSkips(q.path, t, QUESTION);
  }

  /** A printed request is dispatched as sent, and the stream continues behind it. */
  lemma RequestRoundTrip(q: Sent, more: Bytes)
    requires Fits(q)
    ensures NextRequest(PrintRequest(q) + more) == Serve(AsDispatched(q), more)
  {
    hide Index, OccursAt, ParseHead, Join, RequestHead, PathOf, QueryOf;
    RequestHeadParses(q);
    TargetReads(q);
    var head := Join(RequestHead(q));
    assert RequestHead(q) != [] by {
      HeadNotEmpty(q);
    }
    HeadEnds(RequestHead(q), q.body + more);
    var s := PrintRequest(q) + more;
    assert s == head + CRLF2 + (q.body + more);
    assert s[..|head|] == head && s[|head| + 4..] == q.body + more;
  }

  lemma HeadNotEmpty(q: Sent)
    ensures RequestHead(q) != []
  {
  }

  function PrintRequests(qs: seq<Sent>): Bytes {
    if qs == [] then [] else PrintRequest(qs[0]) + PrintRequests(qs[1..])
  }

  /** The requests up to the first that asks to close. */
  function Answerable(qs: seq<Sent>): seq<Request> {
    if qs == [] then [] else [AsDispatched(qs[0])] + if AsDispatched(qs[0]).close then [] else Answerable(qs[1..])
  }

  /** Pipelined requests are dispatched one by one, exactly as sent, up to the first that
      closes. */
  lemma {:induction false} PipelineRoundTrip(qs: seq<Sent>, okWrites: nat)
    requires (forall q | q in qs :: Fits(q)) && okWrites >= |qs|
    ensures Dispatched(PrintRequests(qs), okWrites) == Answerable(qs)
  {
    hide NextRequest, Fits, PrintRequest, AsDispatched;
    if qs == [] {
      EmptyCloses();
    } else {
      RequestRoundTrip(qs[0], PrintRequests(qs[1..]));
      PipelineRoundTrip(qs[1..], okWrites - 1);
    }
  }

  lemma EmptyCloses()
    ensures NextRequest([]) == Close
  {
  }

  // ---------------------------------------------------------------------------------
  // Responses
  // ---------------------------------------------------------------------------------

  /** A response as handlers produce it. */
  datatype Response = Response(code: int, body: Bytes, close: bool)

  /** http.StatusText. */
  type StatusText = int -> Bytes

  /** The five codes the handlers use have their line built in, every other one asks the
      library. */
  function Reason(text: StatusText, code: int): Bytes {
    match code
    case 200 => Ascii("OK")
    case 404 => Ascii("Not Found")
    case 503 => Ascii("Service Unavailable")
    case 400 => Ascii("Bad Request")
    case 500 => Ascii("Internal Server Error")
    case _ => text(code)
  }

  /** The phrases of the handlers' codes. */
  lemma Phrases(text: StatusText)
    ensures Reason(text, 200) == Ascii("OK") && Reason(text, 400) == Ascii("Bad Request")
    ensures Reason(text, 404) == Ascii("Not Found") && Reason(text, 500) == Ascii("Internal Server Error")
    ensures Reason(text, 503) == Ascii("Service Unavailable")
    ensures forall code | code !in {200, 400, 404, 500, 503} :: Reason(text, code) == text(code)
  {
  }

  const MINUS: Byte := 45

  /** strconv.AppendInt. */
  function IntText(n: int): Bytes {
    if n < 0 then [MINUS] + DecDigits(-n) else DecDigits(n)
  }

  /** A minus sign exactly for negative numbers, and the digits of the absolute value. */
  lemma IntTextReads(n: int)
    ensures var t := IntText(n);
      && t != [] && (t[0] == 45 <==> n < 0)
      && (n >= 0 ==> AllDigits(t) && DecValue(t) == n)
      && (n < 0 ==> AllDigits(t[1..]) && DecValue(t[1..]) == -n)
  {
    hide DecDigits, DecValue;
    var m := if n < 0 then -n else n;
    DecRoundTrip(m);
    var ds := DecDigits(m);
    assert ds[0] in ds;
    assert ([MINUS] + ds)[1..] == ds;
  }

  function StatusLine(text: StatusText, code: int): Bytes {
    HTTP11 + [SP] + IntText(code) + [SP] + Reason(text, code)
  }

  const TYPE: Bytes := Ascii("Content-Type")
  const JSON: Bytes := Ascii("application/json")

  function WishOf(p: Response): Wish {
    if p.close then WantClose else Silent
  }

  function ResponseHead(text: StatusText, p: Response): seq<Bytes> {
    [StatusLine(text, p.code), FieldLine(TYPE, JSON)] + FramingLines(|p.body|, WishOf(p))
  }

  function PrintResponse(text: StatusText, p: Response): Bytes {
    Join(ResponseHead(text, p)) + CRLF2 + p.body
  }

  // ---------------------------------------------------------------------------------
  // A client
  // ---------------------------------------------------------------------------------

  /** The status code of a status line: the three digits after the version. */
  function StatusOf(l: Bytes): Option<int> {
    if |l| >= 12 && l[..9] == HTTP11 + [SP] && AllDigits(l[9..12]) then Some(DecValue(l[9..12])) else None
  }

  /** A header line as a client reads it: name, colon, optional white space, and for a length
      any number of digits. */
  function ClientStep(line: Bytes, f: Framing): Option<Framing> {
    match IndexByte(line, COLON)
    case None => Some(f)
    case Some(ci) =>
      var (name, val) := (line[..ci], TrimOws(line[ci + 1..]));
      if EqualFold(name, Ascii("content-length")) then
        if val != [] && AllDigits(val) then Some(f.(contentLen := DecValue(val))) else None
      else if EqualFold(name, Ascii("connection")) then
        Some(f.(keepAlive := f.keepAlive && !EqualFold(val, Ascii("close"))))
      else Some(f)
  }

  function ClientFields(ls: seq<Bytes>, f: Framing): Option<Framing> {
    if ls == [] then Some(f)
    else match ClientStep(ls[0], f) case None => None case Some(f') => ClientFields(ls[1..], f')
  }

  /** The phrase behind the code. */
  function PhraseOf(l: Bytes): Bytes {
    if |l| >= 13 then l[13..] else []
  }

  /** The value of the first Content-Type line. */
  function MediaType(ls: seq<Bytes>): Bytes {
    if ls == [] then []
    else match IndexByte(ls[0], COLON)
      case None => MediaType(ls[1..])
      case Some(ci) =>
        if EqualFold(ls[0][..ci], Ascii("content-type")) then TrimOws(ls[0][ci + 1..]) else MediaType(ls[1..])
  }

  /** A response as a client sees it. */
  datatype Received = Received(code: int, phrase: Bytes, mediaType: Bytes, body: Bytes, close: bool)

  function AsReceived(text: StatusText, p: Response): Received {
    Received(p.code, Reason(text, p.code), Ascii("application/json"), p.body, p.close)
  }

  /** Status line, header fields, then as many body bytes as Content-Length says. */
  function ReadResponse(s: Bytes): (r: Option<(Received, Bytes)>)
    ensures r.Some? ==> |r.value.1| < |s|
  {
    match Index(s, CRLF2)
    case None => None
    case Some(i) =>
      var ls := Lines(s[..i]);
      if ls == [] then None
      else match (StatusOf(ls[0]), ClientFields(ls[1..], Framing(0, true)))
        case (Some(code), Some(f)) =>
          if |s| - (i + 4) < f.contentLen then None
          else Some((Received(code, PhraseOf(ls[0]), MediaType(ls[1..]), s[i + 4..][..f.contentLen], !f.keepAlive), s[i + 4..][f.contentLen..]))
        case _ => None
  }

  // ---------------------------------------------------------------------------------
  // What the client makes of a response
  // ---------------------------------------------------------------------------------

  /** Reason phrases do not break the status line. */
  ghost predicate OneLine(text: StatusText) {
    forall c :: CR !in text(c)
  }

  /** The codes HTTP has. */
  predicate ThreeDigitCode(code: int) {
    100 <= code <= 999
  }

  lemma KnownReasons()
    ensures CR !in Ascii("OK") && CR !in Ascii("Not Found") && CR !in Ascii("Service Unavailable")
    ensures CR !in Ascii("Bad Request") && CR !in Ascii("Internal Server Error")
  {
  }

  lemma ReasonWords(text: StatusText, code: int)
    requires OneLine(text)
    ensures CR !in Reason(text, code)
  {
    hide Ascii;
    KnownReasons();
  }

  lemma StatusCodes(text: StatusText, code: int)
    requires ThreeDigitCode(code) && OneLine(text)
    ensures StatusOf(StatusLine(text, code)) == Some(code) && IsLine(StatusLine(text, code))
    ensures PhraseOf(StatusLine(text, code)) == Reason(text, code)
  {
    hide Ascii, DecDigits, DecValue, Reason, OneLine;
    var (l, v) := (StatusLine(text, code), DecDigits(code));
    ReasonWords(text, code);
    VersionWord();
    DigitsValue(code);
    ThreeDigits(code);
    assert l[..9] == HTTP11 + [SP];
    assert l[9..12] == v;
    assert l[13..] == Reason(text, code);
  }

  lemma ThreeDigits(n: nat)
    requires 100 <= n < 1000
    ensures |DecDigits(n)| == 3
  {
    assert DecDigits(n) == DecDigits(n / 10) + [48 + n % 10];
    assert DecDigits(n / 10) == DecDigits(n / 100) + [48 + n / 10 % 10];
  }

  lemma TypeName()
    ensures EqualFold(Ascii("Content-Type"), Ascii("content-type"))
  {
  }

  lemma TypeRead(fs: seq<Bytes>)
    ensures MediaType([FieldLine(TYPE, JSON)] + fs) == JSON
  {
    hide Ascii, TrimOws;
    TypeWords();
    TypeName();
    FieldParts(TYPE, JSON);
    var ls := [FieldLine(TYPE, JSON)] + fs;
    assert ls[0] == FieldLine(TYPE, JSON);
  }

  lemma TypeWords()
    ensures COLON !in Ascii("Content-Type") && CR !in Ascii("Content-Type")
    ensures CR !in Ascii("application/json")
    ensures var v := Ascii("application/json"); !IsOws(v[0]) && !IsOws(v[|v| - 1])
  {
  }

  lemma ClientType(f: Framing)
    ensures IsLine(FieldLine(TYPE, JSON)) && ClientStep(FieldLine(TYPE, JSON), f) == Some(f)
  {
    hide Ascii, TrimOws;
    TypeWords();
    FieldParts(TYPE, JSON);
    assert |TYPE| == 12 && |Ascii("content-length")| == 14 && |Ascii("connection")| == 10;
  }

  lemma ClientLength(n: nat, f: Framing)
    ensures ClientStep(FieldLine(LENGTH, DecDigits(n)), f) == Some(f.(contentLen := n))
    ensures IsLine(FieldLine(LENGTH, DecDigits(n)))
  {
    hide Ascii, DecDigits, DecValue, TrimOws;
    DigitsValue(n);
    LengthName();
    LengthNoColon();
    FieldParts(LENGTH, DecDigits(n));
  }

  lemma ClientClose(f: Framing)
    ensures ClientStep(FieldLine(CONNECTION, CLOSE), f) == Some(f.(keepAlive := false))
    ensures IsLine(FieldLine(CONNECTION, CLOSE))
  {
    hide Ascii, TrimOws;
    CloseWord();
    ConnectionName();
    ConnectionNoColon();
    FieldParts(CONNECTION, CLOSE);
    assert |CONNECTION| == 10 && |Ascii("content-length")| == 14;
  }

  lemma ClientNext(l: Bytes, ls: seq<Bytes>, f: Framing)
    ensures ClientFields([l] + ls, f) == match ClientStep(l, f) case None => None case Some(f') => ClientFields(ls, f')
    ensures forall g :: ClientFields([], g) == Some(g)
  {
    hide ClientStep;
    assert ([l] + ls)[1..] == ls;
  }

  lemma ClientFraming(n: nat, close: bool, f: Framing)
    ensures var ls := FramingLines(n, if close then WantClose else Silent);
      && ClientFields(ls, f) == Some(Framing(n, !close && f.keepAlive))
      && forall l | l in ls :: IsLine(l)
  {
    hide ClientFields, ClientStep, IsLine, FieldLine;
    var (l, c, f') := (FieldLine(LENGTH, DecDigits(n)), FieldLine(CONNECTION, CLOSE), f.(contentLen := n));
    ClientLength(n, f);
    ClientClose(f');
    ClientNext(c, [], f');
    ClientNext(l, [c], f);
    ClientNext(l, [], f);
    assert [c] + [] == [c];
    assert FramingLines(n, if close then WantClose else Silent) == [l] + if close then [c] else [];
  }

  lemma ResponseHeadParses(text: StatusText, p: Response)
    requires ThreeDigitCode(p.code) && OneLine(text)
    ensures var ls := ResponseHead(text, p);
      && (forall l | l in ls :: IsLine(l)) && |ls| >= 2
      && StatusOf(ls[0]) == Some(p.code) && PhraseOf(ls[0]) == Reason(text, p.code) && MediaType(ls[1..]) == JSON
      && ClientFields(ls[1..], Framing(0, true)) == Some(Framing(|p.body|, !p.close))
  {
    hide Ascii, FieldLine, ClientStep, ClientFields, StatusOf, StatusLine, IsLine, OneLine, PhraseOf, MediaType, Reason;
    StatusCodes(text, p.code);
    TypeRead(FramingLines(|p.body|, WishOf(p)));
    ClientType(Framing(0, true));
    ClientFraming(|p.body|, p.close, Framing(0, true));
    var fs := FramingLines(|p.body|, WishOf(p));
    ClientNext(FieldLine(TYPE, JSON), fs, Framing(0, true));
    assert ResponseHead(text, p)[1..] == [FieldLine(TYPE, JSON)] + fs;
  }

  /** A client reads a written response back, of any length and whatever follows it: code and
      phrase, media type, body, and whether the connection closes. */
  lemma ResponseRoundTrip(text: StatusText, p: Response, more: Bytes)
    requires ThreeDigitCode(p.code) && OneLine(text)
    ensures ReadResponse(PrintResponse(text, p) + more) == Some((AsReceived(text, p), more))
  {
    hide Index, OccursAt, Join, Lines, ResponseHead, StatusOf, ClientFields, OneLine, PhraseOf, MediaType, Reason, Ascii;
    ResponseHeadParses(text, p);
    var (ls, head) := (ResponseHead(text, p), Join(ResponseHead(text, p)));
    HeadEnds(ls, p.body + more);
    LinesOfJoin(ls);
    var s := PrintResponse(text, p) + more;
    assert s == head + CRLF2 + (p.body + more);
    assert s[..|head|] == head && s[|head| + 4..] == p.body + more;
    assert (p.body + more)[..|p.body|] == p.body && (p.body + more)[|p.body|..] == more;
  }

  function PrintResponses(text: StatusText, ps: seq<Response>): Bytes {
    if ps == [] then [] else PrintResponse(text, ps[0]) + PrintResponses(text, ps[1..])
  }

  /** Reads responses until the bytes run out or stop making sense. */
  function ReadResponses(s: Bytes): seq<Received>
    decreases |s|
  {
    match ReadResponse(s) case None => [] case Some((p, rest)) => [p] + ReadResponses(rest)
  }

  function AllReceived(text: StatusText, ps: seq<Response>): (rs: seq<Received>)
    ensures |rs| == |ps| && forall i | 0 <= i < |ps| :: rs[i] == AsReceived(text, ps[i])
  {
    seq(|ps|, i requires 0 <= i < |ps| => AsReceived(text, ps[i]))
  }

  /** Any sequence of written responses is read back as that sequence and no other. */
  lemma {:induction false} ResponsesRoundTrip(text: StatusText, ps: seq<Response>)
    requires OneLine(text) && forall p | p in ps :: ThreeDigitCode(p.code)
    ensures ReadResponses(PrintResponses(text, ps)) == AllReceived(text, ps)
  {
    hide ReadResponse, ThreeDigitCode, PrintResponse, OneLine, AsReceived;
    if ps == [] {
      NoResponse();
    } else {
      ResponseRoundTrip(text, ps[0], PrintResponses(text, ps[1..]));
      ResponsesRoundTrip(text, ps[1..]);
    }
  }

  lemma NoResponse()
    ensures ReadResponse([]).None?
  {
  }

  /** So two different sequences never look the same on the wire. */
  lemma ResponsesUnique(text: StatusText, ps: seq<Response>, qs: seq<Response>)
    requires OneLine(text)
    requires forall p | p in ps :: ThreeDigitCode(p.code)
    requires forall q | q in qs :: ThreeDigitCode(q.code)
    requires PrintResponses(text, ps) == PrintResponses(text, qs)
    ensures ps == qs
  {
    hide ReadResponses, PrintResponses, ThreeDigitCode, OneLine, Ascii, Reason;
    ResponsesRoundTrip(text, ps);
    ResponsesRoundTrip(text, qs);
    assert |ps| == |AllReceived(text, ps)| == |qs|;
    forall i | 0 <= i < |ps| ensures ps[i] == qs[i] {
      assert AllReceived(text, ps)[i] == AllReceived(text, qs)[i];
    }
  }

  // ---------------------------------------------------------------------------------
  // writeResponse
  // ---------------------------------------------------------------------------------

  /** rawResponse with the writing side of its connection: what has reached the wire, and
      how many more writes succeed. */
  class RawResponse {
    var out: Bytes
    var closeAfter: bool
    var failed: bool
    var wire: Bytes
    var okWrites: nat

    constructor (okWrites: nat)
      ensures out == [] && !closeAfter && !failed && wire == [] && this.okWrites == okWrites
    {
      out, closeAfter, failed, wire, this.okWrites := [], false, false, [], okWrites;
    }

    /** Assembles status line, headers and body, and hands them to one write; after the
        first failed write nothing is written any more. */
    method WriteResponse(text: StatusText, code: int, body: Bytes)
      modifies `out, `failed, `wire, `okWrites
      ensures out == PrintResponse(text, Response(code, body, closeAfter))
      ensures failed == (old(failed) || old(okWrites) == 0)
      ensures !failed ==> wire == old(wire) + out && okWrites == old(okWrites) - 1
      ensures old(failed) ==> wire == old(wire)
      ensures failed && !old(failed) ==> old(wire) <= wire <= old(wire) + out
    {
      hide Ascii, DecDigits, IntText, Reason, StatusLine, PrintResponse;
      var b: Bytes := FirstLine(text, code);
      b := b + TYPE + [COLON, SP] + JSON + CRLF + LENGTH + [COLON, SP];
      b := b + DecDigits(|body|);
      if closeAfter {
        b := b + CRLF + CONNECTION + [COLON, SP] + CLOSE;
      }
      b := b + CRLF2;
      b := b + body;
      Assembled(text, Response(code, body, closeAfter));
      out := b;
      if !failed {
        if okWrites > 0 {
          wire, okWrites := wire + b, okWrites - 1;
        } else {
          var n :| 0 <= n <= |b|;
          wire, failed := wire + b[..n], true;
        }
      }
    }

    /** The switch over the code: five literal lines, and the general one. */
    function FirstLine(text: StatusText, code: int): (b: Bytes)
      ensures b == StatusLine(text, code) + CRLF
    {
      hide Ascii;
      KnownCodes();
      match code
      case 200 => HTTP11 + [SP, 50, 48, 48, SP] + Ascii("OK") + CRLF
      case 404 => HTTP11 + [SP, 52, 48, 52, SP] + Ascii("Not Found") + CRLF
      case 503 => HTTP11 + [SP, 53, 48, 51, SP] + Ascii("Service Unavailable") + CRLF
      case 400 => HTTP11 + [SP, 52, 48, 48, SP] + Ascii("Bad Request") + CRLF
      case 500 => HTTP11 + [SP, 53, 48, 48, SP] + Ascii("Internal Server Error") + CRLF
      case _ => HTTP11 + [SP] + IntText(code) + [SP] + text(code) + CRLF
    }
  }

  lemma KnownCodes()
    ensures DecDigits(200) == [50, 48, 48] && DecDigits(404) == [52, 48, 52] && DecDigits(503) == [53, 48, 51]
    ensures DecDigits(400) == [52, 48, 48] && DecDigits(500) == [53, 48, 48]
  {
  }

  lemma JoinFew(a: Bytes, b: Bytes, c: Bytes, d: Bytes)
    ensures Join([a, b, c]) == a + CRLF + b + CRLF + c
    ensures Join([a, b, c, d]) == a + CRLF + b + CRLF + c + CRLF + d
  {
    JoinTail([b, c]);
    JoinTail([a, b, c]);
    JoinTail([c, d]);
    JoinTail([b, c, d]);
    JoinTail([a, b, c, d]);
    assert [a, b, c][1..] == [b, c] && [b, c][1..] == [c];
    assert [a, b, c, d][1..] == [b, c, d] && [b, c, d][1..] == [c, d] && [c, d][1..] == [d];
  }

  lemma HeadLines(text: StatusText, p: Response)
    ensures var (a, l, n, c) := (StatusLine(text, p.code), FieldLine(TYPE, JSON), FieldLine(LENGTH, DecDigits(|p.body|)),
                                 FieldLine(CONNECTION, CLOSE));
            ResponseHead(text, p) == if p.close then [a, l, n, c] else [a, l, n]
  {
    hide Ascii, DecDigits, StatusLine, FieldLine;
  }

  /** What writeResponse appends before the optional Connection line. */
  function Preamble(text: StatusText, code: int, n: nat): Bytes {
    StatusLine(text, code) + CRLF + TYPE + [COLON, SP] + JSON + CRLF + LENGTH + [COLON, SP] + DecDigits(n)
  }

  lemma PreambleLines(text: StatusText, code: int, n: nat)
    ensures StatusLine(text, code) + CRLF + FieldLine(TYPE, JSON) + CRLF + FieldLine(LENGTH, DecDigits(n))
         == Preamble(text, code, n)
  {
    hide Ascii, DecDigits, StatusLine;
  }

  lemma Assembled(text: StatusText, p: Response)
    ensures !p.close ==> PrintResponse(text, p) == Preamble(text, p.code, |p.body|) + CRLF2 + p.body
    ensures p.close ==>
      PrintResponse(text, p)
      == Preamble(text, p.code, |p.body|) + CRLF + CONNECTION + [COLON, SP] + CLOSE + CRLF2 + p.body
  {
    hide Ascii, DecDigits, StatusLine, Join, Preamble, ResponseHead;
    HeadLines(text, p);
    JoinFew(StatusLine(text, p.code), FieldLine(TYPE, JSON), FieldLine(LENGTH, DecDigits(|p.body|)), FieldLine(CONNECTION, CLOSE));
    PreambleLines(text, p.code, |p.body|);
  }
}
