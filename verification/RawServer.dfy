/** The raw connection loop: a fixed buffer, refilled and compacted in place, and reads that
    may split the stream anywhere. */
module RawServer {
  import opened Options
  import opened Sha256
  import opened Wire
  import opened HttpSpec

  // ---------------------------------------------------------------------------------
  // Small loops
  // ---------------------------------------------------------------------------------

  /** asciiEqualFold. */
  method AsciiEqualFold(b: Bytes, lower: Bytes) returns (eq: bool)
    ensures eq == EqualFold(b, lower)
    ensures eq <==> |b| == |lower| && forall i | 0 <= i < |b| :: lower[i] == if 65 <= b[i] <= 90 then b[i] + 32 else b[i]
  {
    if |b| != |lower| {
      return false;
    }
    for i := 0 to |b|
      invariant forall j | 0 <= j < i :: ToLower(b[j]) == lower[j]
    {
      var c := b[i];
      if 65 <= c <= 90 {
        c := c + 32;
      }
      if c != lower[i] {
        return false;
      }
    }
    return true;
  }

  /** trimOWS. */
  method TrimOwsLoop(v: Bytes) returns (b: Bytes)
    ensures b == TrimOws(v)
  {
    b := v;
    while |b| > 0 && (b[0] == SP || b[0] == HTAB)
      invariant TrimLeft(b) == TrimLeft(v)
    {
      b := b[1..];
    }
    while |b| > 0 && (b[|b| - 1] == SP || b[|b| - 1] == HTAB)
      invariant TrimRight(b) == TrimOws(v)
    {
      b := b[..|b| - 1];
    }
  }

  /** The digits of a Content-Length. */
  method ReadLength(val: Bytes) returns (n: Option<nat>)
    ensures n == if 1 <= |val| <= 9 && AllDigits(val) then Some(DecValue(val)) else None
  {
    if |val| == 0 || |val| > 9 {
      return None;
    }
    var k: nat := 0;
    for i := 0 to |val|
      invariant AllDigits(val[..i]) && k == DecValue(val[..i])
    {
      var d: int := val[i];
      if d < 48 || d > 57 {
        assert !IsDigit(val[i]) && val[i] in val;
        return None;
      }
      k := k * 10 + (d - 48);
      assert val[..i + 1] == val[..i] + [val[i]];
      assert val[..i + 1][..i] == val[..i];
    }
    assert val[..|val|] == val;
    return Some(k);
  }

  /** The header loop: only Content-Length, Connection and Transfer-Encoding matter. */
  method ReadFields(part: Bytes, http11: bool) returns (f: Option<Framing>)
    ensures f == Fields(Lines(part), Framing(0, http11))
  {
    hide FieldStep, Index;
    var rest := part;
    var now := Framing(0, http11);
    while |rest| > 0
      invariant Fields(Lines(rest), now) == Fields(Lines(part), Framing(0, http11))
      decreases |rest|
    {
      var line: Bytes;
      ghost var before := rest;
      match Index(rest, CRLF) {
        case Some(j) => line, rest := rest[..j], rest[j + 2..];
        case None => line, rest := rest, [];
      }
      assert Lines(before) == [line] + Lines(rest);
      var next := ReadField(line, now);
      if next.None? {
        return None;
      }
      now := next.value;
    }
    return Some(now);
  }

  method ReadField(line: Bytes, f: Framing) returns (f': Option<Framing>)
    ensures f' == FieldStep(line, f)
  {
    hide TrimOws, EqualFold, DecValue, AllDigits;
    match IndexByte(line, COLON) {
      case None => return Some(f);
      case Some(ci) =>
        var name := line[..ci];
        var val := TrimOwsLoop(line[ci + 1..]);
        var isLength := AsciiEqualFold(name, Ascii("content-length"));
        if isLength {
          var n := ReadLength(val);
          return if n.Some? then Some(f.(contentLen := n.value)) else None;
        }
        var isConnection := AsciiEqualFold(name, Ascii("connection"));
        if isConnection {
          var close := AsciiEqualFold(val, Ascii("close"));
          if close {
            return Some(f.(keepAlive := false));
          }
          var keep := AsciiEqualFold(val, Ascii("keep-alive"));
          return Some(if keep then f.(keepAlive := true) else f);
        }
        var isTransfer := AsciiEqualFold(name, Ascii("transfer-encoding"));
        return if isTransfer then None else Some(f);
    }
  }

  // ---------------------------------------------------------------------------------
  // The connection
  // ---------------------------------------------------------------------------------

  /** The reading side of a connection: the bytes still to come, and how much of them each
      of the next reads delivers at most (0 is a read that returns nothing and no error);
      after that list reads deliver all they can.  The end of the bytes is the end of the
      stream, a read error or an expired deadline. */
  class Conn {
    var rest: Bytes
    var sizes: seq<nat>

    constructor (stream: Bytes, sizes: seq<nat>)
      ensures rest == stream && this.sizes == sizes
    {
      this.rest, this.sizes := stream, sizes;
    }

    method Read(buf: array<Byte>, w: nat) returns (n: nat, err: bool)
      requires w < buf.Length
      modifies this, buf
      ensures w + n <= buf.Length && n <= |old(rest)|
      ensures buf[w..w + n] == old(rest)[..n] && rest == old(rest)[n..]
      ensures forall i | 0 <= i < buf.Length && !(w <= i < w + n) :: buf[i] == old(buf[i])
      ensures err ==> n == 0 && rest == []
      ensures n == 0 && !err ==> |sizes| < |old(sizes)|
      ensures |sizes| <= |old(sizes)|
    {
      n := buf.Length - w;
      if sizes != [] {
        n := Min(n, sizes[0]);
        sizes := sizes[1..];
      }
      n := Min(n, |rest|);
      err := n == 0 && rest == [];
      forall i | 0 <= i < n {
        buf[w + i] := rest[i];
      }
      rest := rest[n..];
    }
  }

  /** Positions of method and target in the buffer, and what the header lines said. */
  datatype Pieces = Pieces(verbLo: nat, verbHi: nat, targetLo: nat, targetHi: nat, framing: Framing) {
    predicate Within(n: nat) {
      verbLo <= verbHi <= n && targetLo <= targetHi <= n
    }

    function Verb(all: Bytes): Bytes
      requires Within(|all|)
    {
      all[verbLo..verbHi]
    }

    function Target(all: Bytes): Bytes
      requires Within(|all|)
    {
      all[targetLo..targetHi]
    }
  }

  class RawConn {
    const c: Conn
    const buf: array<Byte>
    var r: nat
    var w: nat

    ghost predicate Valid()
      reads this
    {
      buf.Length == BUF_SIZE && r <= w <= BUF_SIZE
    }

    ghost function Window(): Bytes
      requires Valid()
      reads this, buf
    {
      buf[r..w]
    }

    /** The bytes of the stream not consumed yet: those buffered and those still to come. */
    ghost function Unread(): Bytes
      requires Valid()
      reads this, buf, c
    {
      Window() + c.rest
    }

    constructor (c: Conn)
      ensures Valid() && this.c == c && fresh(buf) && r == w == 0
    {
      this.c, buf, r, w := c, new Byte[BUF_SIZE](_ => 0), 0, 0;
    }

    /** copy(buf, buf[r:w]); w -= r; r = 0. */
    method Compact()
      requires Valid()
      modifies this, buf
      ensures Valid() && r == 0 && Window() == old(Window())
    {
      ghost var win := Window();
      var n := w - r;
      for i := 0 to n
        invariant r == old(r) && w == old(w)
        invariant forall k | 0 <= k < i :: buf[k] == win[k]
        invariant forall k | i <= k < n :: buf[r + k] == win[k]
      {
        buf[i] := buf[r + i];
      }
      r, w := 0, n;
    }

    /** fill: compacts, then reads once.  The unread bytes stay what they were; it fails only
        when the window fills the buffer or the stream is over. */
    method Fill() returns (ok: bool)
      requires Valid()
      modifies this, buf, c
      ensures Valid() && r == 0 && Unread() == old(Unread()) && old(Window()) <= Window()
      ensures ok ==> |c.rest| + |c.sizes| < old(|c.rest| + |c.sizes|)
      ensures !ok ==> Window() == old(Window()) && (w == BUF_SIZE || c.rest == [])
    {
      if r > 0 {
        Compact();
      }
      if w == buf.Length {
        return false;
      }
      ok := Refill();
    }

    /** One read behind the window. */
    method Refill() returns (ok: bool)
      requires Valid() && w < BUF_SIZE
      modifies `w, buf, c
      ensures Valid() && Unread() == old(Unread()) && old(Window()) <= Window()
      ensures ok ==> |c.rest| + |c.sizes| < old(|c.rest| + |c.sizes|)
      ensures !ok ==> Window() == old(Window()) && c.rest == []
    {
      ghost var (win, rest) := (Window(), c.rest);
      var n, err := c.Read(buf, w);
      assert buf[r..w] == win;
      assert buf[r..w + n] == buf[r..w] + buf[w..w + n];
      assert win + rest == (win + rest[..n]) + rest[n..];
      w := w + n;
      return n > 0 || !err;
    }

    /** Looks for the end of the head, reading as needed. */
    method LocateHead() returns (headEnd: Option<nat>)
      requires Valid()
      modifies this, buf, c
      ensures Valid() && Unread() == old(Unread())
      ensures headEnd.Some? ==> headEnd.value + 4 <= w - r && headEnd == Index(Unread(), CRLF2)
      ensures headEnd.None? ==> NextRequest(Unread()) == Close
    {
      hide Index, NextRequest;
      while true
        invariant Valid() && Unread() == old(Unread())
        decreases |c.rest| + |c.sizes|
      {
        IndexPrefix(Window(), Unread(), CRLF2);
        headEnd := Index(buf[r..w], CRLF2);
        if headEnd.Some? {
          return;
        }
        var ok := Fill();
        if !ok {
          NoHead(Window(), Unread());
          return;
        }
      }
    }

    /** Reads until n bytes of body are buffered, and takes them. */
    method ReadBody(n: nat) returns (body: Option<Bytes>)
      requires Valid() && n <= BODY_LIMIT
      modifies this, buf, c
      ensures Valid()
      ensures body == if n <= |old(Unread())| then Some(old(Unread())[..n]) else None
      ensures body.Some? ==> Unread() == old(Unread())[n..]
    {
      while w - r < n
        invariant Valid() && Unread() == old(Unread())
        decreases |c.rest| + |c.sizes|
      {
        var more := Fill();
        if !more {
          return None;
        }
      }
      body := Some(buf[r..r + n]);
      ghost var s := Unread();
      assert s[..n] == buf[r..w][..n] == buf[r..r + n];
      assert s[n..] == buf[r..w][n..] + c.rest;
      r := r + n;
    }

    /** Steps over the head and its blank line. */
    method SkipHead(n: nat)
      requires Valid() && n <= w - r
      modifies `r
      ensures Valid() && Unread() == old(Unread())[n..]
    {
      ghost var s := Unread();
      assert s[n..] == buf[r..w][n..] + c.rest;
      r := r + n;
    }

    /** Where the pieces of the head at r lie in the buffer.  They are positions, as the
        source's slices are: what they name changes when the buffer is compacted. */
    method ScanHead(headEnd: nat) returns (pieces: Option<Pieces>)
      requires Valid() && headEnd <= w - r
      ensures match ParseHead(buf[r..r + headEnd])
              case None => pieces.None?
              case Some(h) =>
                && pieces.Some? && pieces.value.Within(w)
                && pieces.value.Verb(buf[..]) == h.verb && pieces.value.Target(buf[..]) == h.target
                && pieces.value.framing == h.framing
    {
      hide Fields, Lines, ParseReqLine, LineEnd, ParseHead;
      ghost var all: Bytes := buf[..];
      var head := buf[r..r + headEnd];
      assert head == all[r..r + headEnd];
      NoPieces(head);
      var lineEnd := LineEnd(head);
      var line := ParseReqLine(head[..lineEnd]);
      if line.None? {
        return None;
      }
      var framing := ReadFields(head[Min(lineEnd + 2, |head|)..], line.value.http11);
      if framing.None? {
        return None;
      }
      var (sp1, sp2) := (line.value.sp1, line.value.sp2);
      HeadPieces(all, r, headEnd, line.value, framing.value);
      return Some(Pieces(r, r + sp1, r + sp1 + 1, r + sp2, framing.value));
    }

    /** One pass of the loop up to the dispatch.  Method and target are copied out of the
        buffer while the head is still where ScanHead found it: reading the body may compact
        the buffer, and Fill promises nothing about positions. */
    method ReadRequest() returns (req: Option<Request>)
      requires Valid()
      modifies this, buf, c
      ensures Valid()
      ensures match NextRequest(old(Unread()))
              case Close => req.None?
              case Serve(q, rest) => req == Some(q) && Unread() == rest
    {
      hide Index, NextRequest, ParseHead, PathOf, QueryOf;
      ghost var s := Unread();
      var headEnd := LocateHead();
      if headEnd.None? {
        return None;
      }
      HeadIs(s, headEnd.value);
      assert s[..headEnd.value] == buf[r..w][..headEnd.value] == buf[r..r + headEnd.value];
      var pieces := ScanHead(headEnd.value);
      if pieces.None? {
        return None;
      }
      var verb := pieces.value.Verb(buf[..]);
      var target := pieces.value.Target(buf[..]);
      var framing := pieces.value.framing;
      assert ParseHead(s[..headEnd.value]) == Some(Head(verb, target, framing));
      SkipHead(headEnd.value + 4);
      if framing.contentLen > BODY_LIMIT {
        return None;
      }
      var body := ReadBody(framing.contentLen);
      if body.None? {
        return None;
      }
      return Some(Request(verb, PathOf(target), QueryOf(target), body.value, !framing.keepAlive));
    }

    /** serveRawConn: for every stream and every way reads split it, the requests dispatched
        are those of the whole stream at once.  okWrites responses can be written before a
        write fails. */
    method Serve(okWrites: nat) returns (log: seq<Request>)
      requires Valid() && r == w == 0
      modifies this, buf, c
      ensures log == Dispatched(old(c.rest), okWrites)
    {
      hide NextRequest, Dispatched;
      log := [];
      var writes := okWrites;
      assert Unread() == c.rest;
      while true
        invariant Valid()
        invariant log + Dispatched(Unread(), writes) == Dispatched(old(c.rest), okWrites)
        decreases |Unread()|
      {
        DispatchNext(Unread(), writes);
        var req := ReadRequest();
        if req.None? {
          return;
        }
        log := log + [req.value];
        if writes == 0 || req.value.close {
          return;
        }
        writes := writes - 1;
      }
    }
  }

  lemma SubSlice(all: Bytes, r: nat, n: nat, e: nat, a: nat, b: nat)
    requires r + n <= |all| && a <= b <= e <= n
    ensures all[r..r + n][..e][a..b] == all[r + a..r + b]
  {
    var (x, y) := (all[r..r + n][..e][a..b], all[r + a..r + b]);
    forall i | 0 <= i < b - a ensures x[i] == y[i] {
      assert all[r..r + n][..e][a + i] == all[r + a + i];
    }
  }

  lemma NoPieces(head: Bytes)
    ensures match ParseReqLine(head[..LineEnd(head)])
            case None => ParseHead(head).None?
            case Some(q) => Fields(Lines(HeaderPart(head)), Framing(0, q.http11)).None? ==> ParseHead(head).None?
  {
    hide Fields, Lines, ParseReqLine, LineEnd;
  }

  lemma HeadPieces(all: Bytes, r: nat, n: nat, q: ReqLine, f: Framing)
    requires r + n <= |all| && q.sp1 < q.sp2 < LineEnd(all[r..r + n])
    requires var head := all[r..r + n];
      ParseReqLine(head[..LineEnd(head)]) == Some(q) && Fields(Lines(HeaderPart(head)), Framing(0, q.http11)) == Some(f)
    ensures var p := Pieces(r, r + q.sp1, r + q.sp1 + 1, r + q.sp2, f);
      p.Within(|all|) && p.Within(r + n) && ParseHead(all[r..r + n]) == Some(Head(p.Verb(all), p.Target(all), f))
  {
    hide Fields, Lines, ParseReqLine, LineEnd, HeaderPart;
    var e := LineEnd(all[r..r + n]);
    SubSlice(all, r, n, e, 0, q.sp1);
    SubSlice(all, r, n, e, q.sp1 + 1, q.sp2);
  }

  /** A full window, or the whole stream, without the end of a head. */
  lemma NoHead(t: Bytes, s: Bytes)
    requires t <= s && Index(t, CRLF2).None? && (t == s || |t| == BUF_SIZE)
    ensures NextRequest(s) == Close
  {
    IndexPrefix(t, s, CRLF2);
  }

  /** What the next request is, once the end of its head is known. */
  lemma HeadIs(s: Bytes, i: nat)
    requires Index(s, CRLF2) == Some(i) && i + 4 <= |s| && i + 4 <= BUF_SIZE
    ensures NextRequest(s) == AfterHead(ParseHead(s[..i]), s[i + 4..])
  {
    hide AfterHead, ParseHead, Index, OccursAt;
  }

  lemma DispatchNext(s: Bytes, okWrites: nat)
    ensures NextRequest(s) == Close ==> Dispatched(s, okWrites) == []
    ensures NextRequest(s).Serve? ==>
      var (req, rest) := (NextRequest(s).req, NextRequest(s).rest);
      |rest| < |s| && Dispatched(s, okWrites) == [req] + if req.close || okWrites == 0 then [] else Dispatched(rest, okWrites - 1)
  {
    hide NextRequest;
  }
}
