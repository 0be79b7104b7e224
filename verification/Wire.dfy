/** Bytes on the wire: ASCII literals, searching, lines, and decimal numbers. */
module Wire {
  import opened Options
  import opened Sha256

  type Bytes = seq<Byte>

  /** The bytes of an ASCII literal. */
  function Ascii(s: string): (b: Bytes)
    ensures |b| == |s|
  {
    seq(|s|, i requires 0 <= i < |s| => if s[i] as int < 128 then s[i] as int else 63)
  }

  const CR: Byte := 13
  const LF: Byte := 10
  const SP: Byte := 32
  const HTAB: Byte := 9
  const COLON: Byte := 58
  const QUESTION: Byte := 63
  const CRLF: Bytes := [13, 10]
  const CRLF2: Bytes := [13, 10, 13, 10]

  // ---------------------------------------------------------------------------------
  // bytes.Index, bytes.IndexByte and bytes.LastIndexByte
  // ---------------------------------------------------------------------------------

  predicate OccursAt(s: Bytes, pat: Bytes, i: nat) {
    i + |pat| <= |s| && s[i..i + |pat|] == pat
  }

  /** Where pat first occurs in s. */
  function Index(s: Bytes, pat: Bytes): (r: Option<nat>)
    ensures r.Some? ==> OccursAt(s, pat, r.value)
  {
    if |s| < |pat| then None
    else if s[..|pat|] == pat then Some(0)
    else if s == [] then None
    else
      match Index(s[1..], pat)
      case None => None
      case Some(i) =>
        assert s[1..][i..i + |pat|] == s[i + 1..i + 1 + |pat|];
        Some(i + 1)
  }

  function IndexByte(s: Bytes, b: Byte): (r: Option<nat>)
    ensures r.Some? ==> r.value < |s| && s[r.value] == b && b !in s[..r.value]
    ensures r.None? ==> b !in s
  {
    if s == [] then None
    else if s[0] == b then Some(0)
    else match IndexByte(s[1..], b) case None => None case Some(i) => Some(i + 1)
  }

  function LastIndexByte(s: Bytes, b: Byte): (r: Option<nat>)
    ensures r.Some? ==> r.value < |s| && s[r.value] == b && b !in s[r.value + 1..]
    ensures r.None? ==> b !in s
  {
    if s == [] then None
    else if s[|s| - 1] == b then Some(|s| - 1)
    else LastIndexByte(s[..|s| - 1], b)
  }

  /** Index finds the first occurrence. */
  lemma {:induction false} IndexFirst(s: Bytes, pat: Bytes, i: nat)
    requires OccursAt(s, pat, i)
    ensures Index(s, pat).Some? && Index(s, pat).value <= i
  {
    if i > 0 && s[..|pat|] != pat {
      assert s[1..][i - 1..i - 1 + |pat|] == s[i..i + |pat|];
      IndexFirst(s[1..], pat, i - 1);
    }
  }

  function Shift(r: Option<nat>, d: nat): Option<nat> {
    match r case None => None case Some(i) => Some(d + i)
  }

  /** If the occurrences in s are those in t, d later, so is the first one. */
  lemma IndexShifts(s: Bytes, t: Bytes, pat: Bytes, d: nat)
    requires forall i: nat :: OccursAt(s, pat, i) <==> d <= i && OccursAt(t, pat, i - d)
    ensures Index(s, pat) == Shift(Index(t, pat), d)
  {
    hide Index, OccursAt;
    if Index(s, pat).Some? {
      var i := Index(s, pat).value;
      assert OccursAt(t, pat, i - d);
      IndexFirst(t, pat, i - d);
      var j := Index(t, pat).value;
      assert OccursAt(s, pat, j + d) by {
        assert j + d - d == j;
      }
      IndexFirst(s, pat, j + d);
    } else if Index(t, pat).Some? {
      var j := Index(t, pat).value;
      assert OccursAt(s, pat, j + d) by {
        assert j + d - d == j;
      }
      IndexFirst(s, pat, j + d);
    }
  }

  /** What is found in a prefix is found in the whole; what is found in the whole and lies
      inside the prefix is found there. */
  lemma IndexPrefix(t: Bytes, s: Bytes, pat: Bytes)
    requires t <= s
    ensures Index(t, pat).Some? ==> Index(s, pat) == Index(t, pat)
    ensures Index(s, pat).Some? && Index(s, pat).value + |pat| <= |t| ==> Index(t, pat) == Index(s, pat)
  {
    hide Index;
    if Index(t, pat).Some? {
      PrefixOccurs(t, s, pat, Index(t, pat).value);
      IndexFirst(s, pat, Index(t, pat).value);
    }
    if Index(s, pat).Some? && Index(s, pat).value + |pat| <= |t| {
      PrefixOccurs(t, s, pat, Index(s, pat).value);
      IndexFirst(t, pat, Index(s, pat).value);
    }
  }

  lemma PrefixOccurs(t: Bytes, s: Bytes, pat: Bytes, i: nat)
    requires t <= s && i + |pat| <= |t|
    ensures OccursAt(t, pat, i) == OccursAt(s, pat, i)
  {
    assert t[i..i + |pat|] == s[i..i + |pat|];
  }

  /** In a + b, a without the byte c, the first c of b is the first c. */
  lemma {:induction false} IndexByteSkips(a: Bytes, b: Bytes, c: Byte)
    requires c !in a
    ensures IndexByte(a + b, c) == Shift(IndexByte(b, c), |a|)
  {
    if a == [] {
      assert a + b == b;
    } else {
      assert (a + b)[0] == a[0] && (a + b)[1..] == a[1..] + b;
      IndexByteSkips(a[1..], b, c);
    }
  }

  // ---------------------------------------------------------------------------------
  // CRLF-separated lines
  // ---------------------------------------------------------------------------------

  function Lines(s: Bytes): seq<Bytes> {
    if s == [] then []
    else match Index(s, CRLF)
      case None => [s]
      case Some(j) => [s[..j]] + Lines(s[j + 2..])
  }

  function Join(ls: seq<Bytes>): Bytes {
    if ls == [] then [] else if |ls| == 1 then ls[0] else ls[0] + CRLF + Join(ls[1..])
  }

  /** Text that can stand on a line of its own. */
  predicate IsLine(l: Bytes) {
    l != [] && CR !in l
  }

  /** A pattern that starts with CR does not start inside text without CR. */
  lemma IndexSkips(l: Bytes, pat: Bytes, t: Bytes)
    requires CR !in l && pat != [] && pat[0] == CR
    ensures Index(l + t, pat) == Shift(Index(t, pat), |l|)
  {
    hide Index;
    var s := l + t;
    forall i: nat ensures OccursAt(s, pat, i) <==> |l| <= i && OccursAt(t, pat, i - |l|) {
      if i + |pat| <= |s| {
        if i < |l| {
          assert s[i..i + |pat|][0] == l[i];
        } else {
          assert s[i..i + |pat|] == t[i - |l|..i - |l| + |pat|];
        }
      }
    }
    IndexShifts(s, t, pat, |l|);
  }

  /** A line break before text that does not start with CR begins no blank line. */
  lemma IndexSkipsBreak(t: Bytes)
    requires t != [] && t[0] != CR
    ensures Index(CRLF + t, CRLF2) == Shift(Index(t, CRLF2), 2)
  {
    hide Index;
    var s := CRLF + t;
    forall i: nat ensures OccursAt(s, CRLF2, i) <==> 2 <= i && OccursAt(t, CRLF2, i - 2) {
      if i + 4 <= |s| {
        if i == 0 {
          assert s[0..4][2] == t[0];
        } else if i == 1 {
          assert s[1..5][0] == LF;
        } else {
          assert s[i..i + 4] == t[i - 2..i - 2 + 4];
        }
      }
    }
    IndexShifts(s, t, CRLF2, 2);
  }

  lemma JoinTail(ls: seq<Bytes>)
    requires |ls| > 1
    ensures Join(ls) == ls[0] + CRLF + Join(ls[1..])
  {
  }

  lemma {:induction false} JoinStarts(ls: seq<Bytes>)
    requires ls != [] && forall l | l in ls :: IsLine(l)
    ensures Join(ls) != [] && Join(ls)[0] != CR
  {
    assert IsLine(ls[0]) && ls[0][0] in ls[0];
  }

  lemma FirstLine(l: Bytes, t: Bytes)
    requires IsLine(l)
    ensures Lines(l + CRLF + t) == [l] + Lines(t)
  {
    var u := CRLF + t;
    assert u[..2] == CRLF;
    assert l + CRLF + t == l + u;
    IndexSkips(l, CRLF, u);
    assert (l + u)[..|l|] == l && (l + u)[|l| + 2..] == t;
  }

  /** Lines without CR, joined, split again into the same lines. */
  lemma {:induction false} LinesOfJoin(ls: seq<Bytes>)
    requires forall l | l in ls :: IsLine(l)
    ensures Lines(Join(ls)) == ls
  {
    if ls == [] {
    } else if |ls| == 1 {
      assert ls[0] in ls;
      IndexSkips(ls[0], CRLF, []);
      assert ls[0] + [] == ls[0];
    } else {
      var t := Join(ls[1..]);
      LinesOfJoin(ls[1..]);
      FirstLine(ls[0], t);
      JoinTail(ls);
      assert ls[0] in ls;
    }
  }

  /** The blank line after joined lines is where the first CRLF CRLF is. */
  lemma {:induction false} HeadEnds(ls: seq<Bytes>, more: Bytes)
    requires ls != [] && forall l | l in ls :: IsLine(l)
    ensures Index(Join(ls) + CRLF2 + more, CRLF2) == Some(|Join(ls)|)
  {
    hide Index;
    assert IsLine(ls[0]);
    if |ls| == 1 {
      var t := CRLF2 + more;
      assert OccursAt(t, CRLF2, 0);
      IndexFirst(t, CRLF2, 0);
      IndexSkips(ls[0], CRLF2, t);
      assert Join(ls) + CRLF2 + more == ls[0] + t;
    } else {
      var t := Join(ls[1..]) + CRLF2 + more;
      HeadEnds(ls[1..], more);
      JoinTail(ls);
      JoinStarts(ls[1..]);
      assert t[0] == Join(ls[1..])[0];
      IndexSkipsBreak(t);
      IndexSkips(ls[0], CRLF2, CRLF + t);
      assert Join(ls) + CRLF2 + more == ls[0] + (CRLF + t);
    }
  }

  // ---------------------------------------------------------------------------------
  // Decimal numbers
  // ---------------------------------------------------------------------------------

  predicate IsDigit(b: Byte) {
    48 <= b <= 57
  }

  /** The number a string of digits denotes. */
  function DecValue(ds: Bytes): nat
    requires forall d | d in ds :: IsDigit(d)
  {
    if ds == [] then 0 else
      var d: int := ds[|ds| - 1];
      assert IsDigit(ds[|ds| - 1]);
      DecValue(ds[..|ds| - 1]) * 10 + (d - 48)
  }

  /** strconv.AppendInt for n >= 0. */
  function DecDigits(n: nat): (ds: Bytes)
    ensures ds != [] && forall d | d in ds :: IsDigit(d)
  {
    if n < 10 then [48 + n] else DecDigits(n / 10) + [48 + n % 10]
  }

  /** Printing and reading a number are inverse. */
  lemma {:induction false} DecRoundTrip(n: nat)
    ensures DecValue(DecDigits(n)) == n
  {
    if n >= 10 {
      DecRoundTrip(n / 10);
      var ds := DecDigits(n);
      assert ds[..|ds| - 1] == DecDigits(n / 10);
    }
  }

  function Pow10(k: nat): nat {
    if k == 0 then 1 else 10 * Pow10(k - 1)
  }

  lemma {:induction false} DecLength(n: nat, k: nat)
    requires k >= 1 && n < Pow10(k)
    ensures |DecDigits(n)| <= k
  {
    if n >= 10 {
      assert k >= 2;
      DecLength(n / 10, k - 1);
    }
  }
}
