/** The text of write-ahead log records: one JSON object on one line.  The reader is a
    deterministic automaton over the bytes of a line. */
module WalCodec {
  import opened Options
  import opened Sha256
  import opened Wire

  /** A price is its JSON number text. */
  predicate IsNumber(p: Bytes) {
    p != [] && forall b | b in p :: IsNumberByte(b)
  }

  /** 0-9 + - . e */
  predicate IsNumberByte(b: Byte) {
    IsDigit(b) || b == 43 || b == 45 || b == 46 || b == 101
  }

  type Price = p: Bytes | IsNumber(p) witness [48]

  datatype Entry = Entry(symbol: Bytes, price: Price)

  // ---------------------------------------------------------------------------------
  // Writing
  // ---------------------------------------------------------------------------------

  const QUOTE: Byte := 34
  const BACKSLASH: Byte := 92

  /** Bytes a JSON string cannot or does not carry raw: controls, quote, backslash, < > &. */
  predicate Special(b: Byte) {
    b < 32 || b == QUOTE || b == BACKSLASH || b == 60 || b == 62 || b == 38
  }

  function EscapeByte(b: Byte): Bytes {
    if Special(b) then [BACKSLASH, 117, 48, 48, HexDigit(b / 16), HexDigit(b % 16)] else [b]
  }

  function Escape(s: Bytes): Bytes {
    if s == [] then [] else EscapeByte(s[0]) + Escape(s[1..])
  }

  /** {"symbol":" */
  const OPEN: Bytes := [123, 34, 115, 121, 109, 98, 111, 108, 34, 58, 34]
  /** ","price": */
  const MIDDLE: Bytes := [34, 44, 34, 112, 114, 105, 99, 101, 34, 58]
  const BRACE: Byte := 125

  lemma Punctuation()
    ensures OPEN == Ascii("{\"symbol\":\"") && MIDDLE == Ascii("\",\"price\":") && [BRACE] == Ascii("}")
  {
  }

  function Encode(e: Entry): Bytes {
    OPEN + Escape(e.symbol) + MIDDLE + e.price + [BRACE]
  }

  // ---------------------------------------------------------------------------------
  // Reading
  // ---------------------------------------------------------------------------------

  /** Where the reader stands: inside or before the opening or middle text, inside the symbol, after a
      backslash, among the four hex digits of an escape, in the number, behind the closing
      brace, or stuck. */
  datatype Reader =
    | Opening(k: nat)
    | InSymbol(s: Bytes)
    | Escaped(s: Bytes)
    | InHex(s: Bytes, ds: Bytes)
    | Between(k: nat, s: Bytes)
    | InPrice(s: Bytes, p: Bytes)
    | Finished(e: Entry)
    | Stuck

  function HexValue(d: Byte): Option<nat> {
    if IsDigit(d) then Some(d as int - 48) else if 97 <= d <= 102 then Some(d as int - 87) else None
  }

  /** White space that JSON allows around a value, line feeds aside. */
  predicate IsSpace(b: Byte) {
    b == SP || b == HTAB || b == CR
  }

  predicate Blank(t: Bytes) {
    forall b | b in t :: IsSpace(b)
  }

  function ReadByte(q: Reader, b: Byte): Reader {
    match q
    case Opening(k) =>
      if k == 0 && IsSpace(b) then q
      else if k < |OPEN| && b == OPEN[k] then (if k + 1 == |OPEN| then InSymbol([]) else Opening(k + 1))
      else Stuck
    case InSymbol(s) =>
      if b == BACKSLASH then Escaped(s) else if b == QUOTE then Between(1, s) else if b < 32 then Stuck else InSymbol(s + [b])
    case Escaped(s) => if b == 117 then InHex(s, []) else Stuck
    case InHex(s, ds) =>
      if HexValue(b).None? then Stuck
      else if |ds| < 3 then InHex(s, ds + [b])
      else if ds[0] == 48 && ds[1] == 48 && HexValue(ds[2]).Some? then
        InSymbol(s + [HexValue(ds[2]).value * 16 + HexValue(b).value])
      else Stuck
    case Between(k, s) =>
      if k < |MIDDLE| && b == MIDDLE[k] then (if k + 1 == |MIDDLE| then InPrice(s, []) else Between(k + 1, s)) else Stuck
    case InPrice(s, p) =>
      if IsNumberByte(b) then InPrice(s, p + [b])
      else if b == BRACE && IsNumber(p) then Finished(Entry(s, p)) else Stuck
    case Finished(_) => if IsSpace(b) then q else Stuck
    case Stuck => Stuck
  }

  function ReadAll(q: Reader, line: Bytes): Reader
    decreases |line|
  {
    if line == [] then q else ReadAll(ReadByte(q, line[0]), line[1..])
  }

  /** json.Unmarshal of a line and the check that its symbol is not empty. */
  function Decode(line: Bytes): Option<Entry> {
    match ReadAll(Opening(0), line)
    case Finished(e) => if e.symbol == [] then None else Some(e)
    case _ => None
  }

  lemma {:induction false} ReadConcat(q: Reader, a: Bytes, b: Bytes)
    ensures ReadAll(q, a + b) == ReadAll(ReadAll(q, a), b)
    decreases |a|
  {
    if a == [] {
      assert a + b == b;
    } else {
      assert (a + b)[0] == a[0] && (a + b)[1..] == a[1..] + b;
      ReadConcat(ReadByte(q, a[0]), a[1..], b);
    }
  }

  lemma ReadOne(q: Reader, b: Byte)
    ensures ReadAll(q, [b]) == ReadByte(q, b)
  {
    assert [b][1..] == [];
  }

  lemma ReadCons(q: Reader, b: Byte, rest: Bytes)
    ensures ReadAll(q, [b] + rest) == ReadAll(ReadByte(q, b), rest)
  {
    assert ([b] + rest)[1..] == rest;
  }

  lemma ReadNothing(q: Reader)
    ensures ReadAll(q, []) == q
  {
  }

  lemma {:induction false} ReadOpening(k: nat)
    requires k < |OPEN|
    ensures ReadAll(Opening(k), OPEN[k..]) == InSymbol([])
    decreases |OPEN| - k
  {
    hide ReadAll;
    assert OPEN[0] == 123;
    assert OPEN[k..] == [OPEN[k]] + OPEN[k + 1..];
    ReadCons(Opening(k), OPEN[k], OPEN[k + 1..]);
    if k + 1 < |OPEN| {
      ReadOpening(k + 1);
    } else {
      assert OPEN[k + 1..] == [];
      ReadNothing(InSymbol([]));
    }
  }

  lemma {:induction false} ReadMiddle(k: nat, s: Bytes)
    requires 1 <= k < |MIDDLE|
    ensures ReadAll(Between(k, s), MIDDLE[k..]) == InPrice(s, [])
    decreases |MIDDLE| - k
  {
    assert MIDDLE[k..][1..] == MIDDLE[k + 1..];
    if k + 1 < |MIDDLE| {
      ReadMiddle(k + 1, s);
    } else {
      assert MIDDLE[k + 1..] == [];
    }
  }

  lemma HexDigitValue(n: nat)
    requires n < 16
    ensures HexValue(HexDigit(n)) == Some(n)
  {
  }

  lemma HexSteps(s: Bytes, b: Byte)
    ensures ReadByte(InSymbol(s), BACKSLASH) == Escaped(s) && ReadByte(Escaped(s), 117) == InHex(s, [])
    ensures ReadByte(InHex(s, []), 48) == InHex(s, [48]) && ReadByte(InHex(s, [48]), 48) == InHex(s, [48, 48])
    ensures var (x, y) := (HexDigit(b / 16), HexDigit(b % 16));
      && ReadByte(InHex(s, [48, 48]), x) == InHex(s, [48, 48, x])
      && ReadByte(InHex(s, [48, 48, x]), y) == InSymbol(s + [b])
  {
    HexDigitValue(b / 16);
    HexDigitValue(b % 16);
    hide HexDigit;
    var no: Bytes := [];
    assert no + [48] == [48] && [48] + [48] == [48, 48];
    assert [48, 48] + [HexDigit(b / 16)] == [48, 48, HexDigit(b / 16)];
  }

  lemma ReadEscapeByte(s: Bytes, b: Byte)
    ensures ReadAll(InSymbol(s), EscapeByte(b)) == InSymbol(s + [b])
  {
    if Special(b) {
      var (x, y) := (HexDigit(b / 16), HexDigit(b % 16));
      assert EscapeByte(b) == [BACKSLASH] + ([117] + ([48] + ([48] + ([x] + [y]))));
      HexSteps(s, b);
      hide ReadAll, ReadByte, HexValue;
      ReadCons(InSymbol(s), BACKSLASH, [117] + ([48] + ([48] + ([x] + [y]))));
      ReadCons(Escaped(s), 117, [48] + ([48] + ([x] + [y])));
      ReadCons(InHex(s, []), 48, [48] + ([x] + [y]));
      ReadCons(InHex(s, [48]), 48, [x] + [y]);
      ReadCons(InHex(s, [48, 48]), x, [y]);
      ReadOne(InHex(s, [48, 48, x]), y);
    } else {
      ReadOne(InSymbol(s), b);
    }
  }

  lemma {:induction false} ReadEscape(s: Bytes, t: Bytes)
    ensures ReadAll(InSymbol(s), Escape(t)) == InSymbol(s + t)
    decreases |t|
  {
    hide EscapeByte;
    if t == [] {
      assert s + t == s;
    } else {
      ReadConcat(InSymbol(s), EscapeByte(t[0]), Escape(t[1..]));
      ReadEscapeByte(s, t[0]);
      ReadEscape(s + [t[0]], t[1..]);
      assert s + [t[0]] + t[1..] == s + t;
    }
  }

  lemma {:induction false} ReadPrice(s: Bytes, p: Bytes, t: Bytes)
    requires forall b | b in t :: IsNumberByte(b)
    ensures ReadAll(InPrice(s, p), t) == InPrice(s, p + t)
    decreases |t|
  {
    hide IsNumberByte;
    if t == [] {
      assert p + t == p;
    } else {
      ReadPrice(s, p + [t[0]], t[1..]);
      assert p + [t[0]] + t[1..] == p + t;
    }
  }

  /** The reader gets every entry back from its text. */
  lemma ReadEncode(e: Entry)
    ensures ReadAll(Opening(0), Encode(e)) == Finished(e)
  {
    hide ReadAll, ReadByte, Escape;
    var s := Escape(e.symbol);
    assert OPEN[0..] == OPEN;
    ReadOpening(0);
    ReadEscape([], e.symbol);
    assert [] + e.symbol == e.symbol;
    CloseSymbol(e.symbol);
    ReadPrice(e.symbol, [], e.price);
    assert [] + e.price == e.price;
    CloseObject(e);
    ReadConcat(Opening(0), OPEN, s);
    ReadConcat(Opening(0), OPEN + s, MIDDLE);
    ReadConcat(Opening(0), OPEN + s + MIDDLE, e.price);
    ReadConcat(Opening(0), OPEN + s + MIDDLE + e.price, [BRACE]);
  }

  lemma CloseSymbol(s: Bytes)
    ensures ReadAll(InSymbol(s), MIDDLE) == InPrice(s, [])
  {
    ReadMiddle(1, s);
  }

  lemma CloseObject(e: Entry)
    ensures ReadAll(InPrice(e.symbol, e.price), [BRACE]) == Finished(e)
  {
    ReadOne(InPrice(e.symbol, e.price), BRACE);
  }

  /** Round trip of a record. */
  lemma DecodeEncode(e: Entry)
    ensures Decode(Encode(e)) == if e.symbol == [] then None else Some(e)
  {
    hide ReadAll, Encode;
    ReadEncode(e);
  }

  lemma {:induction false} StuckForever(line: Bytes)
    ensures ReadAll(Stuck, line) == Stuck
  {
    if line != [] {
      StuckForever(line[1..]);
    }
  }

  lemma {:induction false} AfterFinished(e: Entry, t: Bytes)
    ensures ReadAll(Finished(e), t) == if Blank(t) then Finished(e) else Stuck
  {
    if t != [] {
      AfterFinished(e, t[1..]);
      if IsSpace(t[0]) {
        assert Blank(t) <==> Blank(t[1..]) by {
          assert t == [t[0]] + t[1..];
        }
      } else {
        assert t[0] in t;
        StuckForever(t[1..]);
      }
    }
  }

  /** No proper prefix of a record's text is a record. */
  lemma PrefixIsTorn(e: Entry, t: Bytes)
    requires t < Encode(e)
    ensures Decode(t) == None
  {
    hide Encode, ReadAll, ReadByte;
    ReadEncode(e);
    var rest := Encode(e)[|t|..];
    assert Encode(e) == t + rest;
    ReadConcat(Opening(0), t, rest);
    var q := ReadAll(Opening(0), t);
    EncodeEnds(e);
    assert rest[|rest| - 1] == BRACE && BRACE in rest && !IsSpace(BRACE);
    if q.Finished? {
      AfterFinished(q.e, rest);
    }
  }

  lemma EncodeEnds(e: Entry)
    ensures Encode(e) != [] && Encode(e)[|Encode(e)| - 1] == BRACE
  {
  }

  predicate Moved(q: Reader) {
    q.Opening? ==> q.k > 0
  }

  lemma {:induction false} NeverBack(q: Reader, line: Bytes)
    requires Moved(q) || !Blank(line)
    ensures Moved(ReadAll(q, line))
    decreases |line|
  {
    if line != [] {
      assert line == [line[0]] + line[1..];
      NeverBack(ReadByte(q, line[0]), line[1..]);
    }
  }

  lemma {:induction false} SkipBlank(t: Bytes)
    requires Blank(t)
    ensures ReadAll(Opening(0), t) == Opening(0)
  {
    if t != [] {
      assert t[0] in t;
      SkipBlank(t[1..]);
    }
  }

  /** White space before a record does not matter. */
  lemma BehindBlankIsRead(t: Bytes, e: Entry)
    requires Blank(t) && e.symbol != []
    ensures Decode(t + Encode(e)) == Some(e) && Decode(t) == None
  {
    hide ReadAll, Encode;
    SkipBlank(t);
    ReadConcat(Opening(0), t, Encode(e));
    ReadEncode(e);
  }

  /** A record behind anything else on its line is not read: the reader, once it has moved,
      cannot take an opening brace and quote. */
  lemma BehindTornIsLost(t: Bytes, e: Entry)
    requires !Blank(t)
    ensures Decode(t + Encode(e)) == None
  {
    hide Encode, ReadAll, ReadByte;
    NeverBack(Opening(0), t);
    var q := ReadAll(Opening(0), t);
    ReadConcat(Opening(0), t, Encode(e));
    EncodeStarts(e);
    var rest := Encode(e)[3..];
    assert Encode(e) == [123, 34, 115] + rest;
    ReadConcat(q, [123, 34, 115], rest);
    OpeningSticks(q);
    StuckForever(rest);
  }

  lemma EncodeStarts(e: Entry)
    ensures |Encode(e)| >= 3 && Encode(e)[0] == 123 && Encode(e)[1] == 34 && Encode(e)[2] == 115
  {
  }

  lemma OpeningSticks(q: Reader)
    requires Moved(q)
    ensures ReadAll(q, [123, 34, 115]) == Stuck
  {
    var t: Bytes := [123, 34, 115];
    assert t[1..] == [34, 115] && t[1..][1..] == [115];
    ReadOne(ReadByte(ReadByte(q, 123), 34), 115);
  }

  /** A record's text holds no line feed. */
  lemma EncodeOneLine(e: Entry)
    ensures LF !in Encode(e)
  {
    EscapeOneLine(e.symbol);
    assert LF !in e.price;
  }

  lemma {:induction false} EscapeOneLine(s: Bytes)
    ensures LF !in Escape(s)
  {
    if s != [] {
      EscapeOneLine(s[1..]);
      assert LF !in EscapeByte(s[0]);
    }
  }

  // ---------------------------------------------------------------------------------
  // Symbols written without escaping
  // ---------------------------------------------------------------------------------

  /** Bytes a JSON string may carry raw. */
  predicate Raw(b: Byte) {
    b >= 32 && b != QUOTE && b != BACKSLASH
  }

  predicate AllRaw(s: Bytes) {
    forall b | b in s :: Raw(b)
  }

  lemma {:induction false} ReadRaw(s: Bytes, t: Bytes)
    requires AllRaw(t)
    ensures ReadAll(InSymbol(s), t) == InSymbol(s + t)
    decreases |t|
  {
    if t == [] {
      assert s + t == s;
    } else {
      assert t[0] in t;
      ReadRaw(s + [t[0]], t[1..]);
      assert s + [t[0]] + t[1..] == s + t;
    }
  }

  /** The symbol a reader has so far, past the opening. */
  function SymbolOf(q: Reader): Bytes
    requires !q.Opening? && !q.Stuck?
  {
    match q
    case InSymbol(s) => s
    case Escaped(s) => s
    case InHex(s, _) => s
    case Between(_, s) => s
    case InPrice(s, _) => s
    case Finished(e) => e.symbol
  }

  /** The symbol is closed: it will not change any more. */
  predicate Closed(q: Reader) {
    q.Between? || q.InPrice? || q.Finished?
  }

  lemma {:induction false} ClosedStays(q: Reader, t: Bytes)
    requires Closed(q)
    ensures var q' := ReadAll(q, t); q'.Stuck? || (Closed(q') && SymbolOf(q') == SymbolOf(q))
    decreases |t|
  {
    if t != [] {
      var r := ReadByte(q, t[0]);
      if r.Stuck? {
        StuckForever(t[1..]);
      } else {
        ClosedStays(r, t[1..]);
      }
    }
  }

  /** A symbol grows by at most one byte for each byte read. */
  lemma {:induction false} SymbolGrows(q: Reader, t: Bytes)
    requires !q.Opening? && !q.Stuck?
    ensures var q' := ReadAll(q, t); !q'.Opening? && (q'.Stuck? || |SymbolOf(q')| <= |SymbolOf(q)| + |t|)
    decreases |t|
  {
    if t != [] {
      var r := ReadByte(q, t[0]);
      if r.Stuck? {
        StuckForever(t[1..]);
      } else {
        SymbolGrows(r, t[1..]);
      }
    }
  }

  /** A byte that cannot stand raw leaves the symbol short of the bytes read. */
  lemma {:induction false} NotRawFallsShort(s: Bytes, t: Bytes)
    requires !AllRaw(t)
    ensures var q := ReadAll(InSymbol(s), t); !q.Opening? && (q.Stuck? || |SymbolOf(q)| < |s| + |t|)
    decreases |t|
  {
    var r := ReadByte(InSymbol(s), t[0]);
    if Raw(t[0]) {
      assert t == [t[0]] + t[1..];
      NotRawFallsShort(s + [t[0]], t[1..]);
    } else if r.Stuck? {
      StuckForever(t[1..]);
    } else {
      SymbolGrows(r, t[1..]);
    }
  }

  /** The text of an entry whose symbol is written as it is. */
  function RawText(s: Bytes, p: Price): Bytes {
    OPEN + s + MIDDLE + p + [BRACE]
  }

  lemma ReadRawText(s: Bytes, p: Price)
    ensures ReadAll(Opening(0), RawText(s, p)) == ReadAll(ReadAll(InSymbol([]), s), MIDDLE + p + [BRACE])
  {
    hide ReadAll, ReadByte;
    assert OPEN[0..] == OPEN;
    ReadOpening(0);
    ReadConcat(Opening(0), OPEN, s);
    ReadConcat(Opening(0), OPEN + s, MIDDLE + p + [BRACE]);
    assert RawText(s, p) == OPEN + s + (MIDDLE + p + [BRACE]);
  }

  lemma FinishRaw(s: Bytes, p: Price)
    ensures ReadAll(InSymbol(s), MIDDLE + p + [BRACE]) == Finished(Entry(s, p))
  {
    hide ReadAll, ReadByte;
    CloseSymbol(s);
    ReadPrice(s, [], p);
    assert [] + p == p;
    CloseObject(Entry(s, p));
    ReadConcat(InSymbol(s), MIDDLE, p);
    ReadConcat(InSymbol(s), MIDDLE + p, [BRACE]);
  }

  /** A reader that is not plainly inside the symbol when the closing quote comes never gets a
      longer symbol. */
  lemma CloseShort(q: Reader, p: Price)
    requires !q.Opening? && !q.Stuck? && !q.InSymbol?
    ensures var q' := ReadAll(q, MIDDLE + p + [BRACE]); q'.Stuck? || (Closed(q') && SymbolOf(q') == SymbolOf(q))
  {
    var t := MIDDLE + p + [BRACE];
    if Closed(q) {
      ClosedStays(q, t);
    } else {
      assert t[0] == QUOTE;
      assert ReadByte(q, QUOTE) == Stuck;
      StuckForever(t[1..]);
    }
  }

  /** Text with an unescaped symbol is read back as its entry if and only if the symbol is not
      empty and every byte of it may stand raw in a JSON string. */
  lemma RawTextReadable(s: Bytes, p: Price)
    ensures Decode(RawText(s, p)) == Some(Entry(s, p)) <==> s != [] && AllRaw(s)
  {
    hide ReadAll, ReadByte, RawText;
    ReadRawText(s, p);
    if AllRaw(s) {
      ReadRaw([], s);
      assert [] + s == s;
      FinishRaw(s, p);
    } else {
      NotRawFallsShort([], s);
      var q := ReadAll(InSymbol([]), s);
      if q.Stuck? {
        StuckForever(MIDDLE + p + [BRACE]);
      } else if q.InSymbol? {
        FinishRaw(q.s, p);
      } else {
        CloseShort(q, p);
      }
    }
  }
}
