/** The price write-ahead log: what replay finds after appends, failed syncs and a crash at
    any byte. */
module Wal {
  import opened Options
  import opened Sha256
  import opened Wire
  import opened WalCodec

  function Record(e: Entry): Bytes {
    Encode(e) + [LF]
  }

  function Log(es: seq<Entry>): Bytes {
    if es == [] then [] else Record(es[0]) + Log(es[1..])
  }

  /** The entry of a line, if it has one. */
  function EntryOf(line: Bytes): seq<Entry> {
    if line == [] then [] else match Decode(line) case None => [] case Some(e) => [e]
  }

  /** The entries replay applies, in order. */
  function Entries(data: Bytes): seq<Entry>
    decreases |data|
  {
    match IndexByte(data, LF)
    case None => EntryOf(data)
    case Some(i) => EntryOf(data[..i]) + Entries(data[i + 1..])
  }

  predicate Terminated(data: Bytes) {
    data == [] || data[|data| - 1] == LF
  }

  predicate Named(es: seq<Entry>) {
    forall e | e in es :: e.symbol != []
  }

  // ---------------------------------------------------------------------------------
  // Lines and records
  // ---------------------------------------------------------------------------------

  lemma EntriesOfLine(l: Bytes, rest: Bytes)
    requires LF !in l
    ensures Entries(l + [LF] + rest) == EntryOf(l) + Entries(rest)
  {
    hide Decode;
    var t := [LF] + rest;
    assert l + [LF] + rest == l + t;
    IndexByteSkips(l, t, LF);
    assert t[0] == LF;
    assert (l + t)[..|l|] == l && (l + t)[|l| + 1..] == rest;
  }

  /** Behind a newline-terminated log everything is read on its own. */
  lemma {:induction false} EntriesConcat(a: Bytes, b: Bytes)
    requires Terminated(a)
    ensures Entries(a + b) == Entries(a) + Entries(b)
    decreases |a|
  {
    hide EntryOf, Entries;
    if a == [] {
      assert a + b == b;
      NoLine();
    } else {
      var l, a' := SplitFirst(a);
      EntriesOfLine(l, a');
      EntriesOfLine(l, a' + b);
      EntriesConcat(a', b);
      assert a + b == l + [LF] + (a' + b);
    }
  }

  lemma SplitFirst(a: Bytes) returns (l: Bytes, a': Bytes)
    requires a != [] && Terminated(a)
    ensures a == l + [LF] + a' && LF !in l && Terminated(a')
  {
    assert LF in a;
    var i := IndexByte(a, LF).value;
    l, a' := a[..i], a[i + 1..];
  }

  lemma NoLine()
    ensures Entries([]) == []
  {
  }

  lemma RecordEntry(e: Entry, rest: Bytes)
    requires e.symbol != []
    ensures Entries(Record(e) + rest) == [e] + Entries(rest)
  {
    hide Encode, Decode, Entries;
    DecodeEncode(e);
    EncodeOneLine(e);
    EncodeStarts(e);
    EntriesOfLine(Encode(e), rest);
    assert Record(e) + rest == Encode(e) + [LF] + rest;
  }

  /** Replay of a log reads back exactly what was appended, in order. */
  lemma {:induction false} EntriesOfLog(es: seq<Entry>)
    requires Named(es)
    ensures Entries(Log(es)) == es && Terminated(Log(es))
  {
    hide Encode, Entries;
    if es == [] {
      NoLine();
    } else {
      EntriesOfLog(es[1..]);
      RecordEntry(es[0], Log(es[1..]));
      if Log(es[1..]) == [] {
        assert Record(es[0]) + Log(es[1..]) == Record(es[0]);
      }
    }
  }

  lemma {:induction false} LogConcat(a: seq<Entry>, b: seq<Entry>)
    ensures Log(a + b) == Log(a) + Log(b)
  {
    hide Record;
    if a == [] {
      assert a + b == b;
    } else {
      assert (a + b)[0] == a[0] && (a + b)[1..] == a[1..] + b;
      LogConcat(a[1..], b);
    }
  }

  /** A prefix of one record: nothing, unless the whole text of the record is there. */
  lemma TornRecord(e: Entry, t: Bytes)
    requires t <= Record(e) && e.symbol != []
    ensures Entries(t) == if Encode(e) <= t then [e] else []
  {
    hide Encode, Decode;
    EncodeOneLine(e);
    EncodeStarts(e);
    DecodeEncode(e);
    if t == Record(e) {
      RecordEntry(e, []);
      assert Record(e) + [] == t;
      NoLine();
    } else {
      assert t <= Encode(e);
      assert LF !in t;
      assert IndexByte(t, LF) == None;
      if t < Encode(e) {
        PrefixIsTorn(e, t);
      } else {
        assert t == Encode(e);
      }
    }
  }

  /** Any byte prefix of a log replays to a prefix of its entries. */
  lemma {:induction false} LogPrefix(es: seq<Entry>, x: Bytes) returns (n: nat)
    requires Named(es) && x <= Log(es)
    ensures n <= |es| && Entries(x) == es[..n]
  {
    hide Encode, Entries, Record;
    if es == [] {
      NoLine();
      n := 0;
    } else if |x| <= |Record(es[0])| {
      assert x <= Record(es[0]);
      TornRecord(es[0], x);
      n := if Encode(es[0]) <= x then 1 else 0;
    } else {
      var y := x[|Record(es[0])|..];
      assert x == Record(es[0]) + y && y <= Log(es[1..]);
      var m := LogPrefix(es[1..], y);
      RecordEntry(es[0], y);
      n := m + 1;
      assert es[..n] == [es[0]] + es[1..][..m];
    }
  }

  /** Crash recovery from a newline-terminated log: replay is the old log, then every entry
      appended in full, then the one in flight if and only if its whole text got to disk. */
  lemma CrashRecovery(before: Bytes, es: seq<Entry>, last: Entry, t: Bytes)
    requires Terminated(before) && Named(es) && last.symbol != [] && t <= Record(last)
    ensures Entries(before + Log(es) + t) == Entries(before) + es + if Encode(last) <= t then [last] else []
  {
    hide Encode, Entries, Record, Log;
    EntriesOfLog(es);
    EntriesConcat(Log(es), t);
    EntriesConcat(before, Log(es) + t);
    TornRecord(last, t);
    assert before + Log(es) + t == before + (Log(es) + t);
  }

  // ---------------------------------------------------------------------------------
  // The torn tail stays
  // ---------------------------------------------------------------------------------

  /** The complete lines of a log. */
  function Complete(data: Bytes): Bytes {
    match LastIndexByte(data, LF) case None => [] case Some(i) => data[..i + 1]
  }

  /** What follows the last complete line. */
  function Tail(data: Bytes): Bytes
    requires |Complete(data)| <= |data|
  {
    data[|Complete(data)|..]
  }

  lemma SplitTail(data: Bytes)
    ensures Complete(data) <= data && Terminated(Complete(data)) && LF !in Tail(data)
    ensures Terminated(data) <==> Complete(data) == data
  {
  }

  lemma UnterminatedLine(u: Bytes)
    requires LF !in u
    ensures Entries(u) == EntryOf(u)
  {
    hide EntryOf;
    assert IndexByte(u, LF) == None;
  }

  /** The line an append completes: the tail and the record, then whatever follows. */
  lemma AppendedLine(data: Bytes, e: Entry, more: Bytes)
    ensures Complete(data) <= data
    ensures Entries(data) == Entries(Complete(data)) + EntryOf(Tail(data))
    ensures Entries(data + Record(e) + more) == Entries(Complete(data)) + EntryOf(Tail(data) + Encode(e)) + Entries(more)
  {
    hide Encode, Decode, Entries, Complete;
    SplitTail(data);
    var (c, u) := (Complete(data), Tail(data));
    assert data == c + u;
    EncodeOneLine(e);
    EntriesOfLine(u + Encode(e), more);
    assert data + Record(e) + more == c + (u + Encode(e) + [LF] + more);
    EntriesConcat(c, u + Encode(e) + [LF] + more);
    EntriesConcat(c, u);
    UnterminatedLine(u);
  }

  /** An entry appended behind a torn tail is lost at the next replay, together with
      whatever the tail was, and so are both for good: whatever is appended later is read on
      its own. */
  lemma TornTailLoses(data: Bytes, e: Entry, more: Bytes)
    requires Complete(data) <= data && !Blank(Tail(data))
    ensures Entries(data + Record(e) + more) == Entries(Complete(data)) + Entries(more)
    ensures Entries(data) == Entries(Complete(data)) + EntryOf(Tail(data))
  {
    hide Encode, Decode, Entries, Complete;
    AppendedLine(data, e, more);
    BehindTornIsLost(Tail(data), e);
  }

  /** Replay never truncates the log, so an appended entry is found by every later replay when,
      and only when, the log it was appended to ended with a complete line, up to white space.
      (No record this program writes starts with white space, so on its own logs that means: ended
      with a newline or was empty.) */
  lemma AppendSurvives(data: Bytes, e: Entry, more: Bytes)
    requires e.symbol != []
    ensures Complete(data) <= data
    ensures Entries(data + Record(e) + more) == Entries(data) + [e] + Entries(more) <==> Blank(Tail(data))
  {
    hide Encode, Decode, Entries, Complete;
    SplitTail(data);
    AppendedLine(data, e, more);
    var u := Tail(data);
    EncodeStarts(e);
    if Blank(u) {
      BehindBlankIsRead(u, e);
    } else {
      TornTailLoses(data, e, more);
    }
  }

  /** For instance: a crash inside the very first record, then an acknowledged append. */
  lemma LostAppend()
    ensures var e := Entry([65], [49]);
      && OPEN <= Record(e) && Entries(OPEN) == [] && Entries(OPEN + Record(e)) == []
  {
    hide Encode, Entries, Blank;
    var e := Entry([65], [49]);
    EncodeOpens(e);
    OpenNotBlank();
    LostBehind(e, OPEN);
  }

  lemma LostBehind(e: Entry, u: Bytes)
    requires u < Encode(e) && !Blank(u) && e.symbol != []
    ensures Entries(u) == [] && Entries(u + Record(e)) == []
  {
    hide Encode, Entries, Blank, Decode, LastIndexByte;
    EncodeOneLine(e);
    NoComplete(u);
    TornTailLoses(u, e, []);
    assert u + Record(e) + [] == u + Record(e);
    NoLine();
    TornRecord(e, u);
  }

  lemma NoComplete(u: Bytes)
    requires LF !in u
    ensures Complete(u) == [] && Tail(u) == u
  {
  }

  lemma OpenNotBlank()
    ensures !Blank(OPEN)
  {
    assert OPEN[0] == 123 && OPEN[0] in OPEN;
  }

  lemma EncodeOpens(e: Entry)
    ensures OPEN < Encode(e)
  {
    assert Encode(e) == OPEN + (Escape(e.symbol) + MIDDLE + e.price + [BRACE]);
  }

  // ---------------------------------------------------------------------------------
  // Runs of appends
  // ---------------------------------------------------------------------------------

  /** What is durable, and what has been written but not synced. */
  datatype Disk = Disk(synced: Bytes, cache: Bytes)

  /** A write that reaches the file in full or stops after some bytes, and a sync that
      succeeds or fails. */
  datatype Attempt = Attempt(e: Entry, written: nat, syncOk: bool) {
    predicate Whole() {
      written >= |Record(e)|
    }
  }

  /** One appendWAL: the new disk, and whether it returned true. */
  function AppendStep(d: Disk, a: Attempt): (Disk, bool) {
    if !a.Whole() then (Disk(d.synced, d.cache + Record(a.e)[..a.written]), false)
    else if !a.syncOk then (Disk(d.synced, d.cache + Record(a.e)), false)
    else (Disk(d.synced + d.cache + Record(a.e), []), true)
  }

  function AppendAll(d: Disk, ops: seq<Attempt>): Disk {
    if ops == [] then d else AppendStep(AppendAll(d, ops[..|ops| - 1]), ops[|ops| - 1]).0
  }

  function Posted(ops: seq<Attempt>): seq<Entry> {
    seq(|ops|, i requires 0 <= i < |ops| => ops[i].e)
  }

  /** After whole writes the durable part holds the first a entries, all acknowledged ones
      among them, and the rest is waiting to be synced. */
  lemma {:induction false} RunShape(before: Bytes, ops: seq<Attempt>) returns (a: nat)
    requires forall o | o in ops :: o.Whole()
    ensures a <= |ops|
    ensures var d := AppendAll(Disk(before, []), ops);
            d.synced == before + Log(Posted(ops)[..a]) && d.cache == Log(Posted(ops)[a..])
    ensures forall i | 0 <= i < |ops| && ops[i].syncOk :: i < a
  {
    hide Record, Log, AppendStep;
    if ops == [] {
      LogNone();
      a := 0;
      assert Posted(ops)[..a] == [] && Posted(ops)[a..] == [];
      assert before + [] == before;
    } else {
      var n := |ops| - 1;
      assert ops[n] in ops;
      var b := RunShape(before, ops[..n]);
      assert Posted(ops[..n]) == Posted(ops)[..n];
      StepShape(before, Posted(ops), b, AppendAll(Disk(before, []), ops[..n]), ops[n]);
      a := if ops[n].syncOk then |ops| else b;
    }
  }

  /** One whole write more, synced or not. */
  lemma StepShape(before: Bytes, es: seq<Entry>, b: nat, d: Disk, o: Attempt)
    requires es != [] && b < |es| && o.Whole() && o.e == es[|es| - 1]
    requires d.synced == before + Log(es[..|es| - 1][..b]) && d.cache == Log(es[..|es| - 1][b..])
    ensures var (d', a) := (AppendStep(d, o).0, if o.syncOk then |es| else b);
            d'.synced == before + Log(es[..a]) && d'.cache == Log(es[a..])
  {
    hide Record, Log;
    OneMore(before, es, |es| - 1, b);
    if o.syncOk {
      assert es[..|es|] == es && es[|es|..] == [];
    }
  }

  /** The pieces of a log with one record more. */
  lemma OneMore(before: Bytes, es: seq<Entry>, n: nat, b: nat)
    requires b <= n && n + 1 == |es|
    ensures es[..n][..b] == es[..b]
    ensures Log(es[..n][b..]) + Record(es[n]) == Log(es[b..])
    ensures before + Log(es[..b]) + Log(es[..n][b..]) + Record(es[n]) == before + Log(es)
    ensures Log([]) == []
  {
    hide Record, Log;
    LogNone();
    assert es[..n][..b] == es[..b];
    var rest := es[..n][b..];
    OneRecord(es[n]);
    assert es[b..] == rest + [es[n]];
    LogConcat(rest, [es[n]]);
    assert es == es[..b] + es[b..];
    LogConcat(es[..b], es[b..]);
    Reassociate(before, Log(es[..b]), Log(rest), Record(es[n]));
  }

  lemma LogNone()
    ensures Log([]) == []
  {
  }

  lemma Reassociate(a: Bytes, b: Bytes, c: Bytes, d: Bytes)
    ensures a + b + c + d == a + (b + (c + d))
  {
  }

  lemma OneRecord(e: Entry)
    ensures Log([e]) == Record(e)
  {
    hide Record;
    var es := [e];
    assert es[1..] == [];
    assert Log(es[1..]) == [];
    assert Record(e) + [] == Record(e);
  }

  /** Every run of appends on a newline-terminated log, with any syncs failing, and a crash
      during a further append that leaves any prefix x of the unsynced bytes: replay finds
      the old entries and then the first n posted ones, every acknowledged one included. */
  lemma AcknowledgedSurvive(before: Bytes, ops: seq<Attempt>, last: Entry, x: Bytes) returns (n: nat)
    requires Terminated(before) && (forall o | o in ops :: o.Whole() && o.e.symbol != []) && last.symbol != []
    requires x <= AppendAll(Disk(before, []), ops).cache + Record(last)
    ensures n <= |ops| + 1
    ensures Entries(AppendAll(Disk(before, []), ops).synced + x) == Entries(before) + (Posted(ops) + [last])[..n]
    ensures forall i | 0 <= i < |ops| && ops[i].syncOk :: i < n
  {
    hide Record, Entries, Log, Encode, AppendAll;
    var es := Posted(ops);
    var a := RunShape(before, ops);
    OneRecord(last);
    LogConcat(es[a..], [last]);
    var m := LogPrefix(es[a..] + [last], x);
    n := a + m;
    EntriesOfLog(es[..a]);
    EntriesConcat(Log(es[..a]), x);
    EntriesConcat(before, Log(es[..a]) + x);
    assert before + Log(es[..a]) + x == before + (Log(es[..a]) + x);
    assert es[..a] + (es[a..] + [last])[..m] == (es + [last])[..n];
  }

  // ---------------------------------------------------------------------------------
  // Runs with short writes
  // ---------------------------------------------------------------------------------

  /** The file as the running system sees it. */
  function File(d: Disk): Bytes {
    d.synced + d.cache
  }

  /** The unfinished last line of this program's log, if there is one, starts like a record. */
  predicate OwnTail(data: Bytes) {
    Complete(data) <= data && (Tail(data) != [] ==> Tail(data)[0] == 123)
  }

  lemma OwnTailBlank(data: Bytes)
    requires OwnTail(data)
    ensures Blank(Tail(data)) <==> Terminated(data)
  {
    hide Complete;
    SplitTail(data);
    if Tail(data) != [] {
      assert Tail(data)[0] in Tail(data);
    }
  }

  lemma {:induction false} LastSkips(c: Bytes, u: Bytes)
    requires LF !in u
    ensures LastIndexByte(c + u, LF) == LastIndexByte(c, LF)
  {
    if u == [] {
      assert c + u == c;
    } else {
      var n := |u| - 1;
      assert (c + u)[|c + u| - 1] == u[n] && (c + u)[..|c + u| - 1] == c + u[..n];
      LastSkips(c, u[..n]);
    }
  }

  lemma TailOf(c: Bytes, u: Bytes)
    requires Terminated(c) && LF !in u
    ensures Complete(c + u) == c && Tail(c + u) == u
  {
    LastSkips(c, u);
  }

  lemma AppendKeepsOwn(data: Bytes, e: Entry, x: Bytes)
    requires OwnTail(data) && x <= Record(e)
    ensures OwnTail(data + x)
  {
    hide Encode, Complete;
    SplitTail(data);
    EncodeOneLine(e);
    EncodeStarts(e);
    if x == Record(e) {
      TailOf(data + x, []);
      assert data + x + [] == data + x;
    } else {
      assert x <= Encode(e);
      var (c, u) := (Complete(data), Tail(data));
      assert data + x == c + (u + x);
      TailOf(c, u + x);
    }
  }

  lemma {:induction false} FileOwn(before: Bytes, ops: seq<Attempt>)
    requires Terminated(before)
    ensures OwnTail(File(AppendAll(Disk(before, []), ops)))
  {
    hide Record, OwnTail;
    if ops == [] {
      TerminatedOwn(before);
      assert before + [] == before;
    } else {
      var n := |ops| - 1;
      var (d, a) := (AppendAll(Disk(before, []), ops[..n]), ops[n]);
      FileOwn(before, ops[..n]);
      var x := if a.Whole() then Record(a.e) else Record(a.e)[..a.written];
      AppendKeepsOwn(File(d), a.e, x);
      assert File(AppendStep(d, a).0) == File(d) + x;
    }
  }

  lemma TerminatedOwn(data: Bytes)
    requires Terminated(data)
    ensures OwnTail(data)
  {
    hide Complete;
    SplitTail(data);
  }

  /** What is durable stays. */
  lemma {:induction false} SyncedGrows(d: Disk, ops: seq<Attempt>, i: nat)
    requires i <= |ops|
    ensures AppendAll(d, ops[..i]).synced <= AppendAll(d, ops).synced
    decreases |ops|
  {
    hide Record;
    if i == |ops| {
      assert ops[..i] == ops;
    } else {
      var n := |ops| - 1;
      SyncedGrows(d, ops[..n], i);
      assert ops[..n][..i] == ops[..i];
    }
  }

  /** The acknowledged append i of a run: what is on disk right after it. */
  lemma Acknowledged(d: Disk, ops: seq<Attempt>, i: nat)
    requires i < |ops| && ops[i].Whole() && ops[i].syncOk
    ensures AppendAll(d, ops[..i + 1]) == Disk(File(AppendAll(d, ops[..i])) + Record(ops[i].e), [])
    ensures AppendStep(AppendAll(d, ops[..i]), ops[i]).1
  {
    hide Record;
    assert ops[..i + 1][..i] == ops[..i];
  }

  /** Runs with any short writes and failing syncs, on a log that started newline-terminated:
      an acknowledged append is found at its place by the replay after any later crash if and
      only if the file ended with a newline, or was empty, when it was made. */
  lemma AcknowledgedSurvivesIff(before: Bytes, ops: seq<Attempt>, i: nat, x: Bytes) returns (more: Bytes)
    requires Terminated(before) && i < |ops| && ops[i].Whole() && ops[i].syncOk && ops[i].e.symbol != []
    requires x <= AppendAll(Disk(before, []), ops).cache
    ensures var file := File(AppendAll(Disk(before, []), ops[..i]));
      var disk := AppendAll(Disk(before, []), ops).synced + x;
      && disk == file + Record(ops[i].e) + more
      && (Entries(disk) == Entries(file) + [ops[i].e] + Entries(more) <==> Terminated(file))
  {
    hide Record, Entries, AppendAll, Complete, Blank;
    var d := Disk(before, []);
    var file := File(AppendAll(d, ops[..i]));
    var disk := AppendAll(d, ops).synced + x;
    Acknowledged(d, ops, i);
    SyncedGrows(d, ops, i + 1);
    var kept := AppendAll(d, ops[..i + 1]).synced;
    assert kept == file + Record(ops[i].e);
    more := disk[|kept|..];
    assert disk == kept + more;
    FileOwn(before, ops[..i]);
    OwnTailBlank(file);
    AppendSurvives(file, ops[i].e, more);
  }
}
