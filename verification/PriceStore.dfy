/** The price table behind GET and POST /price, its write-ahead log, and the restart. */
module PriceStore {
  import opened Options
  import opened Sha256
  import opened Wire
  import opened WalCodec
  import opened Wal

  /** Prices after applying entries in order. */
  function Apply(m: map<Bytes, Price>, es: seq<Entry>): map<Bytes, Price> {
    if es == [] then m else Apply(m, es[..|es| - 1])[es[|es| - 1].symbol := es[|es| - 1].price]
  }

  lemma ApplyNext(m: map<Bytes, Price>, es: seq<Entry>, e: Entry)
    ensures Apply(m, es + [e]) == Apply(m, es)[e.symbol := e.price]
  {
    assert (es + [e])[..|es|] == es;
  }

  /** buildPriceResp: the symbol goes in as it is. */
  function BuildPriceResp(symbol: Bytes, price: Price): Bytes {
    RawText(symbol, price)
  }

  /** Both texts, spelled out. */
  lemma RespText(symbol: Bytes, price: Price)
    ensures BuildPriceResp(symbol, price)
         == Ascii("{\"symbol\":\"") + symbol + Ascii("\",\"price\":") + price + Ascii("}")
    ensures Encode(Entry(symbol, price))
         == Ascii("{\"symbol\":\"") + Escape(symbol) + Ascii("\",\"price\":") + price + Ascii("}")
  {
    Punctuation();
    hide Ascii, Escape;
  }

  predicate Plain(symbol: Bytes) {
    forall b | b in symbol :: !Special(b)
  }

  lemma {:induction false} EscapeOnlyIfNeeded(s: Bytes)
    ensures |Escape(s)| >= |s| && (Plain(s) ==> Escape(s) == s) && (!Plain(s) ==> |Escape(s)| > |s|)
  {
    if s != [] {
      EscapeOnlyIfNeeded(s[1..]);
      if Plain(s) {
        assert s[0] in s && Plain(s[1..]);
      } else if !Special(s[0]) {
        assert !Plain(s[1..]);
      }
    }
  }

  /** The response text is the log text of the same entry exactly when the symbol has no control
      character, quote, backslash, angle bracket or ampersand. */
  lemma RespIsRecord(symbol: Bytes, price: Price)
    ensures BuildPriceResp(symbol, price) == Encode(Entry(symbol, price))
       <==> forall b | b in symbol :: b >= 32 && b != 34 && b != 92 && b != 60 && b != 62 && b != 38
  {
    assert Plain(symbol) <==> forall b | b in symbol :: b >= 32 && b != 34 && b != 92 && b != 60 && b != 62 && b != 38;
    hide Escape, Plain;
    EscapeOnlyIfNeeded(symbol);
    if !Plain(symbol) {
      assert |BuildPriceResp(symbol, price)| < |Encode(Entry(symbol, price))|;
    }
  }

  /** The response is readable as the price it announces if and only if the symbol is not
      empty and has no control character, quote or backslash. */
  lemma RespReadable(s: Bytes, p: Price)
    ensures Decode(BuildPriceResp(s, p)) == Some(Entry(s, p))
       <==> s != [] && forall b | b in s :: b >= 32 && b != QUOTE && b != BACKSLASH
  {
    RawTextReadable(s, p);
  }

  /** For instance a symbol that is a single quote: its response is no record at all. */
  lemma QuoteBreaksResp(price: Price)
    ensures Decode(BuildPriceResp([QUOTE], price)) == None
  {
    hide ReadAll;
    var rest := MIDDLE[1..] + price + [BRACE];
    ReadRawText([QUOTE], price);
    assert MIDDLE + price + [BRACE] == [QUOTE] + rest;
    ReadOne(InSymbol([]), QUOTE);
    ReadCons(Between(1, []), QUOTE, rest);
    StuckForever(rest);
  }

  /** Every prebuilt response is the rendering of the current price. */
  ghost predicate Rendered(prices: map<Bytes, Price>, resp: map<Bytes, Bytes>) {
    resp.Keys == prices.Keys && forall s | s in prices :: resp[s] == BuildPriceResp(s, prices[s])
  }

  const UNKNOWN_SYMBOL: Bytes := Ascii("{\"error\":\"unknown symbol\"}")
  const BAD_BODY: Bytes := Ascii("{\"error\":\"symbol and numeric price required\"}")
  const NOT_DURABLE: Bytes := Ascii("{\"error\":\"persistence failure\"}")

  /** A decoded POST body: a symbol that may be empty, a price that may be missing. */
  datatype PostBody = PostBody(symbol: Bytes, price: Option<Price>)

  class PriceServer {
    var active: bool
    var synced: Bytes
    var cache: Bytes
    var prices: map<Bytes, Price>
    var priceResp: map<Bytes, Bytes>

    ghost predicate Valid()
      reads this
    {
      Rendered(prices, priceResp)
    }

    ghost function OnDisk(): Disk
      reads this
    {
      Disk(synced, cache)
    }

    /** init: the base prices, no log. */
    constructor (base: map<Bytes, Price>, disk: Bytes)
      ensures Valid() && prices == base && !active && OnDisk() == Disk(disk, [])
    {
      active, synced, cache := false, disk, [];
      prices, priceResp := base, map s | s in base :: BuildPriceResp(s, base[s]);
    }

    /** prices[s] = p and priceResp[s] = its rendering. */
    method SetPrice(symbol: Bytes, price: Price)
      requires Valid()
      modifies `prices, `priceResp
      ensures Valid() && prices == old(prices)[symbol := price]
    {
      prices := prices[symbol := price];
      priceResp := priceResp[symbol := BuildPriceResp(symbol, price)];
    }

    /** initPriceWAL: replays every line that decodes, in order, and skips the others. */
    method InitPriceWal() returns (replayed: nat, torn: nat)
      requires Valid()
      modifies `active, `prices, `priceResp
      ensures Valid() && active
      ensures prices == Apply(old(prices), Entries(synced)) && replayed == |Entries(synced)|
      ensures replayed + torn == FilledLines(Split(synced))
    {
      hide Decode, Rendered, Entries, EntriesOf, FilledLines, Apply, Split, BuildPriceResp;
      NothingYet(prices);
      replayed, torn := 0, 0;
      ghost var done: seq<Entry> := [];
      var lines := Split(synced);
      SplitEntries(synced);
      assert lines[..0] == [];
      for i := 0 to |lines|
        invariant Valid() && done == EntriesOf(lines[..i]) && replayed == |done|
        invariant prices == Apply(old(prices), done)
        invariant replayed + torn == FilledLines(lines[..i])
      {
        var line := lines[i];
        EntriesNext(lines, i);
        FilledNext(lines, i);
        if line == [] {
          continue;
        }
        var e := Decode(line);
        if e.None? {
          torn := torn + 1;
          continue;
        }
        ApplyNext(old(prices), done, e.value);
        SetPrice(e.value.symbol, e.value.price);
        done := done + [e.value];
        replayed := replayed + 1;
      }
      assert lines[..|lines|] == lines;
      active := true;
    }

    /** appendWAL: the whole record and a sync, or false. */
    method AppendWal(e: Entry, written: nat, syncOk: bool) returns (ok: bool)
      modifies `synced, `cache
      ensures !active ==> ok && OnDisk() == old(OnDisk())
      ensures active ==> (ok <==> written >= |Encode(e)| + 1 && syncOk)
      ensures active && ok ==> synced == old(synced) + old(cache) + Encode(e) + [LF] && cache == []
      ensures !ok ==> synced == old(synced)
      ensures active && !ok ==> cache == old(cache) + (Encode(e) + [LF])[..if written < |Encode(e)| + 1 then written else |Encode(e)| + 1]
      ensures active ==> (OnDisk(), ok) == AppendStep(old(OnDisk()), Attempt(e, written, syncOk))
    {
      hide Encode;
      if !active {
        return true;
      }
      var line := Record(e);
      if written < |line| {
        cache := cache + line[..written];
        return false;
      }
      cache := cache + line;
      if !syncOk {
        return false;
      }
      synced, cache := synced + cache, [];
      assert old(synced) + (old(cache) + line) == old(synced) + old(cache) + line;
      return true;
    }

    /** handlePricePost: 400 without a name and a price, 500 without durability, and only
        then the table changes and the answer is what GET serves from now on. */
    method HandlePricePost(body: Option<PostBody>, written: nat, syncOk: bool) returns (code: int, answer: Bytes)
      requires Valid()
      modifies this
      ensures Valid() && active == old(active)
      ensures code == 400 <==> body.None? || body.value.symbol == [] || body.value.price.None?
      ensures code != 200 ==> prices == old(prices)
      ensures code == 400 || !active ==> OnDisk() == old(OnDisk())
      ensures code != 400 && active ==> var e := Entry(body.value.symbol, body.value.price.value);
                (OnDisk(), code == 200) == AppendStep(old(OnDisk()), Attempt(e, written, syncOk))
      ensures code != 400 && active ==> var e := Entry(body.value.symbol, body.value.price.value);
                && (code == 200 <==> written >= |Encode(e)| + 1 && syncOk)
                && (code == 200 ==> synced == old(synced) + old(cache) + Encode(e) + [LF] && cache == [])
      ensures code in {200, 400, 500} && (code == 500 ==> active && synced == old(synced))
      ensures code != 400 && !active ==> code == 200
      ensures code == 400 ==> answer == Ascii("{\"error\":\"symbol and numeric price required\"}")
      ensures code == 500 ==> answer == Ascii("{\"error\":\"persistence failure\"}")
      ensures code == 200 ==> var (s, p) := (body.value.symbol, body.value.price.value);
                prices == old(prices)[s := p] && answer == priceResp[s] == BuildPriceResp(s, p)
    {
      hide AppendStep, BuildPriceResp;
      if body.None? || body.value.symbol == [] || body.value.price.None? {
        return 400, BAD_BODY;
      }
      var e := Entry(body.value.symbol, body.value.price.value);
      var ok := AppendWal(e, written, syncOk);
      if !ok {
        return 500, NOT_DURABLE;
      }
      SetPrice(e.symbol, e.price);
      return 200, priceResp[e.symbol];
    }

    /** GET /price: the prebuilt response, which always shows the current price. */
    method HandlePriceGet(symbol: Bytes) returns (code: int, answer: Bytes)
      requires Valid()
      ensures code == 200 <==> symbol in prices
      ensures code == 200 ==> answer == BuildPriceResp(symbol, prices[symbol])
      ensures code != 200 ==> code == 404 && answer == Ascii("{\"error\":\"unknown symbol\"}")
    {
      hide BuildPriceResp;
      if symbol !in priceResp {
        return 404, UNKNOWN_SYMBOL;
      }
      return 200, priceResp[symbol];
    }

    /** A hard kill that leaves the first k unsynced bytes on disk, and the next boot. */
    method CrashAndRestart(base: map<Bytes, Price>, k: nat) returns (s: PriceServer)
      requires Valid() && k <= |cache|
      ensures fresh(s) && s.Valid() && s.active
      ensures s.OnDisk() == Disk(synced + cache[..k], [])
      ensures s.prices == Apply(base, Entries(synced + cache[..k]))
    {
      hide Entries, Apply;
      s := new PriceServer(base, synced + cache[..k]);
      var _, _ := s.InitPriceWal();
    }
  }

  /** strings.Split(data, "\n"). */
  function Split(data: Bytes): seq<Bytes>
    decreases |data|
  {
    match IndexByte(data, LF) case None => [data] case Some(i) => [data[..i]] + Split(data[i + 1..])
  }

  /** How many lines are not empty. */
  function FilledLines(lines: seq<Bytes>): nat {
    if lines == [] then 0 else FilledLines(lines[..|lines| - 1]) + if lines[|lines| - 1] == [] then 0 else 1
  }

  lemma FilledNext(lines: seq<Bytes>, i: nat)
    requires i < |lines|
    ensures FilledLines(lines[..i + 1]) == FilledLines(lines[..i]) + if lines[i] == [] then 0 else 1
  {
    assert lines[..i + 1][..i] == lines[..i];
  }

  function EntriesOf(lines: seq<Bytes>): seq<Entry> {
    if lines == [] then [] else EntriesOf(lines[..|lines| - 1]) + EntryOf(lines[|lines| - 1])
  }

  lemma NothingYet(m: map<Bytes, Price>)
    ensures EntriesOf([]) == [] && FilledLines([]) == 0 && Apply(m, []) == m
  {
  }

  lemma EntriesNext(lines: seq<Bytes>, i: nat)
    requires i < |lines|
    ensures EntriesOf(lines[..i + 1]) == EntriesOf(lines[..i]) + EntryOf(lines[i])
  {
    assert lines[..i + 1][..i] == lines[..i];
  }

  lemma {:induction false} EntriesCons(l: Bytes, lines: seq<Bytes>)
    ensures EntriesOf([l] + lines) == EntryOf(l) + EntriesOf(lines)
  {
    hide EntryOf;
    if lines == [] {
      assert [l] + lines == [l];
      assert [l][..0] == lines;
    } else {
      var n := |lines| - 1;
      EntriesCons(l, lines[..n]);
      assert ([l] + lines)[..n + 1] == [l] + lines[..n];
    }
  }

  lemma {:induction false} SplitEntries(data: Bytes)
    ensures EntriesOf(Split(data)) == Entries(data)
    decreases |data|
  {
    hide EntryOf;
    match IndexByte(data, LF)
    case None =>
      EntriesCons(data, []);
      assert [data] + [] == [data];
    case Some(i) =>
      SplitEntries(data[i + 1..]);
      EntriesCons(data[..i], Split(data[i + 1..]));
  }

  // ---------------------------------------------------------------------------------
  // Live table and replay
  // ---------------------------------------------------------------------------------

  /** Concurrent POSTs: the log and the table are guarded by different locks, so between its
      append and its table update a post is in flight. An append whose write succeeded and
      whose sync failed leaves its record in the file and is answered 500, with no update. */
  datatype Posts = Posts(logged: seq<Entry>, live: map<Bytes, Price>, inFlight: seq<Entry>)

  datatype PostEvent = Appended(e: Entry) | Unsynced(e: Entry) | Updated(k: nat)

  predicate CanPost(s: Posts, ev: PostEvent) {
    ev.Updated? ==> ev.k < |s.inFlight|
  }

  function PostStep(s: Posts, ev: PostEvent): Posts
    requires CanPost(s, ev)
  {
    match ev
    case Appended(e) => s.(logged := s.logged + [e], inFlight := s.inFlight + [e])
    case Unsynced(e) => s.(logged := s.logged + [e])
    case Updated(k) =>
      var e := s.inFlight[k];
      s.(live := s.live[e.symbol := e.price], inFlight := s.inFlight[..k] + s.inFlight[k + 1..])
  }

  /** A run of posts on a server that started with the table base; logged is what its log has
      gained since. */
  ghost predicate PostRun(base: map<Bytes, Price>, ss: seq<Posts>, evs: seq<PostEvent>) {
    && |ss| == |evs| + 1 && ss[0] == Posts([], base, [])
    && forall i | 0 <= i < |evs| :: CanPost(ss[i], evs[i]) && ss[i + 1] == PostStep(ss[i], evs[i])
  }

  /** No post in flight is for this symbol. */
  predicate Settled(s: Posts, sym: Bytes) {
    forall x | x in s.inFlight :: x.symbol != sym
  }

  /** Two tables have the same price, or none, for a symbol. */
  predicate SameAt(r: map<Bytes, Price>, m: map<Bytes, Price>, sym: Bytes) {
    (sym in r <==> sym in m) && (sym in r ==> r[sym] == m[sym])
  }

  /** Replay would find the price this post carries. */
  predicate Current(r: map<Bytes, Price>, x: Entry) {
    x.symbol in r && r[x.symbol] == x.price
  }

  /** Settled symbols already agree with replay, and every post in flight carries the price
      replay would find. */
  ghost predicate Agree(base: map<Bytes, Price>, s: Posts) {
    var r := Apply(base, s.logged);
    && (forall x | x in s.inFlight :: Current(r, x))
    && (forall sym | Settled(s, sym) :: SameAt(r, s.live, sym))
  }

  // ---------------------------------------------------------------------------------
  // Finishing the posts in flight
  // ---------------------------------------------------------------------------------

  /** An order in which the posts in flight can all update the table. */
  predicate Finishes(s: Posts, ks: seq<nat>)
    decreases |ks|
  {
    if ks == [] then s.inFlight == []
    else ks[0] < |s.inFlight| && Finishes(PostStep(s, Updated(ks[0])), ks[1..])
  }

  function Finish(s: Posts, ks: seq<nat>): Posts
    requires Finishes(s, ks)
    decreases |ks|
  {
    if ks == [] then s else Finish(PostStep(s, Updated(ks[0])), ks[1..])
  }

  /** However the posts in flight finish, GET then serves what a restart would build. */
  ghost predicate Safe(base: map<Bytes, Price>, s: Posts) {
    forall ks | Finishes(s, ks) :: Finish(s, ks).live == Apply(base, s.logged)
  }

  lemma Removed(es: seq<Entry>, k: nat)
    requires k < |es|
    ensures var rest := es[..k] + es[k + 1..];
      && (forall x | x in rest :: x in es)
      && (forall x | x in es :: x == es[k] || x in rest)
  {
    assert es == es[..k] + [es[k]] + es[k + 1..];
  }

  lemma AgreeUpdate(base: map<Bytes, Price>, s: Posts, k: nat)
    requires Agree(base, s) && k < |s.inFlight|
    ensures Agree(base, PostStep(s, Updated(k)))
  {
    hide Apply;
    var t := PostStep(s, Updated(k));
    var e := s.inFlight[k];
    Removed(s.inFlight, k);
    assert Current(Apply(base, s.logged), e);
    forall sym | Settled(t, sym) ensures SameAt(Apply(base, s.logged), t.live, sym) {
      if sym != e.symbol {
        assert Settled(s, sym);
      }
    }
  }

  lemma {:induction false} AgreeFinishes(base: map<Bytes, Price>, s: Posts, ks: seq<nat>)
    requires Agree(base, s) && Finishes(s, ks)
    ensures Finish(s, ks).live == Apply(base, s.logged)
    decreases |ks|
  {
    hide Apply, PostStep;
    if ks == [] {
      assert forall sym :: Settled(s, sym);
      SameEverywhere(Apply(base, s.logged), s.live);
    } else {
      AgreeUpdate(base, s, ks[0]);
      LogKept(s, ks[0]);
      AgreeFinishes(base, PostStep(s, Updated(ks[0])), ks[1..]);
    }
  }

  lemma SameEverywhere(r: map<Bytes, Price>, m: map<Bytes, Price>)
    requires forall sym :: SameAt(r, m, sym)
    ensures r == m
  {
    forall sym ensures sym in r <==> sym in m {
      assert SameAt(r, m, sym);
    }
    forall sym | sym in r ensures r[sym] == m[sym] {
      assert SameAt(r, m, sym);
    }
  }

  lemma LogKept(s: Posts, k: nat)
    requires k < |s.inFlight|
    ensures PostStep(s, Updated(k)).logged == s.logged
  {
  }

  /** Finishing does not touch a settled symbol. */
  lemma {:induction false} SettledStays(s: Posts, ks: seq<nat>, sym: Bytes)
    requires Finishes(s, ks) && Settled(s, sym)
    ensures SameAt(Finish(s, ks).live, s.live, sym)
    decreases |ks|
  {
    if ks != [] {
      Removed(s.inFlight, ks[0]);
      assert s.inFlight[ks[0]] in s.inFlight;
      SettledStays(PostStep(s, Updated(ks[0])), ks[1..], sym);
    }
  }

  /** The posts in flight can finish. */
  lemma {:induction false} CanFinish(s: Posts) returns (ks: seq<nat>)
    ensures Finishes(s, ks)
    decreases |s.inFlight|
  {
    if s.inFlight == [] {
      ks := [];
    } else {
      var rest := CanFinish(PostStep(s, Updated(0)));
      ks := [0] + rest;
      assert ks[1..] == rest;
    }
  }

  /** Any post in flight can be the last to finish, and then its price is served. */
  lemma {:induction false} CanBeLast(s: Posts, k: nat) returns (ks: seq<nat>)
    requires k < |s.inFlight|
    ensures Finishes(s, ks) && Current(Finish(s, ks).live, s.inFlight[k])
    decreases |s.inFlight|
  {
    var n := |s.inFlight|;
    if n == 1 {
      ks := [0];
      var none: seq<nat> := [];
      assert ks[1..] == none;
      var t := PostStep(s, Updated(0));
      assert Finishes(t, none) && Finish(s, ks) == Finish(t, none) == t;
    } else {
      var j := if k == 0 then 1 else 0;
      var t := PostStep(s, Updated(j));
      var k' := if j < k then k - 1 else k;
      assert t.inFlight[k'] == s.inFlight[k];
      var rest := CanBeLast(t, k');
      ks := [j] + rest;
      assert ks[1..] == rest;
    }
  }

  /** Exactly when the table is bound to agree with replay, whatever the order in which the
      posts in flight finish: every settled symbol agrees already, and every post in flight
      carries the price replay would find. */
  lemma SafeIff(base: map<Bytes, Price>, s: Posts)
    ensures Safe(base, s) <==> Agree(base, s)
  {
    hide Apply, Finishes, Finish, Settled, SameAt;
    if Agree(base, s) {
      forall ks | Finishes(s, ks) ensures Finish(s, ks).live == Apply(base, s.logged) {
        AgreeFinishes(base, s, ks);
      }
    }
    if Safe(base, s) {
      SafeAgrees(base, s);
    }
  }

  lemma SafeAgrees(base: map<Bytes, Price>, s: Posts)
    requires Safe(base, s)
    ensures Agree(base, s)
  {
    hide Apply, Finishes, Finish, Settled;
    var r := Apply(base, s.logged);
    forall x | x in s.inFlight ensures Current(r, x) {
      var k :| 0 <= k < |s.inFlight| && s.inFlight[k] == x;
      var ks := CanBeLast(s, k);
    }
    forall sym | Settled(s, sym) ensures SameAt(r, s.live, sym) {
      var ks := CanFinish(s);
      SettledStays(s, ks, sym);
    }
  }

  // ---------------------------------------------------------------------------------
  // Whole runs
  // ---------------------------------------------------------------------------------

  /** No post in flight sets the same symbol to another price. */
  predicate NoConflict(s: Posts, e: Entry) {
    forall x | x in s.inFlight && x.symbol == e.symbol :: x.price == e.price
  }

  /** Nothing in flight conflicts with the entry that reaches the log; and one that will
      never update the table, with no post for its symbol in flight, has the price served now. */
  predicate Harmless(s: Posts, ev: PostEvent) {
    match ev
    case Appended(e) => NoConflict(s, e)
    case Unsynced(e) => NoConflict(s, e) && (Settled(s, e.symbol) ==> Current(s.live, e))
    case Updated(_) => true
  }

  ghost predicate AllHarmless(base: map<Bytes, Price>, ss: seq<Posts>, evs: seq<PostEvent>)
    requires PostRun(base, ss, evs)
  {
    forall i | 0 <= i < |evs| :: Harmless(ss[i], evs[i])
  }

  lemma AgreeAppend(base: map<Bytes, Price>, s: Posts, e: Entry)
    requires Agree(base, s)
    ensures Agree(base, PostStep(s, Appended(e))) <==> NoConflict(s, e)
  {
    hide Apply;
    var t := PostStep(s, Appended(e));
    ApplyNext(base, s.logged, e);
    var r := Apply(base, t.logged);
    assert forall x :: x in t.inFlight <==> x in s.inFlight || x == e;
    assert r[e.symbol] == e.price;
    if NoConflict(s, e) {
      forall x | x in t.inFlight ensures Current(r, x) {
      }
      forall sym | Settled(t, sym) ensures SameAt(r, t.live, sym) {
        assert Settled(s, sym) && sym != e.symbol;
      }
    }
    if Agree(base, t) {
      forall x | x in s.inFlight && x.symbol == e.symbol ensures x.price == e.price {
        assert Current(r, x);
      }
    }
  }

  lemma AgreeUnsynced(base: map<Bytes, Price>, s: Posts, e: Entry)
    requires Agree(base, s)
    ensures Agree(base, PostStep(s, Unsynced(e))) <==> Harmless(s, Unsynced(e))
  {
    hide Apply;
    var t := PostStep(s, Unsynced(e));
    ApplyNext(base, s.logged, e);
    var r := Apply(base, t.logged);
    assert r[e.symbol] == e.price;
    if Harmless(s, Unsynced(e)) {
      forall sym | Settled(t, sym) ensures SameAt(r, t.live, sym) {
        assert Settled(s, sym) && SameAt(Apply(base, s.logged), s.live, sym);
      }
    }
    if Agree(base, t) {
      forall x | x in s.inFlight && x.symbol == e.symbol ensures x.price == e.price {
        assert Current(r, x);
      }
      if Settled(s, e.symbol) {
        assert Settled(t, e.symbol) && SameAt(r, t.live, e.symbol);
      }
    }
  }

  lemma AgreeStep(base: map<Bytes, Price>, s: Posts, ev: PostEvent)
    requires Agree(base, s) && CanPost(s, ev)
    ensures Agree(base, PostStep(s, ev)) <==> Harmless(s, ev)
  {
    hide Agree, PostStep, NoConflict, Settled, Current;
    match ev
    case Appended(e) => AgreeAppend(base, s, e);
    case Unsynced(e) => AgreeUnsynced(base, s, e);
    case Updated(k) => AgreeUpdate(base, s, k);
  }

  lemma AgreeStart(base: map<Bytes, Price>)
    ensures Agree(base, Posts([], base, []))
  {
  }

  lemma {:induction false} RunAgrees(base: map<Bytes, Price>, ss: seq<Posts>, evs: seq<PostEvent>, i: nat)
    requires PostRun(base, ss, evs) && AllHarmless(base, ss, evs) && i < |ss|
    ensures Agree(base, ss[i])
  {
    hide Agree, PostStep, Harmless;
    if i == 0 {
      AgreeStart(base);
    } else {
      RunAgrees(base, ss, evs, i - 1);
      AgreeStep(base, ss[i - 1], evs[i - 1]);
    }
  }

  /** Exactly when a run of concurrent posts can never leave the served table and a restarted
      one different: if and only if every append finds in flight no post for its symbol with
      another price, which the server could check before it appends, and every append whose
      sync fails also finds its price served already or a post carrying it in flight. */
  lemma RunSafeIff(base: map<Bytes, Price>, ss: seq<Posts>, evs: seq<PostEvent>)
    requires PostRun(base, ss, evs)
    ensures (forall i | 0 <= i < |ss| :: Safe(base, ss[i])) <==> AllHarmless(base, ss, evs)
  {
    hide Agree, PostStep, Harmless, Safe;
    if AllHarmless(base, ss, evs) {
      forall i | 0 <= i < |ss| ensures Safe(base, ss[i]) {
        RunAgrees(base, ss, evs, i);
        SafeIff(base, ss[i]);
      }
    }
    if forall i | 0 <= i < |ss| :: Safe(base, ss[i]) {
      forall i | 0 <= i < |evs| ensures Harmless(ss[i], evs[i]) {
        assert ss[i + 1] == PostStep(ss[i], evs[i]);
        SafeIff(base, ss[i]);
        SafeIff(base, ss[i + 1]);
        AgreeStep(base, ss[i], evs[i]);
      }
    }
  }

  // ---------------------------------------------------------------------------------
  // The bytes on disk
  // ---------------------------------------------------------------------------------

  /** The appends of a run: whole writes, whose syncs succeed or fail. */
  function Attempts(evs: seq<PostEvent>): seq<Attempt> {
    if evs == [] then []
    else
      Attempts(evs[..|evs| - 1])
      + match evs[|evs| - 1]
        case Appended(e) => [Attempt(e, |Record(e)|, true)]
        case Unsynced(e) => [Attempt(e, |Record(e)|, false)]
        case Updated(_) => []
  }

  /** The log those appends leave, on top of what was there. */
  function DiskAfter(before: Bytes, evs: seq<PostEvent>): Disk {
    AppendAll(Disk(before, []), Attempts(evs))
  }

  /** No post without a symbol gets as far as the log. */
  predicate AllNamed(evs: seq<PostEvent>) {
    forall ev | ev in evs && !ev.Updated? :: ev.e.symbol != []
  }

  lemma {:induction false} AttemptsPost(base: map<Bytes, Price>, ss: seq<Posts>, evs: seq<PostEvent>, k: nat)
    requires PostRun(base, ss, evs) && AllNamed(evs) && k < |ss|
    ensures Posted(Attempts(evs[..k])) == ss[k].logged && Named(ss[k].logged)
    ensures forall o | o in Attempts(evs[..k]) :: o.Whole()
    ensures (forall ev | ev in evs :: !ev.Unsynced?) ==> forall o | o in Attempts(evs[..k]) :: o.syncOk
  {
    hide Record;
    if k > 0 {
      AttemptsPost(base, ss, evs, k - 1);
      var (front, ev) := (evs[..k - 1], evs[k - 1]);
      assert evs[..k][..k - 1] == front && ev in evs;
      assert ss[k] == PostStep(ss[k - 1], ev);
    }
  }

  /** After whole writes the file is what was there and one record for each post. */
  lemma FileIsLog(before: Bytes, ops: seq<Attempt>)
    requires forall o | o in ops :: o.Whole()
    ensures File(AppendAll(Disk(before, []), ops)) == before + Log(Posted(ops))
    ensures (forall o | o in ops :: o.syncOk) ==> AppendAll(Disk(before, []), ops).cache == []
  {
    hide Record, Log, AppendAll;
    var a := RunShape(before, ops);
    var es := Posted(ops);
    assert es == es[..a] + es[a..];
    LogConcat(es[..a], es[a..]);
    assert before + Log(es[..a]) + Log(es[a..]) == before + (Log(es[..a]) + Log(es[a..]));
    assert a < |ops| ==> ops[a] in ops && !ops[a].syncOk;
    if forall o | o in ops :: o.syncOk {
      LogNone();
      assert es[a..] == [];
    }
  }

  lemma RunLength(base: map<Bytes, Price>, ss: seq<Posts>, evs: seq<PostEvent>)
    requires PostRun(base, ss, evs)
    ensures |ss| == |evs| + 1
  {
  }

  /** What a run has logged is what a reader of the file finds in it behind what was there. */
  lemma LoggedIsOnDisk(base: map<Bytes, Price>, before: Bytes, ss: seq<Posts>, evs: seq<PostEvent>, k: nat)
    requires PostRun(base, ss, evs) && AllNamed(evs) && Terminated(before) && k < |ss|
    ensures Entries(File(DiskAfter(before, evs[..k]))) == Entries(before) + ss[k].logged
    ensures (forall ev | ev in evs :: !ev.Unsynced?) ==> DiskAfter(before, evs[..k]).cache == []
  {
    hide Log, Entries, AppendAll, Attempts, Posted, PostRun, Named;
    RunLength(base, ss, evs);
    AttemptsPost(base, ss, evs, k);
    FileIsLog(before, Attempts(evs[..k]));
    EntriesConcat(before, Log(ss[k].logged));
    EntriesOfLog(ss[k].logged);
  }

  lemma {:induction false} ApplyConcat(m: map<Bytes, Price>, a: seq<Entry>, b: seq<Entry>)
    ensures Apply(m, a + b) == Apply(Apply(m, a), b)
    decreases |b|
  {
    if b == [] {
      assert a + b == a;
    } else {
      var n := |b| - 1;
      ApplyConcat(m, a, b[..n]);
      assert (a + b)[..|a + b| - 1] == a + b[..n];
    }
  }

  /** The table a boot builds from the base prices and the bytes of a log. */
  function Booted(base: map<Bytes, Price>, log: Bytes): map<Bytes, Price> {
    Apply(base, Entries(log))
  }

  /** However the posts in flight finish after k events, GET serves what a boot would build
      from the file as it is on disk then. */
  ghost predicate SafeOnDisk(base: map<Bytes, Price>, before: Bytes, s: Posts, evs: seq<PostEvent>) {
    forall ks | Finishes(s, ks) :: Finish(s, ks).live == Booted(base, File(DiskAfter(before, evs)))
  }

  /** A server that booted from a newline-terminated log: whenever the posts in flight are
      through it serves what the next boot would build from the bytes of its log, in every
      state of the run, if and only if every append is harmless when it is made. */
  lemma RestartAgreesIff(base: map<Bytes, Price>, before: Bytes, ss: seq<Posts>, evs: seq<PostEvent>)
    requires Terminated(before) && AllNamed(evs) && PostRun(Booted(base, before), ss, evs)
    ensures (forall k | 0 <= k < |ss| :: SafeOnDisk(base, before, ss[k], evs[..k]))
       <==> AllHarmless(Booted(base, before), ss, evs)
  {
    hide PostRun, Apply, Entries, File, DiskAfter, Finishes, Finish, Harmless, Terminated;
    var start := Booted(base, before);
    RunLength(start, ss, evs);
    RunSafeIff(start, ss, evs);
    forall k | 0 <= k < |ss| ensures SafeOnDisk(base, before, ss[k], evs[..k]) <==> Safe(start, ss[k]) {
      LoggedIsOnDisk(start, before, ss, evs, k);
      ApplyConcat(base, Entries(before), ss[k].logged);
    }
  }

  /** A run whose appends all succeed and never overlap a post for the same symbol. */
  ghost predicate SerialRun(base: map<Bytes, Price>, ss: seq<Posts>, evs: seq<PostEvent>) {
    && PostRun(base, ss, evs)
    && forall i | 0 <= i < |evs| ::
         !evs[i].Unsynced? && (evs[i].Appended? ==> Settled(ss[i], evs[i].e.symbol))
  }

  /** In particular, while no two posts for one symbol overlap, the table that GET serves and
      the table a restart would build are the same whenever nothing is in flight. */
  lemma LiveIsReplay(base: map<Bytes, Price>, ss: seq<Posts>, evs: seq<PostEvent>, i: nat)
    requires SerialRun(base, ss, evs) && i < |ss| && ss[i].inFlight == []
    ensures ss[i].live == Apply(base, ss[i].logged)
  {
    hide PostRun, Apply, Agree;
    assert AllHarmless(base, ss, evs);
    RunAgrees(base, ss, evs, i);
    var none: seq<nat> := [];
    assert Finishes(ss[i], none);
    AgreeFinishes(base, ss[i], none);
  }

  /** And an instance of the other half: two posts append, then update the table in the
      opposite order. */
  lemma OverlapDiffers(base: map<Bytes, Price>, sym: Bytes, p: Price, q: Price)
    requires p != q
    ensures var s1 := PostStep(Posts([], base, []), Appended(Entry(sym, p)));
      var s2 := PostStep(s1, Appended(Entry(sym, q)));
      var s3 := PostStep(s2, Updated(1));
      var s4 := PostStep(s3, Updated(0));
      !NoConflict(s1, Entry(sym, q)) && s4.inFlight == [] && s4.live[sym] == p && Apply(base, s4.logged)[sym] == q
  {
    var (a, b) := (Entry(sym, p), Entry(sym, q));
    var none: seq<Entry> := [];
    assert none + [a] == [a] && [a] + [b] == [a, b];
    ApplyNext(base, [a], b);
    assert a in [a];
  }
}
