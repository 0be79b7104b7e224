/** riskTakeWork and the push of riskSubmit on the linked stack they share, under the mutex.
    The list links waiters newest first. */
module TakeWork {
  import opened Sha256
  import Gate

  // ---------------------------------------------------------------------------------
  // What one take does, on values
  // ---------------------------------------------------------------------------------

  /** What riskTakeWork reads of a waiter when it pops it: has it left or is its context done,
      and since when is it parked. */
  datatype Parked = Parked(gone: bool, enqueued: int)

  /** Still there, and not older than the window. */
  predicate Serviceable(p: Parked, now: int, stale: int) {
    !p.gone && now - p.enqueued <= stale
  }

  /** Still there, but too old. */
  predicate Late(p: Parked, now: int, stale: int) {
    !p.gone && now - p.enqueued > stale
  }

  /** These are the verdicts of the gate's pops. */
  lemma GateVerdicts(p: Parked, now: int, stale: int)
    ensures var v := Gate.VerdictFor(p.gone, p.enqueued, now, stale);
      (v.Serve? <==> Serviceable(p, now, stale)) && (v.Stale? <==> Late(p, now, stale)) && (v.Dead? <==> p.gone)
  {
  }

  /** How many waiters of the list are serviceable. */
  function Count(ps: seq<Parked>, now: int, stale: int): nat {
    if ps == [] then 0
    else Count(ps[..|ps| - 1], now, stale) + if Serviceable(ps[|ps| - 1], now, stale) then 1 else 0
  }

  /** Which of the first n are late. */
  function Lates(ps: seq<Parked>, n: nat, now: int, stale: int): set<nat>
    requires n <= |ps|
  {
    set i: nat | i < n && Late(ps[i], now, stale)
  }

  lemma LatesNext(ps: seq<Parked>, n: nat, now: int, stale: int)
    requires n < |ps|
    ensures |Lates(ps, n + 1, now, stale)| == |Lates(ps, n, now, stale)| + if Late(ps[n], now, stale) then 1 else 0
  {
    if Late(ps[n], now, stale) {
      assert Lates(ps, n + 1, now, stale) == Lates(ps, n, now, stale) + {n};
    } else {
      assert Lates(ps, n + 1, now, stale) == Lates(ps, n, now, stale);
    }
  }

  /** n waiters are the shortest prefix holding want serviceable ones, or everything. */
  ghost predicate ShortestPrefix(ps: seq<Parked>, n: nat, want: nat, now: int, stale: int) {
    && n <= |ps|
    && Count(ps[..n], now, stale) <= want
    && (n < |ps| ==> Count(ps[..n], now, stale) == want)
    && forall m | 0 <= m < n :: Count(ps[..m], now, stale) < want
  }

  lemma {:induction false} CountGrows(ps: seq<Parked>, m: nat, n: nat, now: int, stale: int)
    requires m <= n <= |ps|
    ensures Count(ps[..m], now, stale) <= Count(ps[..n], now, stale)
  {
    if m < n {
      CountGrows(ps, m, n - 1, now, stale);
      assert ps[..n][..n - 1] == ps[..n - 1];
    }
  }

  /** There is only one such prefix. */
  lemma PrefixUnique(ps: seq<Parked>, m: nat, n: nat, want: nat, now: int, stale: int)
    requires ShortestPrefix(ps, m, want, now, stale) && ShortestPrefix(ps, n, want, now, stale)
    ensures m == n
  {
  }

  /** It is enough that the prefix is full, or the list empty, and was not full one earlier. */
  lemma IsShortest(ps: seq<Parked>, n: nat, want: nat, now: int, stale: int)
    requires n <= |ps| && Count(ps[..n], now, stale) <= want
    requires n < |ps| ==> Count(ps[..n], now, stale) == want
    requires n > 0 ==> Count(ps[..n - 1], now, stale) < want
    ensures ShortestPrefix(ps, n, want, now, stale)
  {
    forall m | 0 <= m < n ensures Count(ps[..m], now, stale) < want {
      CountGrows(ps, m, n - 1, now, stale);
    }
  }

  lemma CountNext(ps: seq<Parked>, n: nat, now: int, stale: int)
    requires n < |ps|
    ensures Count(ps[..n + 1], now, stale) == Count(ps[..n], now, stale) + if Serviceable(ps[n], now, stale) then 1 else 0
  {
    assert ps[..n + 1][..n] == ps[..n];
  }

  // ---------------------------------------------------------------------------------
  // The linked stack
  // ---------------------------------------------------------------------------------

  class RiskWaiter {
    const seed: seq<Byte>
    const enqueued: int
    var next: RiskWaiter?
    var taken: bool
    var abandoned: bool

    constructor (seed: seq<Byte>, next: RiskWaiter?, enqueued: int)
      ensures this.seed == seed && this.next == next && this.enqueued == enqueued
      ensures !taken && !abandoned
    {
      this.seed, this.next, this.enqueued := seed, next, enqueued;
      taken, abandoned := false, false;
    }

    ghost function View(done: bool): Parked
      reads `abandoned
    {
      Parked(abandoned || done, enqueued)
    }
  }

  /** What a take that would pop the whole list reads; done[i] is what the i-th pop finds of
      its waiter's context, which any other thread may cancel at any moment. */
  ghost function Views(list: seq<RiskWaiter>, done: seq<bool>): (ps: seq<Parked>)
    requires |done| == |list|
    reads list`abandoned
    ensures |ps| == |list|
  {
    if list == [] then [] else [list[0].View(done[0])] + Views(list[1..], done[1..])
  }

  lemma {:induction false} ViewAt(list: seq<RiskWaiter>, done: seq<bool>, i: nat)
    requires i < |list| == |done|
    ensures Views(list, done)[i] == list[i].View(done[i])
  {
    if i > 0 {
      ViewAt(list[1..], done[1..], i - 1);
    }
  }

  /** list is the chain of next links that starts at top. */
  ghost predicate Linked(top: RiskWaiter?, list: seq<RiskWaiter>)
    reads list`next
  {
    if list == [] then top == null else top == list[0] && Linked(list[0].next, list[1..])
  }

  /** The serviceable waiters among the first n, in stack order. */
  ghost function Served(list: seq<RiskWaiter>, ps: seq<Parked>, n: nat, now: int, stale: int): seq<RiskWaiter>
    requires n <= |list| == |ps|
  {
    if n == 0 then []
    else Served(list, ps, n - 1, now, stale) + if Serviceable(ps[n - 1], now, stale) then [list[n - 1]] else []
  }

  lemma ServedNext(list: seq<RiskWaiter>, ps: seq<Parked>, n: nat, now: int, stale: int)
    requires n < |list| == |ps|
    ensures Served(list, ps, n + 1, now, stale)
         == Served(list, ps, n, now, stale) + if Serviceable(ps[n], now, stale) then [list[n]] else []
  {
  }

  lemma NoMore(top: RiskWaiter?, list: seq<RiskWaiter>)
    requires Linked(top, list)
    ensures top == null <==> list == []
  {
  }

  lemma NoneYet(list: seq<RiskWaiter>, ps: seq<Parked>, now: int, stale: int)
    requires |list| == |ps|
    ensures Served(list, ps, 0, now, stale) == [] && Count(ps[..0], now, stale) == 0 && Lates(ps, 0, now, stale) == {}
  {
  }

  /** The same in terms of the waiters. */
  lemma LatesAre(list: seq<RiskWaiter>, done: seq<bool>, ps: seq<Parked>, n: nat, now: int, stale: int)
    requires n <= |list| == |done| && ps == Views(list, done)
    ensures Lates(ps, n, now, stale)
         == set i: nat | i < n && !done[i] && !list[i].abandoned && now - list[i].enqueued > stale
  {
    hide Views;
    forall i | 0 <= i < n ensures ps[i] == list[i].View(done[i]) {
      ViewAt(list, done, i);
    }
  }

  lemma {:induction false} ServedOnly(list: seq<RiskWaiter>, ps: seq<Parked>, n: nat, now: int, stale: int, w: RiskWaiter)
    requires n <= |list| == |ps|
    ensures w in Served(list, ps, n, now, stale) <==> exists i: nat :: i < n && list[i] == w && Serviceable(ps[i], now, stale)
  {
    hide Serviceable;
    if n > 0 {
      ServedOnly(list, ps, n - 1, now, stale, w);
    }
  }

  lemma ServedAre(list: seq<RiskWaiter>, done: seq<bool>, ps: seq<Parked>, n: nat, now: int, stale: int)
    requires n <= |list| == |done| && ps == Views(list, done) && forall i, j | 0 <= i < j < |list| :: list[i] != list[j]
    ensures forall i | 0 <= i < n ::
      list[i] in Served(list, ps, n, now, stale) <==> !done[i] && !list[i].abandoned && now - list[i].enqueued <= stale
  {
    hide Views, Served;
    forall i | 0 <= i < n
      ensures list[i] in Served(list, ps, n, now, stale) <==> !done[i] && !list[i].abandoned && now - list[i].enqueued <= stale
    {
      ViewAt(list, done, i);
      ServedOnly(list, ps, n, now, stale, list[i]);
    }
  }

  class RiskStack {
    var top: RiskWaiter?
    var depth: int
    var respErr: int
    ghost var list: seq<RiskWaiter>

    ghost predicate Valid()
      reads this, list`next
    {
      depth == |list| && Linked(top, list) && forall i, j | 0 <= i < j < |list| :: list[i] != list[j]
    }

    constructor ()
      ensures Valid() && list == [] && respErr == 0
    {
      top, depth, respErr, list := null, 0, 0, [];
    }

    /** riskSubmit's push: the newest waiter goes on top. */
    method Push(seed: seq<Byte>, now: int) returns (w: RiskWaiter)
      requires Valid()
      modifies this
      ensures Valid() && fresh(w) && list == [w] + old(list) && respErr == old(respErr)
      ensures w.seed == seed && w.enqueued == now && !w.abandoned && !w.taken
    {
      w := new RiskWaiter(seed, top, now);
      ghost var rest := list;
      list := [w] + rest;
      assert list[1..] == rest;
      top := w;
      depth := depth + 1;
    }

    /** One pop: the top waiter leaves the list. */
    method Unlink() returns (w: RiskWaiter)
      requires Valid() && top != null
      modifies `top, `depth, `list
      ensures Valid() && old(list) != [] && w == old(list)[0] && list == old(list)[1..]
    {
      w := top;
      top := w.next;
      depth := depth - 1;
      list := list[1..];
    }

    /** riskTakeWork: unlinks exactly the shortest prefix that holds want serviceable waiters
        (or everything), returns its serviceable waiters newest first, marks them and no
        others taken, and charges one error for each live stale waiter it unlinks.  Contexts
        are read one by one, as done says, while others may be cancelling them. */
    method TakeWork(want: nat, now: int, stale: int, done: seq<bool>) returns (batch: seq<RiskWaiter>, ghost n: nat)
      requires Valid() && |done| == |list|
      modifies this, list`taken
      ensures Valid() && n <= |old(list)| && list == old(list)[n..]
      ensures ShortestPrefix(old(Views(list, done)), n, want, now, stale)
      ensures batch == Served(old(list), old(Views(list, done)), n, now, stale)
      ensures forall i | 0 <= i < n ::
        old(list)[i] in batch <==> !done[i] && !old(list)[i].abandoned && now - old(list)[i].enqueued <= stale
      ensures respErr == old(respErr)
        + |set i: nat | i < n && !done[i] && !old(list)[i].abandoned && now - old(list)[i].enqueued > stale|
      ensures forall w | w in old(list) :: w.taken == (old(w.taken) || w in batch)
    {
      hide Linked, Views, Count, Lates, Served, ShortestPrefix;
      batch, n := [], 0;
      ghost var (all, ps) := (list, Views(list, done));
      var i := 0;
      NoneYet(all, ps, now, stale);
      while |batch| < want
        invariant Valid() && i == n <= |all| && list == all[n..]
        invariant Views(all, done) == ps
        invariant |batch| == Count(ps[..n], now, stale) <= want
        invariant n > 0 ==> Count(ps[..n - 1], now, stale) < want
        invariant batch == Served(all, ps, n, now, stale)
        invariant respErr == old(respErr) + |Lates(ps, n, now, stale)|
        invariant forall w | w in all :: w.taken == (old(w.taken) || w in batch)
        decreases |list|
      {
        if top == null {
          NoMore(top, list);
          break;
        }
        var w := Unlink();
        assert w == all[n];
        ViewAt(all, done, n);
        CountNext(ps, n, now, stale);
        LatesNext(ps, n, now, stale);
        ServedNext(all, ps, n, now, stale);
        n := n + 1;
        var gone := w.abandoned || done[i];
        i := i + 1;
        if gone {
          continue;
        }
        if now - w.enqueued > stale {
          respErr := respErr + 1;
          continue;
        }
        w.taken := true;
        batch := batch + [w];
      }
      IsShortest(ps, n, want, now, stale);
      LatesAre(all, done, ps, n, now, stale);
      ServedAre(all, done, ps, n, now, stale);
    }
  }
}
