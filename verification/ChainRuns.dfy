/**
 What the chain operations of module Chains guarantee over whole runs: the cap on the
 store, and that the order in which an epoch's messages arrive does not matter.
 */
module ChainRuns {
  import opened Outcomes
  import opened Keys
  import opened Chains

  lemma GrowthSize(store: map<int, Secret>, ck: Secret, at: int, n: int)
    requires at <= n && forall i :: i in store ==> i <= at
    ensures |Extended(store, ck, at, n)| == |store| + (n - at)
    decreases n - at
  {
    if at < n {
      GrowthSize(store, ck, at, n - 1);
      ExtendedHolds(store, ck, at, n - 1);
    }
  }

  /** A growing fill leaves exactly the MAX_RETAINED newest of the old and new keys:
      whatever it lost is older than whatever it kept, and it lost something only when
      there were more than MAX_RETAINED. */
  lemma CappedFill(c: ChainState, n: int)
    requires c.Behind() && Fillable(c, n)
    ensures Filled(c, n).Ok?
    ensures var all := Extended(c.store, c.key.key, c.counter, n);
            var kept := Filled(c, n).value.store;
            && |all| == |c.store| + (n - c.counter)
            && |kept| == (if |all| <= 2000 then |all| else 2000)
            && (forall i :: i in kept ==> i in all && kept[i] == all[i])
            && (forall i, j :: i in all && i !in kept && j in kept ==> i < j)
  {
    FillCloses(c, n);
    GrowthSize(c.store, c.key.key, c.counter, n);
    ExtendedHolds(c.store, c.key.key, c.counter, n);
    NewestFacts(Extended(c.store, c.key.key, c.counter, n));
  }

  lemma NewestFacts(all: map<int, Secret>)
    ensures |Newest(all)| == if |all| <= MAX_RETAINED then |all| else MAX_RETAINED
    ensures forall i :: i in Newest(all) ==> i in all && Newest(all)[i] == all[i]
    ensures forall i, j :: i in all && i !in Newest(all) && j in Newest(all) ==> i < j
  {
    NewestSize(all);
    NewestPart(all);
    NewestUpper(all);
  }

  /** A chain within the cap stays within it whatever it is filled to, and one over the
      cap is within it after the first fill that grows it. */
  lemma CapConverges(c: ChainState, n: int)
    requires c.Behind() && Filled(c, n).Ok?
    requires |c.store| <= 2000 || n > c.counter
    ensures |Filled(c, n).value.store| <= 2000
    ensures Filled(c, n).value.Behind()
  {
    if n > c.counter {
      FillCloses(c, n);
      ExtendedHolds(c.store, c.key.key, c.counter, n);
      NewestFacts(Extended(c.store, c.key.key, c.counter, n));
    }
  }

  /** The largest single jump from an empty store evicts nothing. */
  lemma FirstJumpEvictsNothing(c: ChainState, n: int)
    requires c.Behind() && Fillable(c, n) && c.store == map[]
    ensures Filled(c, n).Ok? && Filled(c, n).value.store == Extended(map[], c.key.key, c.counter, n)
  {
    FillCloses(c, n);
    GrowthSize(c.store, c.key.key, c.counter, n);
  }

  lemma {:induction false} SpanSize(first: int, last: int, s: set<int>)
    requires first <= last
    requires forall i :: i in s <==> first < i <= last
    ensures |s| == last - first
    decreases last - first
  {
    if first == last {
      if s != {} {
        var i := SomeElement(s);
      }
    } else {
      SpanSize(first, last - 1, s - {last});
    }
  }

  // ---- order independence ----

  /** The largest counter delivered, -1 when there is none. */
  function Top(ns: seq<int>): (top: int)
    ensures top >= -1 && forall n :: n in ns ==> n <= top
    ensures top == -1 || top in ns
  {
    if ns == [] then -1
    else
      var rest := Top(ns[..|ns| - 1]);
      assert ns == ns[..|ns| - 1] + [ns[|ns| - 1]];
      if ns[|ns| - 1] > rest then ns[|ns| - 1] else rest
  }

  /** Every arrival is added, at most MAX_SKIP ahead of the largest so far, and at its
      arrival at most MAX_RETAINED counters up to the largest are still to be consumed,
      itself included. */
  predicate InWindow(ns: seq<int>) {
    ns == [] ||
    var before, n := ns[..|ns| - 1], ns[|ns| - 1];
    && InWindow(before)
    && n >= 0 && n !in before
    && n - Top(before) <= MAX_SKIP
    && (n > Top(before) ==> n + 1 - |before| <= MAX_RETAINED)
  }

  /** Deliver the counters one after the other; the keys come out in the same order. */
  function TakeAll(c: ChainState, ns: seq<int>): Result<(ChainState, seq<Secret>)> {
    if ns == [] then Ok((c, []))
    else
      match TakeAll(c, ns[..|ns| - 1])
      case Err(e) => Err(e)
      case Ok(before) =>
        match Taken(before.0, ns[|ns| - 1])
        case Err(e) => Err(e)
        case Ok(t) => Ok((t.0, before.1 + [t.1]))
  }

  /** The chain that starts at ck after exactly the counters in delivered have been
      consumed, the largest being top. */
  function Settled(ck: Secret, kind: nat, top: int, delivered: set<int>): ChainState
    requires top >= -1
  {
    ChainState(top, Live(NextN(ck, top + 1)), kind, Undelivered(ck, top, delivered))
  }

  /** The keys of the counters up to top that are not in delivered. */
  function Undelivered(ck: Secret, top: int, delivered: set<int>): map<int, Secret> {
    map i: int | -1 < i <= top && i !in delivered :: KeyFor(ck, -1, i)
  }

  /** The message keys the sender used for these counters. */
  function KeysOf(ck: Secret, ns: seq<int>): seq<Secret>
    requires InWindow(ns)
  {
    if ns == [] then [] else KeysOf(ck, ns[..|ns| - 1]) + [Msg(NextN(ck, ns[|ns| - 1]))]
  }

  function Elements<T(!new)>(xs: seq<T>): (all: set<T>)
    ensures forall x :: x in all <==> x in xs
  {
    set x | x in xs
  }

  lemma ElementsPush<T(!new)>(xs: seq<T>, x: T)
    ensures Elements(xs + [x]) == Elements(xs) + {x}
  {
  }

  lemma ElementsSize(ns: seq<int>)
    requires InWindow(ns)
    ensures |Elements(ns)| == |ns|
  {
    if ns != [] {
      var before, n := ns[..|ns| - 1], ns[|ns| - 1];
      ElementsSize(before);
      assert ns == before + [n];
      ElementsPush(before, n);
    }
  }

  lemma DeliveredWithin(ns: seq<int>)
    requires InWindow(ns)
    ensures Within(Elements(ns), Top(ns))
  {
    if ns != [] {
      var before, n := ns[..|ns| - 1], ns[|ns| - 1];
      DeliveredWithin(before);
      assert ns == before + [n];
      ElementsPush(before, n);
    }
  }

  /** Number of keys a settled chain still holds. */
  lemma UndeliveredSize(ck: Secret, top: int, delivered: set<int>)
    requires top >= -1 && forall n :: n in delivered ==> 0 <= n <= top
    ensures |Undelivered(ck, top, delivered)| == top + 1 - |delivered|
  {
    SpanSize(-1, top, Undelivered(ck, top, delivered).Keys + delivered);
  }

  lemma KeysFrom(ck: Secret, at: int, i: int)
    requires -1 <= at < i
    ensures KeyFor(NextN(ck, at + 1), at, i) == KeyFor(ck, -1, i)
  {
    NextNAdds(ck, at + 1, i - at - 1);
  }

  predicate Within(delivered: set<int>, top: int) {
    top >= -1 && forall m :: m in delivered ==> 0 <= m <= top
  }

  /** The keys a settled chain holds and the keys it derives next, put together. */
  lemma UndeliveredGrows(ck: Secret, top: int, delivered: set<int>, n: int)
    requires Within(delivered, top) && top < n
    ensures Extended(Undelivered(ck, top, delivered), NextN(ck, top + 1), top, n) == Undelivered(ck, n, delivered)
  {
    forall i: int | top < i <= n
      ensures KeyFor(NextN(ck, top + 1), top, i) == KeyFor(ck, -1, i)
    {
      KeysFrom(ck, top, i);
    }
    ExtendedHolds(Undelivered(ck, top, delivered), NextN(ck, top + 1), top, n);
  }

  lemma UndeliveredCloses(ck: Secret, top: int, delivered: set<int>, n: int)
    requires Within(delivered, top) && top < n && n + 1 - |delivered| <= MAX_RETAINED
    ensures ClosedStore(Undelivered(ck, top, delivered), NextN(ck, top + 1), top, n) == Undelivered(ck, n, delivered)
  {
    UndeliveredGrows(ck, top, delivered, n);
    UndeliveredSize(ck, n, delivered);
  }

  lemma SettledCloses(ck: Secret, kind: nat, top: int, delivered: set<int>, n: int)
    requires Within(delivered, top)
    requires top < n <= top + MAX_SKIP && n + 1 - |delivered| <= MAX_RETAINED
    ensures ClosedFill(Settled(ck, kind, top, delivered), n) == Settled(ck, kind, n, delivered)
  {
    UndeliveredCloses(ck, top, delivered, n);
    NextNAdds(ck, top + 1, n - top);
  }

  lemma SettledFills(ck: Secret, kind: nat, top: int, delivered: set<int>, n: int)
    requires Within(delivered, top)
    requires top < n <= top + MAX_SKIP && n + 1 - |delivered| <= MAX_RETAINED
    ensures Filled(Settled(ck, kind, top, delivered), n) == Ok(Settled(ck, kind, n, delivered))
  {
    SettledCloses(ck, kind, top, delivered, n);
    FillCloses(Settled(ck, kind, top, delivered), n);
  }

  lemma UndeliveredTakes(ck: Secret, top: int, delivered: set<int>, n: int)
    requires 0 <= n <= top && n !in delivered
    ensures n in Undelivered(ck, top, delivered) && Undelivered(ck, top, delivered)[n] == KeyFor(ck, -1, n)
    ensures Undelivered(ck, top, delivered) - {n} == Undelivered(ck, top, delivered + {n})
  {
  }

  lemma SettledTakes(ck: Secret, kind: nat, top: int, delivered: set<int>, n: int)
    requires Within(delivered, top)
    requires n >= 0 && n !in delivered && n - top <= MAX_SKIP
    requires n > top ==> n + 1 - |delivered| <= MAX_RETAINED
    ensures Taken(Settled(ck, kind, top, delivered), n)
         == Ok((Settled(ck, kind, if n > top then n else top, delivered + {n}), KeyFor(ck, -1, n)))
  {
    if n > top {
      SettledFills(ck, kind, top, delivered, n);
      UndeliveredTakes(ck, n, delivered, n);
    } else {
      UndeliveredTakes(ck, top, delivered, n);
    }
  }

  lemma NothingSettled(ck: Secret, kind: nat)
    ensures Settled(ck, kind, -1, {}) == FreshChain(ck, kind)
  {
    assert Undelivered(ck, -1, {}) == map[];
  }

  lemma DeliveryStep(ck: Secret, kind: nat, before: seq<int>, n: int)
    requires InWindow(before + [n])
    ensures InWindow(before)
    ensures Taken(Settled(ck, kind, Top(before), Elements(before)), n)
         == Ok((Settled(ck, kind, Top(before + [n]), Elements(before + [n])), Msg(NextN(ck, n))))
  {
    var ns := before + [n];
    assert ns[..|ns| - 1] == before && ns[|ns| - 1] == n;
    ElementsSize(before);
    DeliveredWithin(before);
    SettledTakes(ck, kind, Top(before), Elements(before), n);
    ElementsPush(before, n);
  }

  /** Every message of an epoch that arrives within the window yields its own key, and
      the chain left behind is a function of the set delivered. */
  lemma {:induction false} EpochDelivery(ck: Secret, kind: nat, ns: seq<int>)
    requires InWindow(ns)
    ensures TakeAll(FreshChain(ck, kind), ns)
         == Ok((Settled(ck, kind, Top(ns), Elements(ns)), KeysOf(ck, ns)))
  {
    if ns == [] {
      NothingSettled(ck, kind);
    } else {
      var before, n := ns[..|ns| - 1], ns[|ns| - 1];
      assert ns == before + [n];
      EpochDelivery(ck, kind, before);
      DeliveryStep(ck, kind, before, n);
    }
  }

  lemma SameTop(ns: seq<int>, ms: seq<int>)
    requires InWindow(ns) && Elements(ns) == Elements(ms)
    ensures Top(ns) <= Top(ms)
  {
    if Top(ns) != -1 {
      assert Top(ns) in Elements(ns);
      assert Top(ns) in ms;
    }
  }

  /** Two deliveries of the same set of messages, in whatever orders, leave the same
      chain. */
  lemma OrderIndependence(ck: Secret, kind: nat, ns: seq<int>, ms: seq<int>)
    requires InWindow(ns) && InWindow(ms) && Elements(ns) == Elements(ms)
    ensures TakeAll(FreshChain(ck, kind), ns).Ok? && TakeAll(FreshChain(ck, kind), ms).Ok?
    ensures TakeAll(FreshChain(ck, kind), ns).value.0 == TakeAll(FreshChain(ck, kind), ms).value.0
  {
    EpochDelivery(ck, kind, ns);
    EpochDelivery(ck, kind, ms);
    SameTop(ns, ms);
    SameTop(ms, ns);
  }
}
