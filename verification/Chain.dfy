/**
 One symmetric-key chain: the skipped-key store with its cap, fill_message_keys and
 its read-only twin peek_message_key (ratchet.rs), over the Chain record of session.rs.
 */
module Chains {
  import opened Outcomes
  import opened Keys

  const MAX_SKIP: int := 2000
  const MAX_RETAINED: nat := 2000

  const LEGACY_RECEIVING: nat := 0
  const SENDING: nat := 1
  const RECEIVING: nat := 2

  /** ChainKey.key: an absent field, the empty text, or key material. */
  datatype ChainKey = Deleted | Blank | Live(key: Secret)

  datatype ChainState = ChainState(counter: int, key: ChainKey, kind: nat, store: map<int, Secret>)
  {
    predicate IsSending() { kind == SENDING }
    predicate IsReceiving() { kind == RECEIVING || kind == LEGACY_RECEIVING }

    /** Every stored key is behind the chain. */
    ghost predicate Behind() {
      counter >= -1 && forall i :: i in store ==> i <= counter
    }
  }

  function FreshChain(key: Secret, kind: nat): ChainState {
    ChainState(-1, Live(key), kind, map[])
  }

  // ---- the skipped-key store ----

  lemma SubsetSize<T>(a: set<T>, b: set<T>)
    requires a <= b
    ensures |a| <= |b|
  {
    if a != {} {
      var x :| x in a;
      SubsetSize(a - {x}, b - {x});
    }
  }

  lemma SomeElement<T>(s: set<T>) returns (x: T)
    requires s != {}
    ensures x in s
  {
    x :| x in s;
  }

  lemma {:induction false} LeastExists(s: set<int>)
    requires s != {}
    ensures exists k :: k in s && forall j :: j in s ==> k <= j
  {
    var x := SomeElement(s);
    assert forall j :: j in s ==> j == x || j in s - {x};
    var least := x;
    if s - {x} != {} {
      LeastExists(s - {x});
      var k :| k in s - {x} && forall j :: j in s - {x} ==> k <= j;
      least := if x < k then x else k;
    }
    assert least in s && forall j :: j in s ==> least <= j;
  }

  /** The smallest index: what BTreeMap::pop_first takes. */
  function Least(s: set<int>): int
    requires s != {}
  {
    LeastExists(s);
    var k :| k in s && forall j :: j in s ==> k <= j;
    k
  }

  lemma LeastIsLeast(s: set<int>)
    requires s != {}
    ensures Least(s) in s && forall j :: j in s ==> Least(s) <= j
  {
    LeastExists(s);
  }

  /** A store without its oldest key. */
  function Younger(m: map<int, Secret>): (rest: map<int, Secret>)
    requires |m| > 0
    ensures |rest| == |m| - 1
  {
    var rest := map i | i in m && i != Least(m.Keys) :: m[i];
    LeastIsLeast(m.Keys);
    OneFewer(m, rest, Least(m.Keys));
    rest
  }

  lemma OneFewer<K, V>(m: map<K, V>, rest: map<K, V>, k: K)
    requires k in m && forall i :: i in rest <==> i in m && i != k
    ensures |rest| == |m| - 1
  {
    assert rest.Keys == m.Keys - {k};
  }

  /** What is left of a store after the oldest keys beyond MAX_RETAINED are dropped. */
  function Newest(m: map<int, Secret>): map<int, Secret>
    decreases |m|
  {
    if |m| <= MAX_RETAINED then m else Newest(Younger(m))
  }

  /** The indices of m above i. */
  function Above(m: map<int, Secret>, i: int): set<int> {
    set j | j in m && i < j
  }

  lemma {:induction false} NewestSize(m: map<int, Secret>)
    ensures |Newest(m)| == if |m| <= MAX_RETAINED then |m| else MAX_RETAINED
    decreases |m|
  {
    if |m| > MAX_RETAINED {
      NewestSize(Younger(m));
    }
  }

  /** The declarative reading of Newest: an index stays exactly when fewer than
      MAX_RETAINED indices are above it, and it keeps its key. */
  lemma {:induction false} NewestMember(m: map<int, Secret>, i: int)
    ensures i in Newest(m) <==> i in m && |Above(m, i)| < MAX_RETAINED
    ensures i in Newest(m) ==> Newest(m)[i] == m[i]
    decreases |m|
  {
    if |m| <= MAX_RETAINED {
      if i in m {
        SubsetSize(Above(m, i), m.Keys - {i});
      }
    } else {
      LeastIsLeast(m.Keys);
      var least, rest := Least(m.Keys), Younger(m);
      NewestMember(rest, i);
      if i == least {
        assert Above(m, i) == rest.Keys;
      } else if i in m {
        assert Above(m, i) == Above(rest, i);
      }
    }
  }

  lemma NewestPart(m: map<int, Secret>)
    ensures forall i :: i in Newest(m) ==> i in m && Newest(m)[i] == m[i]
  {
    forall i | i in Newest(m)
      ensures i in m && Newest(m)[i] == m[i]
    {
      NewestMember(m, i);
    }
  }

  /** What Newest drops is older than all that it keeps. */
  lemma NewestSeparates(m: map<int, Secret>, i: int, j: int)
    requires i in m && i !in Newest(m) && j in Newest(m)
    ensures i < j
  {
    NewestMember(m, i);
    NewestMember(m, j);
    if j < i {
      SubsetSize(Above(m, i), Above(m, j));
    }
  }

  /** Whether an index is among the newest of a store does not depend on older keys: kept
      holds the newest of m, and the indices first+1 .. last are put into both. */
  lemma AbsorbedIndex(m: map<int, Secret>, kept: map<int, Secret>, some: map<int, Secret>, all: map<int, Secret>,
                      first: int, last: int, i: int)
    requires kept.Keys <= m.Keys
    requires forall x, y :: x in m && x !in kept && y in kept ==> x < y
    requires kept == m || |kept| == MAX_RETAINED
    requires Adds(kept, some, first, last) && Adds(m, all, first, last)
    ensures i in some && |Above(some, i)| < MAX_RETAINED <==> i in all && |Above(all, i)| < MAX_RETAINED
  {
    var early, late := Above(some, i), Above(all, i);
    if j: int :| j in late && j !in early {
      // j is not kept, so all that is kept is above it, and above i
      assert j in m && j !in kept;
      forall x | x in kept
        ensures x in early && x in late
      {
        assert x in some && x in all && j < x;
      }
      KeysWithin(kept, early);
      KeysWithin(kept, late);
    } else {
      SameElements(early, late);
      if i in m && i !in some {
        forall x | x in kept
          ensures x in late
        {
          assert x in all;
        }
        KeysWithin(kept, late);
      }
    }
  }

  lemma KeysWithin<K, V>(m: map<K, V>, s: set<K>)
    requires forall x :: x in m ==> x in s
    ensures |m| <= |s|
  {
    SubsetSize(m.Keys, s);
  }

  lemma SameElements<T>(a: set<T>, b: set<T>)
    requires forall x :: x in a <==> x in b
    ensures a == b
  {
  }

  /** Two stores hold the same key wherever both hold one. */
  ghost predicate Agreeing(some: map<int, Secret>, all: map<int, Secret>) {
    forall i :: i in some && i in all ==> some[i] == all[i]
  }

  /** The indices of all are those of m and first+1 .. last. */
  ghost predicate Adds(m: map<int, Secret>, all: map<int, Secret>, first: int, last: int) {
    forall i :: i in all <==> i in m || first < i <= last
  }

  lemma NewestUpper(m: map<int, Secret>)
    ensures forall x, y :: x in m && x !in Newest(m) && y in Newest(m) ==> x < y
  {
    forall x, y | x in m && x !in Newest(m) && y in Newest(m)
      ensures x < y
    {
      NewestSeparates(m, x, y);
    }
  }

  lemma NewestIsKept(m: map<int, Secret>)
    ensures Newest(m).Keys <= m.Keys
    ensures forall x, y :: x in m && x !in Newest(m) && y in Newest(m) ==> x < y
    ensures Newest(m) == m || |Newest(m)| == MAX_RETAINED
  {
    NewestPart(m);
    NewestSize(m);
    NewestUpper(m);
  }

  lemma SameEntries<K, V>(a: map<K, V>, b: map<K, V>)
    requires forall i :: i in a <==> i in b
    requires forall i :: i in a && i in b ==> a[i] == b[i]
    ensures a == b
  {
  }

  /** Putting keys into the trimmed store and trimming again keeps what one trim of
      everything keeps. */
  lemma NewestAbsorbs(m: map<int, Secret>, some: map<int, Secret>, all: map<int, Secret>, first: int, last: int)
    requires Adds(Newest(m), some, first, last) && Adds(m, all, first, last)
    requires Agreeing(some, all)
    ensures Newest(some) == Newest(all)
  {
    NewestIsKept(m);
    var a, b := Newest(some), Newest(all);
    forall i: int
      ensures i in a <==> i in b
      ensures i in a && i in b ==> a[i] == b[i]
    {
      AbsorbedIndex(m, Newest(m), some, all, first, last, i);
      NewestMember(some, i);
      NewestMember(all, i);
    }
    SameEntries(a, b);
  }

  // ---- filling and taking ----

  /** One level of fill_message_keys: store the next key, trim, move on. */
  function OneLevel(c: ChainState): ChainState
    requires c.key.Live?
  {
    c.(counter := c.counter + 1,
       key := Live(Next(c.key.key)),
       store := Newest(c.store[c.counter + 1 := Msg(c.key.key)]))
  }

  /** fill_message_keys. */
  function Filled(c: ChainState, n: int): Result<ChainState>
    decreases n - c.counter
  {
    if n <= c.counter then Ok(c)
    else if !c.key.Live? then Err(ChainClosed)
    else if n - c.counter > MAX_SKIP then Err(TooFarAhead)
    else Filled(OneLevel(c), n)
  }

  function StoredKey(c: ChainState, n: int): Option<Secret> {
    if n in c.store then Some(c.store[n]) else None
  }

  /** Taking message n out of a chain: fill, then remove the key of n. */
  function Taken(c: ChainState, n: int): Result<(ChainState, Secret)> {
    match Filled(c, n)
    case Err(e) => Err(e)
    case Ok(f) =>
      if n in f.store then Ok((f.(store := f.store - {n}), f.store[n]))
      else Err(NoMessageKey)
  }

  // ---- what a fill does, in closed form ----

  /** The message key of counter i, for a chain key standing at counter at. */
  function KeyFor(ck: Secret, at: int, i: int): Secret
    requires at < i
  {
    Msg(NextN(ck, i - at - 1))
  }

  /** A store with the message keys of counters at+1 .. n put in. */
  function Extended(store: map<int, Secret>, ck: Secret, at: int, n: int): map<int, Secret>
    requires at <= n
    decreases n - at
  {
    if n == at then store else Extended(store, ck, at, n - 1)[n := KeyFor(ck, at, n)]
  }

  lemma ExtendedHolds(store: map<int, Secret>, ck: Secret, at: int, n: int)
    requires at <= n
    ensures Adds(store, Extended(store, ck, at, n), at, n)
    ensures forall i :: i in Extended(store, ck, at, n) ==>
              Extended(store, ck, at, n)[i] == if at < i <= n then KeyFor(ck, at, i) else store[i]
    decreases n - at
  {
    if at < n {
      ExtendedHolds(store, ck, at, n - 1);
    }
  }

  /** Whether a fill to n gets past the guards. */
  predicate Fillable(c: ChainState, n: int) {
    n > c.counter && c.key.Live? && n - c.counter <= MAX_SKIP
  }

  /** A growing fill: the key walks n - counter steps and the newest keys are kept. */
  function ClosedFill(c: ChainState, n: int): ChainState
    requires Fillable(c, n)
  {
    c.(counter := n,
       key := Live(NextN(c.key.key, n - c.counter)),
       store := ClosedStore(c.store, c.key.key, c.counter, n))
  }

  /** One trim of the old keys and the new ones together. */
  function ClosedStore(store: map<int, Secret>, ck: Secret, at: int, n: int): map<int, Secret>
    requires at <= n
  {
    Newest(Extended(store, ck, at, n))
  }

  lemma KeyForShifts(k: Secret, at: int, i: int)
    requires at + 1 < i
    ensures KeyFor(k, at, i) == KeyFor(Next(k), at + 1, i)
  {
    NextNFirst(k, i - at - 2);
  }

  /** Extending part of a store that already has its first new key gives the same keys. */
  lemma ExtensionsAgree(store: map<int, Secret>, kept: map<int, Secret>, k: Secret, at: int, n: int)
    requires at < n
    requires forall i :: i in kept ==> i in store[at + 1 := Msg(k)] && kept[i] == store[at + 1 := Msg(k)][i]
    ensures Adds(kept, Extended(kept, Next(k), at + 1, n), at + 1, n)
    ensures Adds(store[at + 1 := Msg(k)], Extended(store, k, at, n), at + 1, n)
    ensures Agreeing(Extended(kept, Next(k), at + 1, n), Extended(store, k, at, n))
  {
    var some, all := Extended(kept, Next(k), at + 1, n), Extended(store, k, at, n);
    ExtendedHolds(store, k, at, n);
    ExtendedHolds(kept, Next(k), at + 1, n);
    forall i: int | i in some && i in all
      ensures some[i] == all[i]
    {
      if at + 1 < i <= n {
        KeyForShifts(k, at, i);
      } else {
        assert i in kept;
      }
    }
  }

  /** Trimming after the first insert and again at the end is one trim at the end. */
  lemma GrowthUnfolds(store: map<int, Secret>, k: Secret, at: int, n: int)
    requires at < n
    ensures ClosedStore(store, k, at, n) == ClosedStore(Newest(store[at + 1 := Msg(k)]), Next(k), at + 1, n)
  {
    var first := store[at + 1 := Msg(k)];
    NewestPart(first);
    ExtensionsAgree(store, Newest(first), k, at, n);
    NewestAbsorbs(first, Extended(Newest(first), Next(k), at + 1, n), Extended(store, k, at, n), at + 1, n);
  }

  lemma LastLevel(store: map<int, Secret>, k: Secret, at: int)
    ensures Newest(store[at + 1 := Msg(k)]) == ClosedStore(store, k, at, at + 1)
  {
    assert Extended(store, k, at, at) == store;
    assert KeyFor(k, at, at + 1) == Msg(k);
    assert Extended(store, k, at, at + 1) == store[at + 1 := Msg(k)];
  }

  /** One level of the recursion does not change where the closed form leads. */
  lemma ClosedFillUnfolds(c: ChainState, n: int)
    requires Fillable(c, n) && n > c.counter + 1
    ensures ClosedFill(OneLevel(c), n) == ClosedFill(c, n)
  {
    NextNFirst(c.key.key, n - c.counter - 1);
    GrowthUnfolds(c.store, c.key.key, c.counter, n);
  }

  lemma ClosedFillOnce(c: ChainState)
    requires c.key.Live?
    ensures ClosedFill(c, c.counter + 1) == OneLevel(c)
  {
    LastLevel(c.store, c.key.key, c.counter);
    assert NextN(c.key.key, 1) == Next(NextN(c.key.key, 0));
  }

  /** The recursion, with a trim at every level, reaches the closed form: it never fails
      part of the way, and it keeps what one trim of everything would keep. */
  lemma {:induction false} FillCloses(c: ChainState, n: int)
    requires Fillable(c, n)
    ensures Filled(c, n) == Ok(ClosedFill(c, n))
    decreases n - c.counter
  {
    var one := OneLevel(c);
    assert Filled(c, n) == Filled(one, n);
    if n == c.counter + 1 {
      ClosedFillOnce(c);
    } else {
      FillCloses(one, n);
      ClosedFillUnfolds(c, n);
    }
  }

  /** After a growing fill the target's key is there, whatever was evicted. */
  lemma FilledHoldsTarget(c: ChainState, n: int)
    requires c.Behind() && Fillable(c, n)
    ensures n in ClosedFill(c, n).store && ClosedFill(c, n).store[n] == KeyFor(c.key.key, c.counter, n)
  {
    var all := Extended(c.store, c.key.key, c.counter, n);
    ExtendedHolds(c.store, c.key.key, c.counter, n);
    NewestMember(all, n);
    assert Above(all, n) == {};
  }

  /** Why a key cannot be taken: it is behind the chain and not stored, or the chain is closed,
      or it is more than 2000 ahead.  Nothing else stands in the way. */
  lemma WhyTakeFails(c: ChainState, n: int)
    requires c.Behind()
    ensures Taken(c, n) == Err(NoMessageKey) <==> n <= c.counter && n !in c.store
    ensures Taken(c, n) == Err(ChainClosed) <==> n > c.counter && !c.key.Live?
    ensures Taken(c, n) == Err(TooFarAhead) <==> n > c.counter + 2000 && c.key.Live?
    ensures Taken(c, n).Ok? <==> n in c.store || (c.key.Live? && c.counter < n <= c.counter + 2000)
  {
    if Fillable(c, n) {
      FillCloses(c, n);
      FilledHoldsTarget(c, n);
    }
  }

  // ---- the class ----

  class Chain {
    var counter: int
    var key: ChainKey
    var kind: nat
    var messageKeys: map<int, Secret>

    function View(): ChainState
      reads this
    {
      ChainState(counter, key, kind, messageKeys)
    }

    constructor (state: ChainState)
      ensures View() == state
    {
      counter, key, kind, messageKeys := state.counter, state.key, state.kind, state.store;
    }

    /** BTreeMap::pop_first. */
    method PopFirst() returns (least: int)
      requires |messageKeys| > 0
      modifies this`messageKeys
      ensures least in old(messageKeys) && forall i :: i in old(messageKeys) ==> least <= i
      ensures messageKeys == Younger(old(messageKeys))
    {
      least := Least(messageKeys.Keys);
      LeastIsLeast(messageKeys.Keys);
      messageKeys := messageKeys - {least};
    }

    /** evict_oldest_message_keys. */
    method EvictOldest()
      modifies this`messageKeys
      ensures messageKeys == Newest(old(messageKeys))
    {
      while |messageKeys| > MAX_RETAINED
        invariant Newest(messageKeys) == Newest(old(messageKeys))
        decreases |messageKeys|
      {
        var _ := PopFirst();
      }
    }

    /** fill_message_keys: one key per level of the recursion, trimmed after each insert. */
    method Fill(n: int) returns (r: Result<()>)
      modifies this
      ensures match Filled(old(View()), n)
              case Ok(_) => r == Ok(())
              case Err(e) => r == Err(e)
      ensures r.Ok? ==> View() == Filled(old(View()), n).value
      ensures r.Err? ==> View() == old(View())
      decreases n - counter
    {
      if n <= counter {
        return Ok(());
      }
      if !key.Live? {
        return Err(ChainClosed);
      }
      if n - counter > MAX_SKIP {
        return Err(TooFarAhead);
      }
      FillCloses(View(), n);
      var ck := key.key;
      var messageKey := Msg(ck);
      var nextChainKey := Next(ck);
      messageKeys := messageKeys[counter + 1 := messageKey];
      EvictOldest();
      key := Live(nextChainKey);
      counter := counter + 1;
      assert View() == OneLevel(old(View()));
      r := Fill(n);
    }

    /** Fill to n, then remove and return the key of n. */
    method Take(n: int) returns (r: Result<Secret>)
      modifies this
      ensures match Taken(old(View()), n)
              case Ok(t) => r == Ok(t.1) && View() == t.0
              case Err(x) => r == Err(x)
    {
      var filled := Fill(n);
      if filled.Err? {
        return Err(filled.error);
      }
      if n !in messageKeys {
        return Err(NoMessageKey);
      }
      r := Ok(messageKeys[n]);
      messageKeys := messageKeys - {n};
    }

    /** peek_message_key: the loop that reads ahead without writing. */
    method Peek(n: int) returns (r: Result<Option<Secret>>)
      requires View().Behind()
      ensures Filled(View(), n).Ok? ==> r == Ok(StoredKey(Filled(View(), n).value, n))
      ensures Filled(View(), n).Err? ==> r == Err(Filled(View(), n).error)
      ensures n > counter && r.Ok? ==> r.value.Some?
    {
      if n <= counter {
        return Ok(if n in messageKeys then Some(messageKeys[n]) else None);
      }
      if !key.Live? {
        return Err(ChainClosed);
      }
      if n - counter > MAX_SKIP {
        return Err(TooFarAhead);
      }
      var ck := key.key;
      var messageKey := Filler;
      for i := counter to n
        invariant ck == NextN(key.key, i - counter)
        invariant i > counter ==> messageKey == Msg(NextN(key.key, i - counter - 1))
      {
        messageKey := Msg(ck);
        ck := Next(ck);
      }
      FillCloses(View(), n);
      FilledHoldsTarget(View(), n);
      return Ok(Some(messageKey));
    }
  }
}
