/**
 What a decrypt that succeeds at some rung must have been given, and where it leads.
 */
module ConversationReceipt {
  import opened Outcomes
  import opened Keys
  import opened Chains
  import ChainRuns
  import opened Ratchet
  import SessionEntries
  import opened Ladder
  import opened Conversation
  import opened ConversationSteps

  // ---- one receiving chain ----

  /** When a receiving chain yields the key of counter n. */
  predicate InReach(c: ChainState, n: int) {
    n in c.store || c.counter < n <= c.counter + MAX_SKIP
  }

  function GotAlso(h: History, q: nat, n: int): History
    requires q < |h.got|
  {
    h.(got := h.got[q := h.got[q] + {n}])
  }

  lemma TakenReach(c: ChainState, n: int)
    requires c.Behind() && c.key.Live?
    ensures Taken(c, n).Ok? <==> InReach(c, n)
    ensures Taken(c, n).Ok? ==> Taken(c, n).value.1 == if n > c.counter then KeyFor(c.key.key, c.counter, n) else c.store[n]
  {
    if Fillable(c, n) {
      FillCloses(c, n);
      FilledHoldsTarget(c, n);
    }
  }

  lemma FilledKeys(c: ChainState, r0: Secret, h: History, q: nat, n: int, i: nat)
    requires Wide(h) && 1 <= q < |h.ks| && ReceivingAt(c, r0, h, q)
    requires c.counter < i <= n
    ensures KeyFor(c.key.key, c.counter, i) == MessageKey(r0, h.ks, q, i)
  {
    NextNAdds(Start(r0, h.ks, q), c.counter + 1, i - c.counter - 1);
  }

  /** A receiving chain yields exactly the keys in its reach, each of them the sender's, and
      none that was accepted before. */
  lemma ReceivingYields(c: ChainState, r0: Secret, h: History, q: nat, n: nat)
    requires Wide(h) && 1 <= q < |h.ks| && ReceivingAt(c, r0, h, q)
    ensures Taken(c, n).Ok? <==> InReach(c, n)
    ensures Taken(c, n).Ok? ==> Taken(c, n).value.1 == MessageKey(r0, h.ks, q, n) && n !in h.got[q]
  {
    TakenReach(c, n);
    if n > c.counter {
      FilledKeys(c, r0, h, q, n, n);
    }
  }

  /** What taking message n does, told without the store's trimming. */
  ghost predicate Advanced(c: ChainState, t: ChainState, n: int)
    requires c.key.Live?
  {
    && t.kind == c.kind
    && t.counter == (if n > c.counter then n else c.counter)
    && t.key == Live(NextN(c.key.key, t.counter - c.counter))
    && n !in t.store && |t.store| <= MAX_RETAINED
    && (forall i :: i in t.store ==> i in c.store || c.counter < i <= n)
    && (forall i :: i in t.store && i in c.store && i <= c.counter ==> t.store[i] == c.store[i])
    && (forall i :: i in t.store && c.counter < i ==> t.store[i] == KeyFor(c.key.key, c.counter, i))
  }

  /** Nothing is dropped that is among the last MAX_RETAINED counters. */
  ghost predicate KeepsRecent(c: ChainState, t: ChainState, n: int) {
    forall i :: (i in c.store || c.counter < i <= n) && Recent(t, i) && i != n ==> i in t.store
  }

  lemma {:induction false} SpanBound(s: set<int>, first: int, last: int)
    requires first <= last && forall i :: i in s ==> first < i <= last
    ensures |s| <= last - first
    decreases last - first
  {
    if first == last {
      if s != {} {
        var i := SomeElement(s);
      }
    } else {
      SpanBound(s - {last}, first, last - 1);
    }
  }

  /** A growing fill to n keeps every index within MAX_RETAINED of n: too few are above it. */
  lemma FillKeepsRecent(c: ChainState, n: int, i: int)
    requires c.Behind() && Fillable(c, n)
    requires (i in c.store || c.counter < i <= n) && n - MAX_RETAINED < i
    ensures i in ClosedFill(c, n).store
  {
    var all := Extended(c.store, c.key.key, c.counter, n);
    ExtendedHolds(c.store, c.key.key, c.counter, n);
    SpanBound(Above(all, i), i, n);
    NewestMember(all, i);
  }

  lemma TakenKeepsRecent(c: ChainState, n: int)
    requires c.Behind() && Taken(c, n).Ok?
    ensures KeepsRecent(c, Taken(c, n).value.0, n)
  {
    var t := Taken(c, n).value.0;
    if c.counter < n {
      FillCloses(c, n);
      forall i | (i in c.store || c.counter < i <= n) && Recent(t, i) && i != n
        ensures i in t.store
      {
        FillKeepsRecent(c, n, i);
      }
    }
  }

  lemma FilledAdvances(c: ChainState, n: int)
    requires c.Behind() && Fillable(c, n)
    ensures var f := ClosedFill(c, n);
            && (forall i :: i in f.store ==> i in c.store || c.counter < i <= n)
            && (forall i :: i in f.store && i in c.store && i <= c.counter ==> f.store[i] == c.store[i])
            && (forall i :: i in f.store && c.counter < i ==> f.store[i] == KeyFor(c.key.key, c.counter, i))
  {
    ExtendedHolds(c.store, c.key.key, c.counter, n);
    NewestPart(Extended(c.store, c.key.key, c.counter, n));
  }

  lemma TakenAdvances(c: ChainState, n: int)
    requires c.Behind() && c.key.Live? && |c.store| <= MAX_RETAINED && Taken(c, n).Ok?
    ensures Advanced(c, Taken(c, n).value.0, n)
  {
    var f := Filled(c, n).value;
    SubsetSize((f.store - {n}).Keys, f.store.Keys);
    ChainRuns.CapConverges(c, n);
    if n > c.counter {
      FillCloses(c, n);
      FilledAdvances(c, n);
    }
  }

  lemma AdvancedIsReceiving(c: ChainState, t: ChainState, r0: Secret, h: History, q: nat, n: nat)
    requires Wide(h) && 1 <= q < |h.ks| && ReceivingAt(c, r0, h, q)
    requires n < |h.log[q]| && Advanced(c, t, n) && Complete(t, h.got[q] + {n})
    requires n <= c.counter ==> n in c.store
    ensures ReceivingAt(t, r0, GotAlso(h, q, n), q)
  {
    NextNAdds(Start(r0, h.ks, q), c.counter + 1, t.counter - c.counter);
    forall i: nat | i in t.store
      ensures t.store[i] == MessageKey(r0, h.ks, q, i)
    {
      if i > c.counter {
        FilledKeys(c, r0, h, q, n, i);
      }
    }
  }

  lemma StaysComplete(c: ChainState, t: ChainState, got: set<int>, n: int)
    requires Complete(c, got) && KeepsRecent(c, t, n) && t.counter == if n > c.counter then n else c.counter
    ensures Complete(t, got + {n})
  {
  }

  lemma ReceivingTakes(c: ChainState, r0: Secret, h: History, q: nat, n: nat)
    requires Wide(h) && 1 <= q < |h.ks| && ReceivingAt(c, r0, h, q)
    requires n < |h.log[q]| && Taken(c, n).Ok?
    ensures ReceivingAt(Taken(c, n).value.0, r0, GotAlso(h, q, n), q)
  {
    TakenReach(c, n);
    TakenAdvances(c, n);
    TakenKeepsRecent(c, n);
    StaysComplete(c, Taken(c, n).value.0, h.got[q], n);
    AdvancedIsReceiving(c, Taken(c, n).value.0, r0, h, q, n);
  }

  /** A chain just planned yields counter n when n is within MAX_SKIP of -1. */
  lemma FreshYields(ck: Secret, n: nat)
    ensures Taken(FreshChain(ck, RECEIVING), n).Ok? <==> n < MAX_SKIP
    ensures n < MAX_SKIP ==>
              Taken(FreshChain(ck, RECEIVING), n)
              == Ok((ChainRuns.Settled(ck, RECEIVING, n, {n}), Msg(NextN(ck, n))))
  {
    if n < MAX_SKIP {
      ChainRuns.NothingSettled(ck, RECEIVING);
      ChainRuns.SettledTakes(ck, RECEIVING, -1, {}, n);
    }
  }

  // ---- which chain a successful decrypt used ----

  lemma DecryptAuthenticates(e: EntryState, m: Packet, us: Raw, seed: Priv)
    ensures NaiveDecrypt(e, m, us, seed).Ok? ==> Authenticated(e, m, us, seed).Ok?
  {
  }

  /** Only the wire form of a key names the map entry of its wire form. */
  lemma NamesWire<V>(m: map<Id, V>, remote: Raw, k: Priv)
    requires FirstIn(m, ChainKeyIds(remote)) == Some(Named(Wire(Pub(k))))
    ensures remote == Wire(Pub(k))
  {
  }

  /** No step: the packet names the current receiving chain. */
  lemma OnCurrentChain(e: EntryState, r0: Secret, id: Raw, h: History, p: nat, m: Packet, us: Raw, seed: Priv)
    requires Wide(h) && p < |h.ks| && AtRung(e, r0, id, h, p)
    requires FirstIn(e.chains, ChainKeyIds(m.msg.ephemeral)).Some?
    requires Authenticated(e, m, us, seed).Ok?
    ensures p >= 2 && m.msg.ephemeral == WireOf(h.ks, p - 1)
    ensures var rid := Named(WireOf(h.ks, p - 1));
            var c := e.chains[rid];
            && Taken(c, m.msg.counter).Ok?
            && Authenticated(e, m, us, seed)
               == Ok((e.(chains := e.chains[rid := Taken(c, m.msg.counter).value.0]), Taken(c, m.msg.counter).value.1))
            && m.tag == Mac(Taken(c, m.msg.counter).value.1, id, us, m.msg)
  {
    var found := FirstIn(e.chains, ChainKeyIds(m.msg.ephemeral)).value;
    assert e.chains[found].IsReceiving();
    assert found == Named(WireOf(h.ks, p - 1));
    NamesWire(e.chains, m.msg.ephemeral, h.ks[p - 1]);
  }

  /** A step: the key comes from a chain rooted in the current root. */
  lemma OnNewChain(e: EntryState, m: Packet, us: Raw, seed: Priv)
    requires FirstIn(e.chains, ChainKeyIds(m.msg.ephemeral)).None?
    requires Authenticated(e, m, us, seed).Ok?
    ensures m.msg.ephemeral.point.Pub? && m.msg.counter < MAX_SKIP
    ensures ClosingError(e, m.msg.previousCounter).None?
    ensures var theirs := m.msg.ephemeral.point.sk;
            var base := ChainOf(e.root, Agree(e.priv, theirs));
            var e1 := AfterStep(e, m.msg.ephemeral, theirs, seed);
            var key := Msg(NextN(base, m.msg.counter));
            && m.tag == Mac(key, e.remoteIdentity, us, m.msg)
            && FirstIn(e1.chains, ChainKeyIds(m.msg.ephemeral)).Some?
            && Authenticated(e, m, us, seed)
               == Ok((e1.(chains := e1.chains[FirstIn(e1.chains, ChainKeyIds(m.msg.ephemeral)).value
                                              := ChainRuns.Settled(base, RECEIVING, m.msg.counter, {m.msg.counter as int})]), key))
  {
    var theirs := m.msg.ephemeral.point.sk;
    SessionEntries.StepFindsReceiving(e, m.msg.ephemeral, seed);
    FreshYields(ChainOf(e.root, Agree(e.priv, theirs)), m.msg.counter);
  }

  /** The MAC of a packet that makes the reader step: under a chain rooted in its root. */
  ghost predicate TaggedNext(e: EntryState, m: Packet, us: Raw) {
    && m.msg.ephemeral.point.Pub? && m.msg.counter < MAX_SKIP
    && m.tag == Mac(Msg(NextN(ChainOf(e.root, Agree(e.priv, m.msg.ephemeral.point.sk)), m.msg.counter)),
                    e.remoteIdentity, us, m.msg)
  }

  lemma TagsNext(e: EntryState, m: Packet, us: Raw, seed: Priv)
    requires FirstIn(e.chains, ChainKeyIds(m.msg.ephemeral)).None? && Authenticated(e, m, us, seed).Ok?
    ensures TaggedNext(e, m, us)
  {
    OnNewChain(e, m, us, seed);
  }

  // ---- a verified tag was emitted ----

  /** No attacker computes a message key of a chain rooted on the ladder. */
  lemma ChainSecret(s: Setup, h: History, p: nat, dh: Secret, n: nat)
    requires s.Sound() && p < |h.ks|
    ensures !Derives(s.evil, {}, Msg(NextN(ChainOf(Root(s.R0(), h.ks, p), dh), n)))
  {
    RootSecret(s.evil, s.ikA, s.spkB, s.R0().shared, h.ks, p);
    DerivesBackward(s.evil, {}, ChainOf(Root(s.R0(), h.ks, p), dh), n);
  }

  /** A tag under a key no attacker computes is the tag of an emission. */
  lemma TagWasSent(s: Setup, w: World, h: History, tag: Tag) returns (j: nat)
    requires LadderOk(s, w, h) && SentOk(s, w, h) && Producible(s, w, tag)
    requires tag.Mac? && !Derives(s.evil, {}, tag.key)
    ensures j < |w.sent| && |h.sentAt| == |w.sent| && SentItemOk(s, w, h, j)
    ensures w.sent[j].packet.tag == tag
  {
    j :| 0 <= j < |w.sent| && w.sent[j].packet.tag == tag;
  }

  /** Message keys of chains on the ladder coincide only for one chain and one counter. */
  lemma SameKeySameChain(a: Secret, m: nat, b: Secret, n: nat)
    requires a.ChainOf? && b.ChainOf? && Msg(NextN(a, m)) == Msg(NextN(b, n))
    ensures a == b && m == n
  {
    NextNInjective(a, m, b, n);
  }

  /** An accepted packet on the current chain is the genuine one of its counter. */
  lemma CurrentIsGenuine(s: Setup, w: World, h: History, p: nat, m: Packet)
    requires s.Sound() && LadderOk(s, w, h) && SentOk(s, w, h) && 2 <= p < |h.ks| && Producible(s, w, m.tag)
    requires m.tag.Mac? && m.tag.msg == m.msg && m.tag.key == MessageKey(s.R0(), h.ks, p - 1, m.msg.counter)
    ensures IsGenuine(s, h, p - 1, m)
  {
    var q := p - 1;
    ChainSecret(s, h, q - 1, Agree(h.ks[q - 1], h.ks[q]), m.msg.counter);
    var j := TagWasSent(s, w, h, m.tag);
    var q' := h.sentAt[j];
    SameKeySameChain(Start(s.R0(), h.ks, q), m.msg.counter, Start(s.R0(), h.ks, q'), w.sent[j].packet.msg.counter);
    StartRungs(s.R0(), h.ks, q);
    StartRungs(s.R0(), h.ks, q');
  }

  /** An accepted packet that made the reader step is the genuine one of the next epoch. */
  lemma NextIsGenuine(s: Setup, w: World, h: History, p: nat, m: Packet, theirs: Priv)
    requires s.Sound() && LadderOk(s, w, h) && SentOk(s, w, h) && p < |h.ks| && Producible(s, w, m.tag)
    requires m.msg.ephemeral.point == Pub(theirs)
    requires m.tag.Mac? && m.tag.msg == m.msg
    requires m.tag.key == Msg(NextN(ChainOf(Root(s.R0(), h.ks, p), Agree(h.ks[p], theirs)), m.msg.counter))
    ensures p + 1 < |h.ks| && theirs == h.ks[p + 1]
    ensures IsGenuine(s, h, p + 1, m)
  {
    var base := ChainOf(Root(s.R0(), h.ks, p), Agree(h.ks[p], theirs));
    ChainSecret(s, h, p, Agree(h.ks[p], theirs), m.msg.counter);
    var j := TagWasSent(s, w, h, m.tag);
    var q := h.sentAt[j];
    SameKeySameChain(base, m.msg.counter, Start(s.R0(), h.ks, q), w.sent[j].packet.msg.counter);
    RootRungs(s.R0(), h.ks, p);
    StartRungs(s.R0(), h.ks, q);
    assert q == p + 1;
    AgreeInjective(h.ks[p], theirs, h.ks[q]);
  }
}
