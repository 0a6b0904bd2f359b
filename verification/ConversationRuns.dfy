/**
 The invariant of a conversation holds after every delivery, and so after every run.
 */
module ConversationRuns {
  import opened Outcomes
  import opened Keys
  import opened Chains
  import ChainRuns
  import opened Ratchet
  import opened Ladder
  import opened Conversation
  import opened ConversationSteps
  import opened ConversationReceipt

  // ---- accepting on the current chain ----

  function Accepted(h: History, q: nat, n: int): History
    requires q < |h.got|
  {
    GotAlso(h, q, n).(gotAt := h.gotAt + [q])
  }

  lemma AcceptedLogGrows(s: Setup, w: World, h: History, w': World, h': History, q: nat, n: u32, side: Side)
    requires LadderOk(s, w, h) && AcceptedOk(s, w, h) && LadderOk(s, w', h') && Grows(h, h')
    requires 1 <= q < |h.ks| && n !in h.got[q] && n in h'.got[q] && n < |h.log[q]| && side == Owner(q).Other()
    requires h'.gotAt == h.gotAt + [q]
    requires forall x, i :: 0 <= x < |h'.got| && i in h'.got[x] ==> (x < |h.got| && i in h.got[x]) || (x == q && i == n)
    requires w'.accepted == w.accepted + [Acceptance(side, WireOf(h.ks, q), n, h.log[q][n])]
    ensures AcceptedOk(s, w', h')
  {
    forall j | 0 <= j < |w'.accepted|
      ensures AcceptedItemOk(s, w', h', j)
    {
      if j < |w.accepted| {
        AcceptedGrows(s, w, h, w', h', j);
      }
    }
    forall i, j | 0 <= i < j < |w'.accepted|
      ensures w'.accepted[i].ephemeral != w'.accepted[j].ephemeral || w'.accepted[i].counter != w'.accepted[j].counter
    {
      if j == |w.accepted| {
        assert AcceptedItemOk(s, w, h, i);
        if h.gotAt[i] != q {
          assert Differ(h.ks, if h.gotAt[i] < q then h.gotAt[i] else q, if h.gotAt[i] < q then q else h.gotAt[i]);
        }
      }
    }
    forall x, i | 0 <= x < |h'.got| && i in h'.got[x]
      ensures Logged(w', h', x, i)
    {
      if x < |h.got| && i in h.got[x] {
        assert Logged(w, h, x, i);
        var j :| 0 <= j < |w.accepted| && h.gotAt[j] == x && w.accepted[j].counter == i;
        assert h'.gotAt[j] == x && w'.accepted[j].counter == i;
      } else {
        assert h'.gotAt[|w.accepted|] == x && w'.accepted[|w.accepted|].counter == i;
      }
    }
  }

  lemma SentStays(s: Setup, w: World, h: History, w': World, h': History)
    requires LadderOk(s, w, h) && LadderOk(s, w', h') && Grows(h, h') && SentOk(s, w, h)
    requires w'.sent == w.sent && h'.sentAt == h.sentAt
    requires forall q :: 1 <= q < |h.ks| ==> h'.log[q] == h.log[q]
    requires forall q :: |h.ks| <= q < |h'.ks| ==> CountOk(w.sent, h', q)
    ensures SentOk(s, w', h')
  {
    forall j | 0 <= j < |w'.sent|
      ensures SentItemOk(s, w', h', j)
    {
      SentGrows(s, w, h, w', h', j);
    }
    forall q | 1 <= q < |h'.ks|
      ensures CountOk(w.sent, h', q)
    {
      if q < |h.ks| {
        assert CountOk(w.sent, h, q);
      }
    }
  }

  /** The reader after accepting counter n of epoch p - 1. */
  lemma ReaderAdvances(e: EntryState, r0: Secret, id: Raw, h: History, p: nat, n: nat)
    requires Wide(h) && 2 <= p < |h.ks| && AtRung(e, r0, id, h, p)
    requires n < |h.log[p - 1]|
    requires Taken(e.chains[Named(WireOf(h.ks, p - 1))], n).Ok?
    ensures AtRung(AdvancedEntry(e, WireOf(h.ks, p - 1), n), r0, id, Accepted(h, p - 1, n), p)
  {
    var rid := Named(WireOf(h.ks, p - 1));
    ReceivingTakes(e.chains[rid], r0, h, p - 1, n);
  }

  function AdvancedEntry(e: EntryState, remote: Raw, n: int): EntryState
    requires Named(remote) in e.chains && Taken(e.chains[Named(remote)], n).Ok?
  {
    e.(chains := e.chains[Named(remote) := Taken(e.chains[Named(remote)], n).value.0], pending := None)
  }

  /** A packet accepted on the current chain is the genuine one of its counter. */
  lemma CurrentWasSent(s: Setup, w: World, h: History, e: EntryState, id: Raw, p: nat, m: Packet, us: Raw, seed: Priv)
    requires s.Sound() && LadderOk(s, w, h) && SentOk(s, w, h) && Producible(s, w, m.tag)
    requires p < |h.ks| && AtRung(e, s.R0(), id, h, p)
    requires FirstIn(e.chains, ChainKeyIds(m.msg.ephemeral)).Some?
    requires Authenticated(e, m, us, seed).Ok?
    ensures 2 <= p && IsGenuine(s, h, p - 1, m)
  {
    OnCurrentChain(e, s.R0(), id, h, p, m, us, seed);
    ReceivingYields(e.chains[Named(WireOf(h.ks, p - 1))], s.R0(), h, p - 1, m.msg.counter);
    CurrentIsGenuine(s, w, h, p, m);
  }

  lemma CurrentLeads(s: Setup, e: EntryState, id: Raw, h: History, p: nat, m: Packet, us: Raw, seed: Priv)
    requires Wide(h) && 2 <= p < |h.ks| && AtRung(e, s.R0(), id, h, p)
    requires IsGenuine(s, h, p - 1, m)
    requires FirstIn(e.chains, ChainKeyIds(m.msg.ephemeral)).Some?
    requires Authenticated(e, m, us, seed).Ok?
    ensures Taken(e.chains[Named(WireOf(h.ks, p - 1))], m.msg.counter).Ok? && m.msg.counter !in h.got[p - 1]
    ensures NaiveDecrypt(e, m, us, seed)
         == Ok((AdvancedEntry(e, WireOf(h.ks, p - 1), m.msg.counter), h.log[p - 1][m.msg.counter]))
  {
    OnCurrentChain(e, s.R0(), id, h, p, m, us, seed);
    ReceivingYields(e.chains[Named(WireOf(h.ks, p - 1))], s.R0(), h, p - 1, m.msg.counter);
  }

  /** Where accepting it leaves the reader. */
  lemma CurrentReads(s: Setup, e: EntryState, id: Raw, h: History, p: nat, m: Packet, us: Raw, seed: Priv)
    returns (e': EntryState)
    requires Wide(h) && 2 <= p < |h.ks| && AtRung(e, s.R0(), id, h, p) && IsGenuine(s, h, p - 1, m)
    requires FirstIn(e.chains, ChainKeyIds(m.msg.ephemeral)).Some?
    requires Authenticated(e, m, us, seed).Ok?
    ensures m.msg.counter !in h.got[p - 1]
    ensures NaiveDecrypt(e, m, us, seed) == Ok((e', h.log[p - 1][m.msg.counter]))
    ensures Wide(Accepted(h, p - 1, m.msg.counter)) && AtRung(e', s.R0(), id, Accepted(h, p - 1, m.msg.counter), p)
  {
    CurrentLeads(s, e, id, h, p, m, us, seed);
    ReaderAdvances(e, s.R0(), id, h, p, m.msg.counter);
    e' := AdvancedEntry(e, WireOf(h.ks, p - 1), m.msg.counter);
  }

  lemma DeliverYields(s: Setup, w: World, side: Side, m: Packet, e: EntryState, plain: Plaintext)
    requires NaiveDecrypt(w.Entry(side), m, s.IdentityOf(side), w.next) == Ok((e, plain))
    ensures AfterDeliver(s, w, side, m) == AfterReading(w, side, e, m.msg.ephemeral, m.msg.counter, plain)
  {
  }

  predicate CanAccept(h: History, p: nat, n: nat) {
    2 <= p < |h.ks| == |h.log| == |h.got| && n < |h.log[p - 1]| && n !in h.got[p - 1]
  }

  function AcceptedWorld(w: World, h: History, side: Side, n: u32, e': EntryState): World
    requires CanAccept(h, h.Rung(side), n)
  {
    var q := h.Rung(side) - 1;
    AfterReading(w, side, e', WireOf(h.ks, q), n, h.log[q][n])
  }

  /** A side stands where its entry does. */
  lemma StandsAt(s: Setup, w: World, h: History, side: Side, e: EntryState, p: nat)
    requires LadderOk(s, w, h) && w.Entry(side) == e && h.Rung(side) == p && p < |h.ks|
    requires AtRung(e, s.R0(), s.IdentityOf(side.Other()), h, p)
    ensures SideOk(s, w, h, side)
  {
  }

  lemma AcceptedLogs(s: Setup, w: World, h: History, side: Side, n: u32, e': EntryState)
    requires LadderOk(s, w, h) && SentOk(s, w, h) && AcceptedOk(s, w, h) && CanAccept(h, h.Rung(side), n)
    ensures var w', h' := AcceptedWorld(w, h, side, n, e'), Accepted(h, h.Rung(side) - 1, n);
            Grows(h, h') && LadderOk(s, w', h') && SentOk(s, w', h') && AcceptedOk(s, w', h')
  {
    CurrentKeepsLogs(s, w, h, AcceptedWorld(w, h, side, n, e'), side, h.Rung(side), n);
  }

  lemma AcceptedReader(s: Setup, w: World, h: History, side: Side, n: u32, e': EntryState)
    requires CanAccept(h, h.Rung(side), n)
    requires LadderOk(s, AcceptedWorld(w, h, side, n, e'), Accepted(h, h.Rung(side) - 1, n))
    requires AtRung(e', s.R0(), s.IdentityOf(side.Other()), Accepted(h, h.Rung(side) - 1, n), h.Rung(side))
    ensures SideOk(s, AcceptedWorld(w, h, side, n, e'), Accepted(h, h.Rung(side) - 1, n), side)
  {
    StandsAt(s, AcceptedWorld(w, h, side, n, e'), Accepted(h, h.Rung(side) - 1, n), side, e', h.Rung(side));
  }

  lemma AcceptedBystander(s: Setup, w: World, h: History, side: Side, n: u32, e': EntryState)
    requires LadderOk(s, w, h) && SideOk(s, w, h, side.Other()) && CanAccept(h, h.Rung(side), n)
    requires Grows(h, Accepted(h, h.Rung(side) - 1, n))
    requires LadderOk(s, AcceptedWorld(w, h, side, n, e'), Accepted(h, h.Rung(side) - 1, n))
    ensures SideOk(s, AcceptedWorld(w, h, side, n, e'), Accepted(h, h.Rung(side) - 1, n), side.Other())
  {
    AcceptedKeepsBystander(s, w, h, side, h.Rung(side), n);
    assert side.Other().Other() == side;
    StandsAt(s, AcceptedWorld(w, h, side, n, e'), Accepted(h, h.Rung(side) - 1, n), side.Other(),
             w.Entry(side.Other()), h.Rung(side.Other()));
  }

  lemma AcceptedWorldInv(s: Setup, w: World, h: History, side: Side, n: u32, e': EntryState)
    requires Inv(s, w, h) && CanAccept(h, h.Rung(side), n)
    requires AtRung(e', s.R0(), s.IdentityOf(side.Other()), Accepted(h, h.Rung(side) - 1, n), h.Rung(side))
    ensures Inv(s, AcceptedWorld(w, h, side, n, e'), Accepted(h, h.Rung(side) - 1, n))
    ensures Grows(h, Accepted(h, h.Rung(side) - 1, n))
  {
    assert SideOk(s, w, h, side.Other());
    AcceptedLogs(s, w, h, side, n, e');
    AcceptedReader(s, w, h, side, n, e');
    AcceptedBystander(s, w, h, side, n, e');
    InvFromSides(s, AcceptedWorld(w, h, side, n, e'), Accepted(h, h.Rung(side) - 1, n), side);
  }

  /** What accepting a packet of the current epoch comes to. */
  ghost predicate ReadsCurrent(s: Setup, h: History, e: EntryState, id: Raw, p: nat, m: Packet, us: Raw, seed: Priv, e': EntryState) {
    && CanAccept(h, p, m.msg.counter) && Wide(h) && IsGenuine(s, h, p - 1, m)
    && NaiveDecrypt(e, m, us, seed) == Ok((e', h.log[p - 1][m.msg.counter]))
    && AtRung(e', s.R0(), id, Accepted(h, p - 1, m.msg.counter), p)
  }

  /** A packet accepted without a step is the genuine one, and leaves the reader on its rung. */
  lemma CurrentOutcome(s: Setup, w: World, h: History, e: EntryState, id: Raw, p: nat, m: Packet, us: Raw, seed: Priv)
    returns (e': EntryState)
    requires Wide(h) && s.Sound() && LadderOk(s, w, h) && SentOk(s, w, h) && Producible(s, w, m.tag)
    requires p < |h.ks| && AtRung(e, s.R0(), id, h, p)
    requires FirstIn(e.chains, ChainKeyIds(m.msg.ephemeral)).Some? && Authenticated(e, m, us, seed).Ok?
    ensures ReadsCurrent(s, h, e, id, p, m, us, seed, e')
  {
    CurrentWasSent(s, w, h, e, id, p, m, us, seed);
    e' := CurrentReads(s, e, id, h, p, m, us, seed);
  }

  lemma CurrentWorld(s: Setup, w: World, h: History, side: Side, m: Packet, e': EntryState)
    requires CanAccept(h, h.Rung(side), m.msg.counter) && m.msg.ephemeral == WireOf(h.ks, h.Rung(side) - 1)
    requires NaiveDecrypt(w.Entry(side), m, s.IdentityOf(side), w.next) == Ok((e', h.log[h.Rung(side) - 1][m.msg.counter]))
    ensures AfterDeliver(s, w, side, m) == AcceptedWorld(w, h, side, m.msg.counter, e')
  {
    DeliverYields(s, w, side, m, e', h.log[h.Rung(side) - 1][m.msg.counter]);
  }

  lemma CurrentArrives(s: Setup, w: World, h: History, side: Side, m: Packet, e': EntryState)
    requires Inv(s, w, h)
    requires ReadsCurrent(s, h, w.Entry(side), s.IdentityOf(side.Other()), h.Rung(side), m, s.IdentityOf(side), w.next, e')
    ensures 2 <= h.Rung(side) < |h.got|
    ensures Inv(s, AfterDeliver(s, w, side, m), Accepted(h, h.Rung(side) - 1, m.msg.counter))
    ensures Grows(h, Accepted(h, h.Rung(side) - 1, m.msg.counter))
  {
    CurrentWorld(s, w, h, side, m, e');
    AcceptedWorldInv(s, w, h, side, m.msg.counter, e');
  }

  lemma CurrentDelivery(s: Setup, w: World, h: History, side: Side, m: Packet) returns (h': History)
    requires s.Sound() && Inv(s, w, h) && Producible(s, w, m.tag)
    requires FirstIn(w.Entry(side).chains, ChainKeyIds(m.msg.ephemeral)).Some?
    requires Authenticated(w.Entry(side), m, s.IdentityOf(side), w.next).Ok?
    ensures Inv(s, AfterDeliver(s, w, side, m), h') && Grows(h, h')
  {
    LadderFacts(s, w, h);
    assert SideOk(s, w, h, side);
    SideFacts(s, w, h, side);
    var e' := CurrentOutcome(s, w, h, w.Entry(side), s.IdentityOf(side.Other()), h.Rung(side), m, s.IdentityOf(side), w.next);
    CurrentArrives(s, w, h, side, m, e');
    h' := Accepted(h, h.Rung(side) - 1, m.msg.counter);
  }

  lemma AcceptedKeepsLadder(s: Setup, w: World, h: History, w': World, q: nat, n: int)
    requires LadderOk(s, w, h) && q < |h.got| && w'.next == w.next + 1
    ensures LadderOk(s, w', Accepted(h, q, n)) && Grows(h, Accepted(h, q, n))
  {
  }

  lemma AcceptedKeepsBystander(s: Setup, w: World, h: History, side: Side, p: nat, n: int)
    requires LadderOk(s, w, h) && SideOk(s, w, h, side.Other())
    requires p == h.Rung(side) && 2 <= p < |h.ks| && Grows(h, Accepted(h, p - 1, n))
    ensures AtRung(w.Entry(side.Other()), s.R0(), s.IdentityOf(side), Accepted(h, p - 1, n), h.Rung(side.Other()))
  {
    var other := h.Rung(side.Other());
    assert other == p + 1 || other == p - 1;
    assert side.Other().Other() == side;
    BystanderStays(w.Entry(side.Other()), s.R0(), s.IdentityOf(side), h, Accepted(h, p - 1, n), other);
  }

  lemma OwnersAlternate(p: nat)
    ensures Owner(p + 1) == Owner(p).Other()
  {
  }

  lemma CurrentKeepsLogs(s: Setup, w: World, h: History, w': World, side: Side, p: nat, n: u32)
    requires LadderOk(s, w, h) && SentOk(s, w, h) && AcceptedOk(s, w, h)
    requires p == h.Rung(side) && 2 <= p < |h.ks|
    requires n < |h.log[p - 1]| && n !in h.got[p - 1]
    requires w'.sent == w.sent && w'.next == w.next + 1
    requires w'.accepted == w.accepted + [Acceptance(side, WireOf(h.ks, p - 1), n, h.log[p - 1][n])]
    ensures var h' := Accepted(h, p - 1, n);
            Grows(h, h') && LadderOk(s, w', h') && SentOk(s, w', h') && AcceptedOk(s, w', h')
  {
    var h' := Accepted(h, p - 1, n);
    RungParity(s, w, h, side);
    OwnersAlternate(p - 1);
    AcceptedKeepsLadder(s, w, h, w', p - 1, n);
    SentStays(s, w, h, w', h');
    assert n in h'.got[p - 1];
    AcceptedLogGrows(s, w, h, w', h', p - 1, n, side);
  }

  // ---- accepting the first packet of the next epoch ----

  function Climbed(h: History, side: Side, n: int, seed: Priv): History
    requires |h.got| >= 1
  {
    var last := |h.got| - 1;
    History(h.ks + [seed], h.log + [[]], h.got[last := {n}] + [{}],
            if side == Alice then h.alice + 2 else h.alice,
            if side == Bob then h.bob + 2 else h.bob,
            h.sentAt, h.gotAt + [last])
  }

  /** The chain map of an entry at rung p after the step to rung p + 2. */
  lemma SteppedChains(e: EntryState, r0: Secret, id: Raw, h: History, p: nat, seed: Priv)
    requires Wide(h) && p + 2 == |h.ks| && AtRung(e, r0, id, h, p)
    requires Distinct(h.ks, seed)
    ensures var theirs := h.ks[p + 1];
            var e1 := AfterStep(e, Wire(Pub(theirs)), theirs, seed);
            var dh := Agree(e.priv, theirs);
            && e1.chains == map[Named(Wire(Pub(theirs))) := FreshChain(ChainOf(e.root, dh), RECEIVING),
                                Named(Wire(Pub(seed))) := FreshChain(ChainOf(RootOf(e.root, dh), Agree(seed, theirs)), SENDING)]
            && e1.previousCounter == (if |h.log[p]| == 0 then 0 else |h.log[p]| - 1)
    requires h.log[0] == []
  {
    var theirs := h.ks[p + 1];
    var dh := Agree(e.priv, theirs);
    var recv := FreshChain(ChainOf(e.root, dh), RECEIVING);
    var chains := WithReceiving(e, Wire(Pub(theirs)), recv);
    var own := Named(OwnRaw(h.ks, p));
    assert Differ(h.ks, p, p + 1);
    if p >= 1 {
      assert Differ(h.ks, p - 1, p) && Differ(h.ks, p - 1, p + 1);
    }
    assert chains.Keys == (if p >= 1 then {own} else {}) + {Named(Wire(Pub(theirs)))};
    if p >= 1 {
      assert FirstIn(chains, IdsOfText(e.pubKey)) == Some(own);
      assert chains[own] == SendingAt(r0, h, p);
    } else {
      assert FirstIn(chains, IdsOfText(e.pubKey)) == None;
    }
    assert WithoutSending(chains, e.pubKey) == map[Named(Wire(Pub(theirs))) := recv];
  }

  /** A chain from which only counter n has been consumed is a receiving chain. */
  lemma SettledIsReceiving(r0: Secret, h: History, q: nat, n: nat)
    requires Wide(h) && 1 <= q < |h.ks| && h.got[q] == {n as int}
    requires n < |h.log[q]| && n < MAX_SKIP
    ensures ReceivingAt(ChainRuns.Settled(Start(r0, h.ks, q), RECEIVING, n, {n as int}), r0, h, q)
  {
    ChainRuns.UndeliveredSize(Start(r0, h.ks, q), n, {n as int});
  }

  lemma ClimbGrows(h: History, side: Side, n: int, seed: Priv)
    requires Wide(h) && h.got[|h.got| - 1] == {}
    ensures Grows(h, Climbed(h, side, n, seed))
  {
  }

  /** The secrets of the next two rungs, as the stepping reader computes them. */
  lemma ClimbedSecrets(r0: Secret, h: History, side: Side, p: nat, n: int, seed: Priv)
    requires Wide(h) && p + 2 == |h.ks| && h.got[p + 1] == {}
    ensures var h' := Climbed(h, side, n, seed);
            var root := RootOf(Root(r0, h.ks, p), Agree(h.ks[p], h.ks[p + 1]));
            && Grows(h, h')
            && Start(r0, h'.ks, p + 1) == ChainOf(Root(r0, h.ks, p), Agree(h.ks[p], h.ks[p + 1]))
            && Start(r0, h'.ks, p + 2) == ChainOf(root, Agree(seed, h.ks[p + 1]))
            && Root(r0, h'.ks, p + 2) == RootOf(root, Agree(seed, h.ks[p + 1]))
  {
    var h' := Climbed(h, side, n, seed);
    ClimbGrows(h, side, n, seed);
    LadderGrows(r0, h, h', p);
    LadderGrows(r0, h, h', p + 1);
    AgreeCommutes(seed, h.ks[p + 1]);
  }

  lemma ClimbedChains(chains: map<Id, ChainState>, r0: Secret, h: History, side: Side, p: nat, n: nat, seed: Priv)
    requires Wide(h) && p + 2 == |h.ks| && h.got[p + 1] == {} && n < |h.log[p + 1]| && n < MAX_SKIP
    requires h.ks[p + 1] != seed
    requires var h' := Climbed(h, side, n, seed);
             chains == map[Named(Wire(Pub(h.ks[p + 1]))) := ChainRuns.Settled(Start(r0, h'.ks, p + 1), RECEIVING, n, {n as int}),
                           Named(Wire(Pub(seed))) := FreshChain(Start(r0, h'.ks, p + 2), SENDING)]
    ensures Wide(Climbed(h, side, n, seed)) && ChainsAt(chains, r0, Climbed(h, side, n, seed), p + 2)
  {
    var h' := Climbed(h, side, n, seed);
    ClimbGrows(h, side, n, seed);
    assert h'.ks[p + 1] == h.ks[p + 1] && h'.ks[p + 2] == seed;
    assert h'.log[p + 1] == h.log[p + 1] && h'.log[p + 2] == [] && h'.got[p + 1] == {n as int};
    SettledChains(chains, r0, h', p + 2, n);
  }

  /** The chains of a rung whose epoch below has had one packet accepted and whose own has
      sent none. */
  lemma SettledChains(chains: map<Id, ChainState>, r0: Secret, h: History, p: nat, n: nat)
    requires Wide(h) && 2 <= p < |h.ks| && h.log[p] == [] && h.ks[p - 1] != h.ks[p]
    requires h.got[p - 1] == {n as int} && n < |h.log[p - 1]| && n < MAX_SKIP
    requires chains == map[Named(WireOf(h.ks, p - 1)) := ChainRuns.Settled(Start(r0, h.ks, p - 1), RECEIVING, n, {n as int}),
                           Named(WireOf(h.ks, p)) := FreshChain(Start(r0, h.ks, p), SENDING)]
    ensures ChainsAt(chains, r0, h, p)
  {
    SettledIsReceiving(r0, h, p - 1, n);
    TwoChains(chains, r0, h, p, ChainRuns.Settled(Start(r0, h.ks, p - 1), RECEIVING, n, {n as int}));
  }

  /** A receiving chain for the rung below and a fresh sending chain are all a rung needs. */
  lemma TwoChains(chains: map<Id, ChainState>, r0: Secret, h: History, p: nat, receiving: ChainState)
    requires Wide(h) && 2 <= p < |h.ks| && h.log[p] == [] && h.ks[p - 1] != h.ks[p]
    requires ReceivingAt(receiving, r0, h, p - 1)
    requires chains == map[Named(WireOf(h.ks, p - 1)) := receiving,
                           Named(WireOf(h.ks, p)) := FreshChain(Start(r0, h.ks, p), SENDING)]
    ensures ChainsAt(chains, r0, h, p)
  {
  }

  /** The entry of a reader that stepped on the genuine packet n of the next epoch. */
  function ClimbedEntry(e: EntryState, theirs: Priv, n: int, seed: Priv): EntryState
    requires n >= 0
  {
    var e1 := AfterStep(e, Wire(Pub(theirs)), theirs, seed);
    e1.(chains := e1.chains[Named(Wire(Pub(theirs)))
                            := ChainRuns.Settled(ChainOf(e.root, Agree(e.priv, theirs)), RECEIVING, n, {n})],
        pending := None)
  }

  /** Keys that are pairwise distinct, and a draw that repeats none of them. */
  ghost predicate Distinct(ks: seq<Priv>, seed: Priv) {
    && (forall i, j :: 0 <= i < j < |ks| ==> Differ(ks, i, j))
    && (forall i :: 0 <= i < |ks| ==> ks[i] != seed)
  }

  lemma ClimbedEntryIs(e: EntryState, r0: Secret, id: Raw, h: History, side: Side, p: nat, n: nat, seed: Priv)
    requires Wide(h) && p + 2 == |h.ks| && AtRung(e, r0, id, h, p) && h.log[0] == [] && Distinct(h.ks, seed)
    ensures Wide(Climbed(h, side, n, seed))
    ensures var h' := Climbed(h, side, n, seed);
            ClimbedEntry(e, h.ks[p + 1], n, seed).chains
            == map[Named(Wire(Pub(h.ks[p + 1]))) := ChainRuns.Settled(Start(r0, h'.ks, p + 1), RECEIVING, n, {n as int}),
                   Named(Wire(Pub(seed))) := FreshChain(Start(r0, h'.ks, p + 2), SENDING)]
  {
    ClimbedSecrets(r0, h, side, p, n, seed);
    SteppedChains(e, r0, id, h, p, seed);
  }

  lemma ClimbedEntryChains(e: EntryState, r0: Secret, id: Raw, h: History, side: Side, p: nat, n: nat, seed: Priv)
    requires Wide(h) && p + 2 == |h.ks| && AtRung(e, r0, id, h, p) && h.log[0] == [] && Distinct(h.ks, seed)
    requires n < |h.log[p + 1]| && n < MAX_SKIP
    ensures Wide(Climbed(h, side, n, seed))
    ensures ChainsAt(ClimbedEntry(e, h.ks[p + 1], n, seed).chains, r0, Climbed(h, side, n, seed), p + 2)
  {
    ClimbedEntryIs(e, r0, id, h, side, p, n, seed);
    ClimbedChains(ClimbedEntry(e, h.ks[p + 1], n, seed).chains, r0, h, side, p, n, seed);
  }

  lemma SteppedFinds(e: EntryState, r0: Secret, id: Raw, h: History, p: nat, seed: Priv)
    requires Wide(h) && p + 2 == |h.ks| && AtRung(e, r0, id, h, p) && h.log[0] == [] && Distinct(h.ks, seed)
    ensures FirstIn(AfterStep(e, Wire(Pub(h.ks[p + 1])), h.ks[p + 1], seed).chains, ChainKeyIds(Wire(Pub(h.ks[p + 1]))))
         == Some(Named(Wire(Pub(h.ks[p + 1]))))
  {
    SteppedChains(e, r0, id, h, p, seed);
  }

  lemma ReaderClimbs(e: EntryState, r0: Secret, id: Raw, h: History, side: Side, p: nat, n: nat, seed: Priv)
    requires Wide(h) && p + 2 == |h.ks| && AtRung(e, r0, id, h, p) && h.log[0] == [] && Distinct(h.ks, seed)
    requires n < |h.log[p + 1]| && n < MAX_SKIP
    ensures Wide(Climbed(h, side, n, seed))
    ensures AtRung(ClimbedEntry(e, h.ks[p + 1], n, seed), r0, id, Climbed(h, side, n, seed), p + 2)
  {
    ClimbedSecrets(r0, h, side, p, n, seed);
    SteppedChains(e, r0, id, h, p, seed);
    ClimbedEntryChains(e, r0, id, h, side, p, n, seed);
  }

  lemma ClimbKeepsLadder(s: Setup, w: World, h: History, w': World, side: Side, n: int)
    requires LadderOk(s, w, h) && h.Rung(side) + 2 == |h.ks| && w'.next == w.next + 1
    ensures LadderOk(s, w', Climbed(h, side, n, w.next))
  {
    var h' := Climbed(h, side, n, w.next);
    forall i, j | 0 <= i < j < |h'.ks|
      ensures Differ(h'.ks, i, j)
    {
      if j < |h.ks| {
        assert Differ(h.ks, i, j);
      }
    }
  }

  lemma ClimbKeepsSent(s: Setup, w: World, h: History, w': World, side: Side, n: int)
    requires LadderOk(s, w, h) && SentOk(s, w, h) && h.got[|h.got| - 1] == {}
    requires LadderOk(s, w', Climbed(h, side, n, w.next)) && w'.sent == w.sent
    ensures SentOk(s, w', Climbed(h, side, n, w.next))
  {
    ClimbGrows(h, side, n, w.next);
    forall j | 0 <= j < |w.sent|
      ensures w.sent[j].packet.msg.ephemeral != Wire(Pub(w.next))
    {
      assert SentItemOk(s, w, h, j);
    }
    SentUnderNone(w.sent, Wire(Pub(w.next)));
    assert CountOk(w.sent, Climbed(h, side, n, w.next), |h.ks|);
    SentStays(s, w, h, w', Climbed(h, side, n, w.next));
  }

  lemma NextKeepsLogs(s: Setup, w: World, h: History, w': World, side: Side, p: nat, n: u32)
    requires LadderOk(s, w, h) && SentOk(s, w, h) && AcceptedOk(s, w, h)
    requires p == h.Rung(side) && p + 2 == |h.ks|
    requires n < |h.log[p + 1]| && h.got[p + 1] == {}
    requires w'.sent == w.sent && w'.next == w.next + 1
    requires w'.accepted == w.accepted + [Acceptance(side, WireOf(h.ks, p + 1), n, h.log[p + 1][n])]
    ensures var h' := Climbed(h, side, n, w.next);
            Grows(h, h') && LadderOk(s, w', h') && SentOk(s, w', h') && AcceptedOk(s, w', h')
  {
    var h' := Climbed(h, side, n, w.next);
    RungParity(s, w, h, side);
    OwnersAlternate(p);
    ClimbGrows(h, side, n, w.next);
    ClimbKeepsLadder(s, w, h, w', side, n);
    ClimbKeepsSent(s, w, h, w', side, n);
    assert n in h'.got[p + 1];
    AcceptedLogGrows(s, w, h, w', h', p + 1, n, side);
  }

  lemma NextKeepsBystander(s: Setup, w: World, h: History, side: Side, p: nat, n: int)
    requires LadderOk(s, w, h) && SideOk(s, w, h, side.Other())
    requires p == h.Rung(side) && p + 2 == |h.ks| && h.got[p + 1] == {}
    requires Grows(h, Climbed(h, side, n, w.next))
    ensures AtRung(w.Entry(side.Other()), s.R0(), s.IdentityOf(side), Climbed(h, side, n, w.next), p + 1)
    ensures Climbed(h, side, n, w.next).Rung(side) == p + 2 && Climbed(h, side, n, w.next).Rung(side.Other()) == p + 1
  {
    SideFacts(s, w, h, side.Other());
    assert Wide(h) && h.Rung(side.Other()) == p + 1;
    ClimbLeaves(w.Entry(side.Other()), s.R0(), s.IdentityOf(side), h, side, p, n, w.next);
  }

  /** The other side's entry stays at its rung while one side climbs past it. */
  lemma ClimbLeaves(e: EntryState, r0: Secret, id: Raw, h: History, side: Side, p: nat, n: int, seed: Priv)
    requires Wide(h) && p + 2 == |h.ks| && h.got[p + 1] == {} && AtRung(e, r0, id, h, p + 1)
    requires Grows(h, Climbed(h, side, n, seed))
    ensures AtRung(e, r0, id, Climbed(h, side, n, seed), p + 1)
  {
    BystanderStays(e, r0, id, h, Climbed(h, side, n, seed), p + 1);
  }

  /** A packet that makes the reader step is the genuine one of its counter in the next
      epoch. */
  lemma NextWasSent(s: Setup, w: World, h: History, e: EntryState, id: Raw, p: nat, m: Packet, us: Raw)
    requires Wide(h) && s.Sound() && LadderOk(s, w, h) && SentOk(s, w, h) && Producible(s, w, m.tag)
    requires p < |h.ks| && AtRung(e, s.R0(), id, h, p) && TaggedNext(e, m, us)
    ensures IsGenuine(s, h, p + 1, m) && m.msg.counter < MAX_SKIP
  {
    NextIsGenuine(s, w, h, p, m, m.msg.ephemeral.point.sk);
  }

  /** Decrypting it leads to the entry that climbed, with the plaintext it was sealed with. */
  lemma NextDecrypts(e: EntryState, m: Packet, us: Raw, seed: Priv, theirs: Priv)
    requires m.msg.ephemeral == Wire(Pub(theirs)) && m.tag.Mac? && m.msg.body.Sealed? && m.msg.body.key == m.tag.key
    requires FirstIn(e.chains, ChainKeyIds(m.msg.ephemeral)).None?
    requires FirstIn(AfterStep(e, m.msg.ephemeral, theirs, seed).chains, ChainKeyIds(m.msg.ephemeral))
          == Some(Named(Wire(Pub(theirs))))
    requires Authenticated(e, m, us, seed).Ok?
    ensures NaiveDecrypt(e, m, us, seed) == Ok((ClimbedEntry(e, theirs, m.msg.counter, seed), m.msg.body.plain))
  {
    OnNewChain(e, m, us, seed);
  }

  /** The step leads to the next rung but one. */
  lemma NextLeads(s: Setup, e: EntryState, id: Raw, h: History, side: Side, p: nat, m: Packet, us: Raw, seed: Priv)
    requires Wide(h) && p + 2 == |h.ks| && AtRung(e, s.R0(), id, h, p) && h.log[0] == [] && Distinct(h.ks, seed)
    requires IsGenuine(s, h, p + 1, m) && m.msg.counter < MAX_SKIP
    requires FirstIn(e.chains, ChainKeyIds(m.msg.ephemeral)).None?
    requires Authenticated(e, m, us, seed).Ok?
    ensures NaiveDecrypt(e, m, us, seed) == Ok((ClimbedEntry(e, h.ks[p + 1], m.msg.counter, seed), h.log[p + 1][m.msg.counter]))
  {
    SteppedFinds(e, s.R0(), id, h, p, seed);
    NextDecrypts(e, m, us, seed, h.ks[p + 1]);
  }

  lemma LadderFacts(s: Setup, w: World, h: History)
    requires LadderOk(s, w, h)
    ensures Wide(h) && h.log[0] == [] && Distinct(h.ks, w.next)
  {
  }

  predicate CanClimb(h: History, p: nat, n: nat) {
    p + 2 == |h.ks| == |h.log| && n < |h.log[p + 1]| && n < MAX_SKIP
  }

  /** Where accepting it leaves the reader. */
  lemma NextReads(s: Setup, e: EntryState, id: Raw, h: History, side: Side, p: nat, m: Packet, us: Raw, seed: Priv)
    returns (e': EntryState)
    requires Wide(h) && p + 2 == |h.ks| && AtRung(e, s.R0(), id, h, p) && h.log[0] == [] && Distinct(h.ks, seed)
    requires IsGenuine(s, h, p + 1, m) && m.msg.counter < MAX_SKIP
    requires FirstIn(e.chains, ChainKeyIds(m.msg.ephemeral)).None?
    requires Authenticated(e, m, us, seed).Ok?
    ensures NaiveDecrypt(e, m, us, seed) == Ok((e', h.log[p + 1][m.msg.counter]))
    ensures Wide(Climbed(h, side, m.msg.counter, seed)) && AtRung(e', s.R0(), id, Climbed(h, side, m.msg.counter, seed), p + 2)
  {
    NextLeads(s, e, id, h, side, p, m, us, seed);
    ReaderClimbs(e, s.R0(), id, h, side, p, m.msg.counter, seed);
    e' := ClimbedEntry(e, h.ks[p + 1], m.msg.counter, seed);
  }

  /** The world after a reader stepped on the genuine packet n of the next epoch. */
  function ClimbedWorld(w: World, h: History, side: Side, n: u32, e': EntryState): World
    requires CanClimb(h, h.Rung(side), n)
  {
    var q := h.Rung(side) + 1;
    AfterReading(w, side, e', WireOf(h.ks, q), n, h.log[q][n])
  }

  lemma NothingAcceptedAhead(s: Setup, w: World, h: History, side: Side)
    requires LadderOk(s, w, h) && SideOk(s, w, h, side) && h.Rung(side) + 2 == |h.ks|
    ensures h.got[|h.got| - 1] == {}
  {
  }

  lemma ClimbedLogs(s: Setup, w: World, h: History, side: Side, n: u32, e': EntryState)
    requires LadderOk(s, w, h) && SentOk(s, w, h) && AcceptedOk(s, w, h)
    requires CanClimb(h, h.Rung(side), n) && h.got[|h.got| - 1] == {}
    ensures var w', h' := ClimbedWorld(w, h, side, n, e'), Climbed(h, side, n, w.next);
            Grows(h, h') && LadderOk(s, w', h') && SentOk(s, w', h') && AcceptedOk(s, w', h')
  {
    NextKeepsLogs(s, w, h, ClimbedWorld(w, h, side, n, e'), side, h.Rung(side), n);
  }

  lemma ClimbedSides(s: Setup, w: World, h: History, side: Side, n: u32, e': EntryState)
    requires LadderOk(s, w, h) && SideOk(s, w, h, side.Other()) && CanClimb(h, h.Rung(side), n)
    requires h.got[|h.got| - 1] == {}
    requires Grows(h, Climbed(h, side, n, w.next)) && LadderOk(s, ClimbedWorld(w, h, side, n, e'), Climbed(h, side, n, w.next))
    requires AtRung(e', s.R0(), s.IdentityOf(side.Other()), Climbed(h, side, n, w.next), h.Rung(side) + 2)
    ensures SideOk(s, ClimbedWorld(w, h, side, n, e'), Climbed(h, side, n, w.next), side)
    ensures SideOk(s, ClimbedWorld(w, h, side, n, e'), Climbed(h, side, n, w.next), side.Other())
  {
    var w', h' := ClimbedWorld(w, h, side, n, e'), Climbed(h, side, n, w.next);
    NextKeepsBystander(s, w, h, side, h.Rung(side), n);
    BothStand(s, w', h', side, e', w.Entry(side.Other()), h.Rung(side) + 2);
  }

  lemma BothStand(s: Setup, w: World, h: History, side: Side, e: EntryState, other: EntryState, p: nat)
    requires LadderOk(s, w, h) && w.Entry(side) == e && w.Entry(side.Other()) == other
    requires 1 <= p < |h.ks| && h.Rung(side) == p && h.Rung(side.Other()) == p - 1
    requires AtRung(e, s.R0(), s.IdentityOf(side.Other()), h, p) && AtRung(other, s.R0(), s.IdentityOf(side), h, p - 1)
    ensures SideOk(s, w, h, side) && SideOk(s, w, h, side.Other())
  {
    StandsAt(s, w, h, side, e, p);
    assert side.Other().Other() == side;
    StandsAt(s, w, h, side.Other(), other, p - 1);
  }

  lemma ClimbedWorldInv(s: Setup, w: World, h: History, side: Side, n: u32, e': EntryState)
    requires Inv(s, w, h) && CanClimb(h, h.Rung(side), n) && Wide(Climbed(h, side, n, w.next))
    requires AtRung(e', s.R0(), s.IdentityOf(side.Other()), Climbed(h, side, n, w.next), h.Rung(side) + 2)
    ensures Inv(s, ClimbedWorld(w, h, side, n, e'), Climbed(h, side, n, w.next))
    ensures Grows(h, Climbed(h, side, n, w.next))
  {
    assert SideOk(s, w, h, side) && SideOk(s, w, h, side.Other());
    NothingAcceptedAhead(s, w, h, side);
    ClimbedLogs(s, w, h, side, n, e');
    ClimbedSides(s, w, h, side, n, e');
    InvFromSides(s, ClimbedWorld(w, h, side, n, e'), Climbed(h, side, n, w.next), side);
  }

  /** A packet accepted with a step was the genuine one. */
  lemma NextWasGenuine(s: Setup, w: World, h: History, side: Side, m: Packet)
    requires s.Sound() && LadderOk(s, w, h) && SentOk(s, w, h) && SideOk(s, w, h, side) && Producible(s, w, m.tag)
    requires TaggedNext(w.Entry(side), m, s.IdentityOf(side))
    ensures CanClimb(h, h.Rung(side), m.msg.counter) && IsGenuine(s, h, h.Rung(side) + 1, m)
  {
    LadderFacts(s, w, h);
    RungParity(s, w, h, side);
    NextWasSent(s, w, h, w.Entry(side), s.IdentityOf(side.Other()), h.Rung(side), m, s.IdentityOf(side));
  }

  /** What accepting a packet of the next epoch comes to. */
  ghost predicate ReadsNext(s: Setup, h: History, side: Side, e: EntryState, id: Raw, p: nat, m: Packet, us: Raw, seed: Priv,
                            e': EntryState) {
    && CanClimb(h, p, m.msg.counter) && IsGenuine(s, h, p + 1, m)
    && NaiveDecrypt(e, m, us, seed) == Ok((e', h.log[p + 1][m.msg.counter]))
    && |h.got| >= 1 && Wide(Climbed(h, side, m.msg.counter, seed))
    && AtRung(e', s.R0(), id, Climbed(h, side, m.msg.counter, seed), p + 2)
  }

  /** A packet accepted with a step is the genuine one, and leaves the reader two rungs up. */
  lemma NextOutcome(s: Setup, w: World, h: History, side: Side, e: EntryState, id: Raw, p: nat, m: Packet, us: Raw, seed: Priv)
    returns (e': EntryState)
    requires Wide(h) && h.log[0] == [] && Distinct(h.ks, seed) && |h.ks| <= p + 2
    requires s.Sound() && LadderOk(s, w, h) && SentOk(s, w, h) && Producible(s, w, m.tag)
    requires p < |h.ks| && AtRung(e, s.R0(), id, h, p)
    requires FirstIn(e.chains, ChainKeyIds(m.msg.ephemeral)).None? && Authenticated(e, m, us, seed).Ok?
    ensures ReadsNext(s, h, side, e, id, p, m, us, seed, e')
  {
    TagsNext(e, m, us, seed);
    NextWasSent(s, w, h, e, id, p, m, us);
    e' := NextReads(s, e, id, h, side, p, m, us, seed);
  }

  lemma NextWorld(s: Setup, w: World, h: History, side: Side, m: Packet, e': EntryState)
    requires CanClimb(h, h.Rung(side), m.msg.counter) && m.msg.ephemeral == WireOf(h.ks, h.Rung(side) + 1)
    requires NaiveDecrypt(w.Entry(side), m, s.IdentityOf(side), w.next) == Ok((e', h.log[h.Rung(side) + 1][m.msg.counter]))
    ensures AfterDeliver(s, w, side, m) == ClimbedWorld(w, h, side, m.msg.counter, e')
  {
    DeliverYields(s, w, side, m, e', h.log[h.Rung(side) + 1][m.msg.counter]);
  }

  lemma SideFacts(s: Setup, w: World, h: History, side: Side)
    requires LadderOk(s, w, h) && SideOk(s, w, h, side)
    ensures h.Rung(side) < |h.ks| <= h.Rung(side) + 2
    ensures AtRung(w.Entry(side), s.R0(), s.IdentityOf(side.Other()), h, h.Rung(side))
  {
  }

  lemma NextArrives(s: Setup, w: World, h: History, side: Side, m: Packet, e': EntryState)
    requires Inv(s, w, h)
    requires ReadsNext(s, h, side, w.Entry(side), s.IdentityOf(side.Other()), h.Rung(side), m, s.IdentityOf(side), w.next, e')
    ensures |h.got| >= 1 && Inv(s, AfterDeliver(s, w, side, m), Climbed(h, side, m.msg.counter, w.next))
    ensures Grows(h, Climbed(h, side, m.msg.counter, w.next))
  {
    NextWorld(s, w, h, side, m, e');
    ClimbedWorldInv(s, w, h, side, m.msg.counter, e');
  }

  lemma NextDelivery(s: Setup, w: World, h: History, side: Side, m: Packet) returns (h': History)
    requires s.Sound() && Inv(s, w, h) && Producible(s, w, m.tag)
    requires FirstIn(w.Entry(side).chains, ChainKeyIds(m.msg.ephemeral)).None?
    requires Authenticated(w.Entry(side), m, s.IdentityOf(side), w.next).Ok?
    ensures Inv(s, AfterDeliver(s, w, side, m), h') && Grows(h, h')
  {
    LadderFacts(s, w, h);
    assert SideOk(s, w, h, side);
    SideFacts(s, w, h, side);
    var e' := NextOutcome(s, w, h, side, w.Entry(side), s.IdentityOf(side.Other()), h.Rung(side), m, s.IdentityOf(side), w.next);
    NextArrives(s, w, h, side, m, e');
    h' := Climbed(h, side, m.msg.counter, w.next);
  }

  // ---- every step, every run ----

  lemma DeliveryKeepsInv(s: Setup, w: World, h: History, side: Side, m: Packet) returns (h': History)
    requires s.Sound() && Inv(s, w, h) && Producible(s, w, m.tag)
    ensures Inv(s, AfterDeliver(s, w, side, m), h') && Grows(h, h')
  {
    if NaiveDecrypt(w.Entry(side), m, s.IdentityOf(side), w.next).Err? {
      h' := h;
      RejectionKeepsInv(s, w, h, side, m);
    } else {
      DecryptAuthenticates(w.Entry(side), m, s.IdentityOf(side), w.next);
      if FirstIn(w.Entry(side).chains, ChainKeyIds(m.msg.ephemeral)).Some? {
        h' := CurrentDelivery(s, w, h, side, m);
      } else {
        h' := NextDelivery(s, w, h, side, m);
      }
    }
  }

  lemma {:induction false} StepKeepsInv(s: Setup, w: World, h: History, a: Action) returns (h': History)
    requires s.Sound() && Inv(s, w, h) && Possible(s, w, a)
    ensures Inv(s, After(s, w, a), h') && Grows(h, h')
  {
    match a
    case Send(side, plain) => h' := SendKeepsInv(s, w, h, side, plain);
    case Deliver(side, m) => h' := DeliveryKeepsInv(s, w, h, side, m);
  }

  /** A packet that is refused changes nothing but the next draw. */
  lemma RejectionKeepsInv(s: Setup, w: World, h: History, side: Side, m: Packet)
    requires Inv(s, w, h) && NaiveDecrypt(w.Entry(side), m, s.IdentityOf(side), w.next).Err?
    ensures Inv(s, AfterDeliver(s, w, side, m), h) && Grows(h, h)
  {
    DrawKeepsInv(s, w, h);
  }

  lemma DrawKeepsInv(s: Setup, w: World, h: History)
    requires Inv(s, w, h)
    ensures Inv(s, w.(next := w.next + 1), h) && Grows(h, h)
  {
    var w' := w.(next := w.next + 1);
    assert LadderOk(s, w', h);
    SentStays(s, w, h, w', h);
    AcceptedStays(s, w, h, w', h);
    assert SideOk(s, w, h, Alice) && SideOk(s, w, h, Bob);
    StandsAt(s, w', h, Alice, w.alice, h.alice);
    StandsAt(s, w', h, Bob, w.bob, h.bob);
    InvFromSides(s, w', h, Alice);
  }

  /** In every world of every run, any interleaving of sends and of deliveries of anything the
      network can produce, the two entries stand on one ladder, one rung apart. */
  lemma {:induction false} RunKeepsInv(s: Setup, run: Run, k: nat) returns (h: History)
    requires s.Sound() && IsRun(s, run) && k < |run.worlds|
    ensures Inv(s, run.worlds[k], h)
  {
    if k == 0 {
      assert Begins(s, run);
      InitialInv(s);
      h := InitialHistory(s);
    } else {
      assert Steps(s, run, k - 1);
      var h0 := RunKeepsInv(s, run, k - 1);
      h := StepKeepsInv(s, run.worlds[k - 1], h0, run.acts[k - 1]);
    }
  }

  lemma GrowsOn(h: History, h': History, h'': History)
    requires Grows(h, h') && Grows(h', h'')
    ensures Grows(h, h'')
  {
  }

  /** The invariant at two moments of one run. */
  lemma {:induction false} RunGoesOn(s: Setup, run: Run, k: nat, k': nat) returns (h: History, h': History)
    requires s.Sound() && IsRun(s, run) && k <= k' < |run.worlds|
    ensures Inv(s, run.worlds[k], h) && Inv(s, run.worlds[k'], h') && Grows(h, h')
  {
    if k == k' {
      h := RunKeepsInv(s, run, k);
      h' := h;
    } else {
      assert Steps(s, run, k' - 1);
      var h0;
      h, h0 := RunGoesOn(s, run, k, k' - 1);
      h' := StepKeepsInv(s, run.worlds[k' - 1], h0, run.acts[k' - 1]);
      GrowsOn(h, h0, h');
    }
  }
}
