/**
 What stealing one entry gives away.  The thief holds the entry's ephemeral private key,
 its root, its chain keys and its stored message keys, and everything that can be
 computed from them; the identity and prekey private keys are not part of an entry.
 */
module Compromise {
  import opened Outcomes
  import opened Keys
  import opened Chains
  import opened Ratchet
  import opened Ladder
  import opened Conversation
  import opened ConversationSteps
  import opened ConversationRuns
  import opened ConversationTheorems

  /** The secrets an entry stores. */
  function Secrets(e: EntryState): set<Secret> {
    {e.root} + ChainKeys(e.chains) + StoredKeys(e.chains)
  }

  function ChainKeys(chains: map<Id, ChainState>): set<Secret> {
    set id | id in chains && chains[id].key.Live? :: chains[id].key.key
  }

  function StoredKeys(chains: map<Id, ChainState>): set<Secret> {
    set id, i | id in chains && i in chains[id].store :: chains[id].store[i]
  }

  /** Where a thief stands: on rung p of the ladder, n messages into epoch p, with the
      peer's epoch p - 1 read up to counter c and the keys of store kept from it. */
  datatype Loot = Loot(p: nat, n: nat, c: int, store: set<int>)

  ghost predicate Held(t: Secret, r0: Secret, ks: seq<Priv>, l: Loot)
    requires l.p < |ks| && l.c >= -1
  {
    || t == Root(r0, ks, l.p)
    || (l.p >= 1 && t == NextN(Start(r0, ks, l.p), l.n))
    || (l.p >= 2 && t == NextN(Start(r0, ks, l.p - 1), l.c + 1))
    || (l.p >= 2 && exists i: nat :: i in l.store && t == MessageKey(r0, ks, l.p - 1, i))
  }

  /** The ladder as seen by someone who knows exactly the loot. */
  ghost predicate Knows(s: Setup, known: set<Secret>, ks: seq<Priv>, l: Loot) {
    && s.Sound()
    && l.p < |ks| && l.c >= -1 && 2 <= |ks|
    && ks[0] == s.spkB && ks[1] == s.ekA
    && (forall i, j :: 0 <= i < j < |ks| ==> Differ(ks, i, j))
    && (forall i :: 2 <= i < |ks| ==> s.supply <= ks[i])
    && (forall t :: t in known <==> Held(t, s.R0(), ks, l))
  }

  // ---- roots and chain starts ----

  lemma HeldShapes(s: Setup, known: set<Secret>, ks: seq<Priv>, l: Loot, t: Secret)
    requires Knows(s, known, ks, l) && t in known
    ensures !t.Dh? && !t.Filler?
    ensures t.X3dhRoot? ==> l.p == 0
    ensures t.RootOf? ==> t == Root(s.R0(), ks, l.p)
    ensures t.ChainOf? ==> || (l.p >= 1 && l.n == 0 && t == Start(s.R0(), ks, l.p))
                           || (l.p >= 2 && l.c == -1 && t == Start(s.R0(), ks, l.p - 1))
  {
    assert Held(t, s.R0(), ks, l);
  }

  /** An earlier root is out of reach. */
  lemma {:induction false} PastRootHidden(s: Setup, known: set<Secret>, ks: seq<Priv>, l: Loot, q: nat)
    requires Knows(s, known, ks, l) && q < l.p
    ensures !Derives({ks[l.p]}, known, Root(s.R0(), ks, q))
  {
    var t := Root(s.R0(), ks, q);
    if t in known {
      HeldShapes(s, known, ks, l, t);
      RootRungs(s.R0(), ks, q);
      RootRungs(s.R0(), ks, l.p);
    } else if q > 0 {
      PastRootHidden(s, known, ks, l, q - 1);
    } else {
      var dh := s.R0().shared[1];
      SameRung(ks, 0, l.p);
      if dh in known {
        HeldShapes(s, known, ks, l, dh);
      }
      assert !Derives({ks[l.p]}, known, dh);
    }
  }

  /** The agreement that starts epoch q takes one of the two private keys around it. */
  lemma AgreementScope(s: Setup, known: set<Secret>, ks: seq<Priv>, l: Loot, q: nat)
    requires Knows(s, known, ks, l) && 1 <= q < |ks|
    ensures Derives({ks[l.p]}, known, Agree(ks[q - 1], ks[q])) <==> q == l.p || q == l.p + 1
  {
    if Agree(ks[q - 1], ks[q]) in known {
      HeldShapes(s, known, ks, l, Agree(ks[q - 1], ks[q]));
    }
    SameRung(ks, q - 1, l.p);
    SameRung(ks, q, l.p);
  }

  lemma RootHeld(s: Setup, known: set<Secret>, ks: seq<Priv>, l: Loot)
    requires Knows(s, known, ks, l)
    ensures Derives({ks[l.p]}, known, Root(s.R0(), ks, l.p))
  {
    assert Held(Root(s.R0(), ks, l.p), s.R0(), ks, l);
  }

  /** The first chain key of an epoch: computable for the next epoch, or still held. */
  lemma StartScope(s: Setup, known: set<Secret>, ks: seq<Priv>, l: Loot, q: nat)
    requires Knows(s, known, ks, l) && 1 <= q < |ks| && Start(s.R0(), ks, q) !in known
    ensures Derives({ks[l.p]}, known, Start(s.R0(), ks, q)) <==> q == l.p + 1
  {
    AgreementScope(s, known, ks, l, q);
    if q == l.p {
      PastRootHidden(s, known, ks, l, q - 1);
    } else if q == l.p + 1 {
      RootHeld(s, known, ks, l);
    }
  }

  // ---- chain keys and message keys ----

  lemma StepHeld(s: Setup, known: set<Secret>, ks: seq<Priv>, l: Loot, q: nat, i: nat)
    requires Knows(s, known, ks, l) && 1 <= q < |ks|
    ensures NextN(Start(s.R0(), ks, q), i) in known <==> (q == l.p && i == l.n) || (q + 1 == l.p && i == l.c + 1)
  {
    var t := NextN(Start(s.R0(), ks, q), i);
    assert t in known <==> Held(t, s.R0(), ks, l);
    if l.p >= 1 && t == NextN(Start(s.R0(), ks, l.p), l.n) {
      NextNInjective(Start(s.R0(), ks, q), i, Start(s.R0(), ks, l.p), l.n);
      StartRungs(s.R0(), ks, q);
      StartRungs(s.R0(), ks, l.p);
    }
    if l.p >= 2 && t == NextN(Start(s.R0(), ks, l.p - 1), l.c + 1) {
      NextNInjective(Start(s.R0(), ks, q), i, Start(s.R0(), ks, l.p - 1), l.c + 1);
      StartRungs(s.R0(), ks, q);
      StartRungs(s.R0(), ks, l.p - 1);
    }
  }

  /** Exactly which chain keys the loot gives. */
  lemma {:induction false} ChainKeyScope(s: Setup, known: set<Secret>, ks: seq<Priv>, l: Loot, q: nat, i: nat)
    requires Knows(s, known, ks, l) && 1 <= q < |ks|
    ensures Derives({ks[l.p]}, known, NextN(Start(s.R0(), ks, q), i))
            <==> q == l.p + 1 || (q == l.p && i >= l.n) || (q + 1 == l.p && i > l.c)
  {
    StepHeld(s, known, ks, l, q, i);
    if i > 0 {
      ChainKeyScope(s, known, ks, l, q, i - 1);
    } else if Start(s.R0(), ks, q) !in known {
      StartScope(s, known, ks, l, q);
    }
  }

  /** Exactly which message keys the loot gives. */
  lemma MessageKeyScope(s: Setup, known: set<Secret>, ks: seq<Priv>, l: Loot, q: nat, i: nat)
    requires Knows(s, known, ks, l) && 1 <= q < |ks|
    ensures Derives({ks[l.p]}, known, MessageKey(s.R0(), ks, q, i))
            <==> q == l.p + 1 || (q == l.p && i >= l.n) || (q + 1 == l.p && (i > l.c || i in l.store))
  {
    ChainKeyScope(s, known, ks, l, q, i);
    var t := MessageKey(s.R0(), ks, q, i);
    assert t in known <==> Held(t, s.R0(), ks, l);
    if q + 1 == l.p {
      assert i in l.store ==> Held(t, s.R0(), ks, l);
    }
    if t in known && l.p >= 2 {
      var i' : nat :| i' in l.store && t == MessageKey(s.R0(), ks, l.p - 1, i');
      NextNInjective(Start(s.R0(), ks, q), i, Start(s.R0(), ks, l.p - 1), i');
      StartRungs(s.R0(), ks, q);
      StartRungs(s.R0(), ks, l.p - 1);
    }
  }

  // ---- entries ----

  function LootOf(e: EntryState, p: nat): Loot {
    Loot(p,
         if e.pubKey in e.chains && e.chains[e.pubKey].counter >= -1 then e.chains[e.pubKey].counter + 1 else 0,
         if e.lastRemote in e.chains && e.chains[e.lastRemote].counter >= -1 then e.chains[e.lastRemote].counter else -1,
         if e.lastRemote in e.chains then e.chains[e.lastRemote].store.Keys else {})
  }

  /** An entry on rung p, told by what it stores. */
  ghost predicate Stands(e: EntryState, r0: Secret, ks: seq<Priv>, p: nat)
    requires p < |ks|
  {
    && e.root == Root(r0, ks, p)
    && e.pubKey != e.lastRemote
    && e.chains.Keys == (if p >= 1 then {e.pubKey} else {}) + (if p >= 2 then {e.lastRemote} else {})
    && (p >= 1 ==> Carries(e.chains[e.pubKey], Start(r0, ks, p)) && e.chains[e.pubKey].store == map[])
    && (p >= 2 ==> Carries(e.chains[e.lastRemote], Start(r0, ks, p - 1)))
  }

  ghost predicate Carries(c: ChainState, start: Secret) {
    && c.counter >= -1 && c.key == Live(NextN(start, c.counter + 1))
    && (forall i :: i in c.store ==> 0 <= i)
    && (forall i: nat :: i in c.store ==> c.store[i] == Msg(NextN(start, i)))
  }

  lemma ChainKeyIsHeld(e: EntryState, r0: Secret, ks: seq<Priv>, p: nat, t: Secret)
    requires p < |ks| && Stands(e, r0, ks, p) && t in ChainKeys(e.chains)
    ensures Held(t, r0, ks, LootOf(e, p))
  {
    var id :| id in e.chains && e.chains[id].key.Live? && t == e.chains[id].key.key;
    assert id == e.pubKey || id == e.lastRemote;
  }

  lemma StoredKeyIsHeld(e: EntryState, r0: Secret, ks: seq<Priv>, p: nat, t: Secret)
    requires p < |ks| && Stands(e, r0, ks, p) && t in StoredKeys(e.chains)
    ensures Held(t, r0, ks, LootOf(e, p))
  {
    var id, i :| id in e.chains && i in e.chains[id].store && t == e.chains[id].store[i];
    assert id == e.lastRemote && t == MessageKey(r0, ks, p - 1, i);
  }

  lemma SecretIsHeld(e: EntryState, r0: Secret, ks: seq<Priv>, p: nat, t: Secret)
    requires p < |ks| && Stands(e, r0, ks, p) && t in Secrets(e)
    ensures Held(t, r0, ks, LootOf(e, p))
  {
    if t in ChainKeys(e.chains) {
      ChainKeyIsHeld(e, r0, ks, p, t);
    } else if t in StoredKeys(e.chains) {
      StoredKeyIsHeld(e, r0, ks, p, t);
    }
  }

  lemma HeldIsSecret(e: EntryState, r0: Secret, ks: seq<Priv>, p: nat, t: Secret)
    requires p < |ks| && Stands(e, r0, ks, p) && Held(t, r0, ks, LootOf(e, p))
    ensures t in Secrets(e)
  {
    if p >= 1 {
      assert e.pubKey in e.chains;
    }
    if p >= 2 {
      assert e.lastRemote in e.chains;
    }
  }

  lemma RungStands(e: EntryState, r0: Secret, id: Raw, h: History, h': History, p: nat)
    requires Wide(h) && p < |h.ks| && AtRung(e, r0, id, h, p) && Grows(h, h')
    requires forall i, j :: 0 <= i < j < |h.ks| ==> Differ(h.ks, i, j)
    ensures Stands(e, r0, h'.ks, p)
  {
    LadderGrows(r0, h, h', p);
    if p >= 2 {
      LadderGrows(r0, h, h', p - 1);
    }
    SameRung(h.ks, if p == 0 then 1 else p - 1, p);
  }

  /** What an entry on rung p gives away, in terms of the ladder as it is later. */
  lemma EntryGives(s: Setup, w: World, h: History, w': World, h': History, side: Side)
    requires s.Sound() && LadderOk(s, w, h) && SideOk(s, w, h, side)
    requires LadderOk(s, w', h') && Grows(h, h')
    ensures Knows(s, Secrets(w.Entry(side)), h'.ks, LootOf(w.Entry(side), h.Rung(side)))
  {
    var e, p := w.Entry(side), h.Rung(side);
    RungStands(e, s.R0(), s.IdentityOf(side.Other()), h, h', p);
    forall t
      ensures t in Secrets(e) <==> Held(t, s.R0(), h'.ks, LootOf(e, p))
    {
      if t in Secrets(e) {
        SecretIsHeld(e, s.R0(), h'.ks, p, t);
      } else if Held(t, s.R0(), h'.ks, LootOf(e, p)) {
        HeldIsSecret(e, s.R0(), h'.ks, p, t);
      }
    }
  }

  // ---- the theorems ----

  /** Whether an entry on rung p gives the message key of counter n in epoch q. */
  predicate Gives(e: EntryState, p: nat, q: nat, n: nat) {
    || q == p + 1
    || (q == p && e.pubKey in e.chains && n > e.chains[e.pubKey].counter)
    || (q + 1 == p && e.lastRemote in e.chains
        && (n in e.chains[e.lastRemote].store || n > e.chains[e.lastRemote].counter))
  }

  /** An entry stolen at any moment gives, of all the messages emitted before and however long
      after, the keys of exactly these: later messages on its own sending chain, messages it
      could still read on its receiving chain, and the one epoch that follows its own.  All
      that was consumed, evicted or retired stays secret, and so does all that comes after
      two further ratchet steps. */
  lemma CompromiseScope(s: Setup, run: Run, k: nat, k': nat, side: Side, j: nat)
    returns (ks: seq<Priv>, p: nat, q: nat)
    requires s.Sound() && IsRun(s, run) && k <= k' < |run.worlds| && j < |run.worlds[k'].sent|
    ensures var e, m := run.worlds[k].Entry(side), run.worlds[k'].sent[j].packet;
            && p < |ks| && 1 <= q < |ks| && e.priv == ks[p] && e.root == Root(s.R0(), ks, p)
            && m.msg.ephemeral == Wire(Pub(ks[q])) && m.tag.Mac?
            && m.tag.key == MessageKey(s.R0(), ks, q, m.msg.counter)
            && (Derives({e.priv}, Secrets(e), m.tag.key) <==> Gives(e, p, q, m.msg.counter))
  {
    var w, w' := run.worlds[k], run.worlds[k'];
    var h, h' := RunGoesOn(s, run, k, k');
    assert SideOk(s, w, h, side);
    assert SentItemOk(s, w', h', j);
    ks, p, q := h'.ks, h.Rung(side), h'.sentAt[j];
    GivenAway(s, w, h, w', h', side, q, w'.sent[j].packet.msg.counter);
  }

  lemma GivenAway(s: Setup, w: World, h: History, w': World, h': History, side: Side, q: nat, n: nat)
    requires s.Sound() && LadderOk(s, w, h) && SideOk(s, w, h, side) && LadderOk(s, w', h') && Grows(h, h')
    requires 1 <= q < |h'.ks|
    ensures var e, p := w.Entry(side), h.Rung(side);
            && p < |h'.ks| && e.priv == h'.ks[p] && e.root == Root(s.R0(), h'.ks, p)
            && (Derives({e.priv}, Secrets(e), MessageKey(s.R0(), h'.ks, q, n)) <==> Gives(e, p, q, n))
  {
    var e, p := w.Entry(side), h.Rung(side);
    EntryGives(s, w, h, w', h', side);
    RungStands(e, s.R0(), s.IdentityOf(side.Other()), h, h', p);
    MessageKeyScope(s, Secrets(e), h'.ks, LootOf(e, p), q, n);
    LootGives(e, s.R0(), h'.ks, p, q, n);
  }

  lemma LootGives(e: EntryState, r0: Secret, ks: seq<Priv>, p: nat, q: nat, n: nat)
    requires p < |ks| && 1 <= q && Stands(e, r0, ks, p)
    ensures var l := LootOf(e, p);
            Gives(e, p, q, n) <==> q == p + 1 || (q == p && n >= l.n) || (q + 1 == p && (n > l.c || n in l.store))
  {
    if p >= 1 {
      assert e.pubKey in e.chains;
    }
    if p >= 2 {
      assert e.lastRemote in e.chains;
    }
  }

  /** Of its own side's messages, whenever sent, a stolen entry gives exactly those sent
      later on the chain it held. */
  lemma OwnMessages(s: Setup, run: Run, k: nat, k': nat, side: Side, j: nat)
    requires s.Sound() && IsRun(s, run) && k <= k' < |run.worlds| && j < |run.worlds[k'].sent|
    requires run.worlds[k'].sent[j].sender == side
    ensures var e, m := run.worlds[k].Entry(side), run.worlds[k'].sent[j].packet;
            && m.tag.Mac?
            && (Derives({e.priv}, Secrets(e), m.tag.key)
                <==> && m.msg.ephemeral == WireKey(e.pubKey)
                     && e.pubKey in e.chains && m.msg.counter > e.chains[e.pubKey].counter)
  {
    var w, w' := run.worlds[k], run.worlds[k'];
    var h, h' := RunGoesOn(s, run, k, k');
    var e, p, q := w.Entry(side), h.Rung(side), h'.sentAt[j];
    assert SideOk(s, w, h, side);
    assert SentItemOk(s, w', h', j);
    RungParity(s, w, h, side);
    GivenAway(s, w, h, w', h', side, q, w'.sent[j].packet.msg.counter);
    OwnGives(s, w, h, w', h', side, q, w'.sent[j].packet.msg.counter);
  }

  lemma OwnGives(s: Setup, w: World, h: History, w': World, h': History, side: Side, q: nat, n: nat)
    requires LadderOk(s, w, h) && SideOk(s, w, h, side) && LadderOk(s, w', h') && Grows(h, h')
    requires 1 <= q < |h'.ks| && Owner(q) == side
    ensures var e, p := w.Entry(side), h.Rung(side);
            Gives(e, p, q, n) <==> && WireOf(h'.ks, q) == WireKey(e.pubKey)
                                   && e.pubKey in e.chains && n > e.chains[e.pubKey].counter
  {
    var e, p := w.Entry(side), h.Rung(side);
    RungParity(s, w, h, side);
    assert WireKey(e.pubKey) == WireOf(h'.ks, p);
    SameRung(h'.ks, p, q);
    OwnGivesAt(e, h'.ks, p, q, n);
  }

  lemma OwnGivesAt(e: EntryState, ks: seq<Priv>, p: nat, q: nat, n: nat)
    requires p < |ks| && 1 <= q < |ks| && Owner(p) == Owner(q) && (ks[p] == ks[q] ==> p == q)
    ensures Gives(e, p, q, n) <==> WireOf(ks, q) == WireOf(ks, p) && e.pubKey in e.chains && n > e.chains[e.pubKey].counter
  {
  }

  /** Whether the reader could still read a packet if MAX_SKIP were no limit: its chain has
      the key or comes to it, or it has no chain and the key is the peer's current one. */
  predicate StillOpen(w: World, reader: Side, m: Packet) {
    var e := w.Entry(reader);
    match FirstIn(e.chains, ChainKeyIds(m.msg.ephemeral))
    case Some(id) => m.msg.counter in e.chains[id].store || m.msg.counter > e.chains[id].counter
    case None => m.msg.ephemeral == WireKey(w.Entry(reader.Other()).pubKey)
  }

  lemma PeerGives(s: Setup, w: World, h: History, side: Side, q: nat, n: nat)
    requires LadderOk(s, w, h) && SideOk(s, w, h, side) && SideOk(s, w, h, side.Other())
    requires 1 <= q < |h.ks| && n < |h.log[q]| && Owner(q) == side.Other()
    ensures Gives(w.Entry(side), h.Rung(side), q, n) <==> StillOpen(w, side, Genuine(s, h, q, n))
  {
    var p, ahead := h.Rung(side), h.Rung(side.Other());
    RungParity(s, w, h, side);
    LooksUp(w.Entry(side), s.R0(), s.IdentityOf(side.Other()), h, p, q);
    assert WireKey(w.Entry(side.Other()).pubKey) == WireOf(h.ks, ahead);
    SameRung(h.ks, q, ahead);
    if q + 1 == p {
      assert w.Entry(side).lastRemote == Named(WireOf(h.ks, q));
    }
  }

  /** Of the peer's messages sent so far, a stolen entry gives the keys of exactly those it
      could still have read. */
  lemma ForwardSecrecy(s: Setup, run: Run, k: nat, side: Side, j: nat)
    requires s.Sound() && IsRun(s, run) && k < |run.worlds| && j < |run.worlds[k].sent|
    requires run.worlds[k].sent[j].sender == side.Other()
    ensures var w := run.worlds[k];
            var e, m := w.Entry(side), w.sent[j].packet;
            m.tag.Mac? && (Derives({e.priv}, Secrets(e), m.tag.key) <==> StillOpen(w, side, m))
  {
    var w := run.worlds[k];
    var h := RunKeepsInv(s, run, k);
    assert SideOk(s, w, h, side) && SideOk(s, w, h, side.Other());
    assert SentItemOk(s, w, h, j);
    GivenAway(s, w, h, w, h, side, h.sentAt[j], w.sent[j].packet.msg.counter);
    PeerGives(s, w, h, side, h.sentAt[j], w.sent[j].packet.msg.counter);
  }

  lemma AcceptedIsClosed(s: Setup, w: World, h: History, side: Side, q: nat, n: nat)
    requires LadderOk(s, w, h) && AcceptedOk(s, w, h) && SideOk(s, w, h, side)
    requires 1 <= q < |h.ks| && n < |h.log[q]| && Owner(q) == side.Other()
    requires WasAccepted(w, side, Genuine(s, h, q, n))
    ensures !Gives(w.Entry(side), h.Rung(side), q, n)
  {
    RungParity(s, w, h, side);
    GotWasAccepted(s, w, h, q, n);
  }

  /** In particular none that it has read. */
  lemma ConsumedKeysAreGone(s: Setup, run: Run, k: nat, side: Side, j: nat)
    requires s.Sound() && IsRun(s, run) && k < |run.worlds| && j < |run.worlds[k].sent|
    requires run.worlds[k].sent[j].sender == side.Other() && WasAccepted(run.worlds[k], side, run.worlds[k].sent[j].packet)
    ensures var e, m := run.worlds[k].Entry(side), run.worlds[k].sent[j].packet;
            m.tag.Mac? && !Derives({e.priv}, Secrets(e), m.tag.key)
  {
    var w := run.worlds[k];
    var h := RunKeepsInv(s, run, k);
    assert SideOk(s, w, h, side) && SideOk(s, w, h, side.Other());
    assert SentItemOk(s, w, h, j);
    GivenAway(s, w, h, w, h, side, h.sentAt[j], w.sent[j].packet.msg.counter);
    AcceptedIsClosed(s, w, h, side, h.sentAt[j], w.sent[j].packet.msg.counter);
  }
}
