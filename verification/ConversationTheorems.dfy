/**
 What a conversation guarantees in every reachable world, whatever the network does:
 agreement, exactly which messages are delivered, authenticity, and no repetition.
 */
module ConversationTheorems {
  import opened Outcomes
  import opened Keys
  import opened Chains
  import opened Ratchet
  import SessionEntries
  import opened Ladder
  import opened Conversation
  import opened ConversationSteps
  import opened ConversationReceipt
  import opened ConversationRuns

  // ---- agreement ----

  /** Wherever the reader holds a receiving chain for the sender's current key, it is the
      sender's chain at an earlier step, or the same. */
  ghost predicate ChainsMeet(sender: EntryState, reader: EntryState) {
    forall id :: id in reader.chains && reader.chains[id].IsReceiving() && id == Named(Wire(Pub(sender.priv))) ==>
      && sender.pubKey in sender.chains && sender.chains[sender.pubKey].IsSending()
      && var sending, receiving := sender.chains[sender.pubKey], reader.chains[id];
      && receiving.counter <= sending.counter
      && receiving.key.Live?
      && sending.key == Live(NextN(receiving.key.key, sending.counter - receiving.counter))
  }

  lemma SidesMeet(s: Setup, w: World, h: History, side: Side)
    requires LadderOk(s, w, h) && SideOk(s, w, h, side) && SideOk(s, w, h, side.Other())
    ensures ChainsMeet(w.Entry(side), w.Entry(side.Other()))
  {
    var p, r := h.Rung(side), h.Rung(side.Other());
    EntriesMeet(s.R0(), h, w.Entry(side), s.IdentityOf(side.Other()), p, w.Entry(side.Other()), s.IdentityOf(side), r);
  }

  lemma EntriesMeet(r0: Secret, h: History, sender: EntryState, id: Raw, p: nat, reader: EntryState, id': Raw, r: nat)
    requires Wide(h) && p < |h.ks| && r < |h.ks| && (r == p + 1 || p == r + 1)
    requires AtRung(sender, r0, id, h, p) && AtRung(reader, r0, id', h, r)
    requires forall i, j :: 0 <= i < j < |h.ks| ==> Differ(h.ks, i, j)
    ensures ChainsMeet(sender, reader)
  {
    SameRung(h.ks, p, r);
    if r == p + 1 && p >= 1 {
      var sending, receiving := sender.chains[Named(OwnRaw(h.ks, p))], reader.chains[Named(WireOf(h.ks, p))];
      NextNAdds(Start(r0, h.ks, p), receiving.counter + 1, sending.counter - receiving.counter);
    } else if r + 1 == p && r >= 2 {
      SameRung(h.ks, r - 1, p);
    }
  }

  /** A key stands on one rung only. */
  lemma SameRung(ks: seq<Priv>, i: nat, j: nat)
    requires forall i, j :: 0 <= i < j < |ks| ==> Differ(ks, i, j)
    requires i < |ks| && j < |ks|
    ensures ks[i] == ks[j] ==> i == j
  {
    if i != j {
      assert Differ(ks, if i < j then i else j, if i < j then j else i);
    }
  }

  /** Both roots lie on one ladder, exactly one rung apart, and the chains of one ephemeral
      key are one HMAC chain. */
  lemma LadderAgreement(s: Setup, run: Run, k: nat) returns (ks: seq<Priv>, a: nat, b: nat)
    requires s.Sound() && IsRun(s, run) && k < |run.worlds|
    ensures a < |ks| && b < |ks| && (a == b + 1 || b == a + 1)
    ensures var w := run.worlds[k];
            && w.alice.root == Root(s.R0(), ks, a) && w.alice.priv == ks[a]
            && w.bob.root == Root(s.R0(), ks, b) && w.bob.priv == ks[b]
            && ChainsMeet(w.alice, w.bob) && ChainsMeet(w.bob, w.alice)
  {
    var h := RunKeepsInv(s, run, k);
    SidesMeet(s, run.worlds[k], h, Alice);
    SidesMeet(s, run.worlds[k], h, Bob);
    return h.ks, h.alice, h.bob;
  }

  // ---- shape ----

  /** An entry never holds more than one sending chain, under its own public key, and one
      receiving chain, under its last remote key; so the choice encrypt makes between
      several is never reached. */
  lemma ReachableShape(s: Setup, run: Run, k: nat, side: Side)
    requires s.Sound() && IsRun(s, run) && k < |run.worlds|
    ensures var e := run.worlds[k].Entry(side);
            && (forall id :: id in e.chains ==> id == e.pubKey || id == e.lastRemote)
            && (forall id :: id in e.chains ==> (e.chains[id].IsSending() <==> id == e.pubKey))
            && (forall id :: id in e.chains ==> (e.chains[id].IsReceiving() <==> id == e.lastRemote))
            && (e.pubKey in e.chains ==> e.chains[e.pubKey].store == map[])
            && e.WellStored()
            && SendingChain(e) != Err(AmbiguousSendingChain)
  {
    var w := run.worlds[k];
    var h := RunKeepsInv(s, run, k);
    assert SideOk(s, w, h, side);
    ShapeAt(s, w, h, side);
  }

  lemma ShapeAt(s: Setup, w: World, h: History, side: Side)
    requires LadderOk(s, w, h) && SideOk(s, w, h, side)
    ensures var e := w.Entry(side);
            && (forall id :: id in e.chains ==> id == e.pubKey || id == e.lastRemote)
            && (forall id :: id in e.chains ==> (e.chains[id].IsSending() <==> id == e.pubKey))
            && (forall id :: id in e.chains ==> (e.chains[id].IsReceiving() <==> id == e.lastRemote))
            && (e.pubKey in e.chains ==> e.chains[e.pubKey].store == map[])
            && e.WellStored()
            && SendingChain(e) != Err(AmbiguousSendingChain)
  {
    var p := h.Rung(side);
    SendingChainAt(w.Entry(side), s.R0(), s.IdentityOf(side.Other()), h, p);
    if p >= 1 {
      assert Differ(h.ks, p - 1, p);
    }
  }

  /** encrypt fails only on a recipient's entry that has not received yet, or when the
      counter has used up the wire's u32. */
  lemma WhenEncryptFails(s: Setup, run: Run, k: nat, side: Side, plain: Plaintext)
    requires s.Sound() && IsRun(s, run) && k < |run.worlds|
    ensures var e := run.worlds[k].Entry(side);
            var r := EncryptSpec(e, plain, s.IdentityOf(side), 0);
            && (r.Err? <==> e.pubKey !in e.chains || e.chains[e.pubKey].counter == U32 - 1)
            && (r.Err? ==> r.error == if e.pubKey !in e.chains then NoSendingChain else CounterTooWide)
  {
    var w := run.worlds[k];
    var h := RunKeepsInv(s, run, k);
    var p, e := h.Rung(side), w.Entry(side);
    RungParity(s, w, h, side);
    assert SideOk(s, w, h, side);
    EncryptsAt(s, e, h, p, plain);
  }

  lemma EncryptsAt(s: Setup, e: EntryState, h: History, p: nat, plain: Plaintext)
    requires Wide(h) && p < |h.ks| && AtRung(e, s.R0(), s.IdentityOf(Owner(p).Other()), h, p)
    requires p >= 1 ==> Differ(h.ks, p - 1, p)
    ensures var r := EncryptSpec(e, plain, s.IdentityOf(Owner(p)), 0);
            && (r.Err? <==> e.pubKey !in e.chains || e.chains[e.pubKey].counter == U32 - 1)
            && (r.Err? ==> r.error == if e.pubKey !in e.chains then NoSendingChain else CounterTooWide)
  {
    if p >= 1 && |h.log[p]| < U32 {
      EncryptSucceeds(s, e, h, p, plain);
    } else {
      EncryptRefuses(e, s.R0(), s.IdentityOf(Owner(p).Other()), h, p, plain, s.IdentityOf(Owner(p)));
    }
  }

  // ---- delivery ----

  /** The chain a step would close is not left more than MAX_SKIP messages behind. */
  predicate ClosesInReach(e: EntryState, previous: u32) {
    match FirstIn(e.chains, RetiredIds(e))
    case None => true
    case Some(id) => previous - e.chains[id].counter <= MAX_SKIP
  }

  /** The reader holds a chain for the packet's key that has or reaches its counter; or has
      none, the key is the peer's current one, and the step and counter are in reach. */
  predicate Readable(w: World, reader: Side, p: Packet) {
    var e := w.Entry(reader);
    match FirstIn(e.chains, ChainKeyIds(p.msg.ephemeral))
    case Some(id) => InReach(e.chains[id], p.msg.counter)
    case None =>
      && p.msg.ephemeral == WireKey(w.Entry(reader.Other()).pubKey)
      && p.msg.counter < MAX_SKIP
      && ClosesInReach(e, p.msg.previousCounter)
  }

  /** What an entry at rung p holds for the wire form of another key of the ladder. */
  lemma LooksUp(e: EntryState, r0: Secret, id: Raw, h: History, p: nat, q: nat)
    requires Wide(h) && p < |h.ks| && q < |h.ks| && AtRung(e, r0, id, h, p)
    requires forall i, j :: 0 <= i < j < |h.ks| ==> Differ(h.ks, i, j)
    requires q != p
    ensures FirstIn(e.chains, ChainKeyIds(WireOf(h.ks, q)))
         == if 1 <= q && q == p - 1 then Some(Named(WireOf(h.ks, q))) else None
  {
    assert Differ(h.ks, if q < p then q else p, if q < p then p else q);
    if p >= 2 && q != p - 1 {
      assert Differ(h.ks, if q < p - 1 then q else p - 1, if q < p - 1 then p - 1 else q);
    }
  }

  /** A decrypt succeeds exactly when it may, and then gives this plaintext. */
  ghost predicate Reads(e: EntryState, m: Packet, us: Raw, seed: Priv, may: bool, plain: Plaintext) {
    && (NaiveDecrypt(e, m, us, seed).Ok? <==> may)
    && (NaiveDecrypt(e, m, us, seed).Ok? ==> NaiveDecrypt(e, m, us, seed).value.1 == plain)
  }

  /** On the current chain: delivered exactly when the chain has or reaches the counter. */
  lemma DeliversCurrent(s: Setup, e: EntryState, h: History, p: nat, n: nat, us: Raw, seed: Priv)
    requires Wide(h) && 2 <= p < |h.ks| && AtRung(e, s.R0(), s.IdentityOf(Owner(p - 1)), h, p)
    requires us == s.IdentityOf(Owner(p - 1).Other()) && n < |h.log[p - 1]|
    requires FirstIn(e.chains, ChainKeyIds(WireOf(h.ks, p - 1))) == Some(Named(WireOf(h.ks, p - 1)))
    ensures Reads(e, Genuine(s, h, p - 1, n), us, seed, InReach(e.chains[Named(WireOf(h.ks, p - 1))], n), h.log[p - 1][n])
  {
    ReceivingYields(e.chains[Named(WireOf(h.ks, p - 1))], s.R0(), h, p - 1, n);
  }

  /** The old receiving chain can be walked to its end exactly when that is in reach. */
  lemma ClosesWhenInReach(e: EntryState, r0: Secret, id: Raw, h: History, p: nat, previous: u32)
    requires Wide(h) && p < |h.ks| && AtRung(e, r0, id, h, p)
    requires forall i, j :: 0 <= i < j < |h.ks| ==> Differ(h.ks, i, j)
    ensures ClosingError(e, previous).None? <==> ClosesInReach(e, previous)
  {
    if p >= 1 {
      assert Differ(h.ks, p - 1, p);
    }
    var found := FirstIn(e.chains, RetiredIds(e));
    if found.Some? {
      var c := e.chains[found.value];
      if Fillable(c, previous) {
        FillCloses(c, previous);
      }
    }
  }

  /** The MAC verifies exactly when it may, and then under this key. */
  ghost predicate VerifiesAs(e: EntryState, m: Packet, us: Raw, seed: Priv, may: bool, key: Secret) {
    && (SessionEntries.VerifiedKey(e, m, us, seed).Ok? <==> may)
    && (SessionEntries.VerifiedKey(e, m, us, seed).Ok? ==> SessionEntries.VerifiedKey(e, m, us, seed).value == key)
  }

  /** With a step: the MAC verifies exactly when the end of the old chain and the new counter
      are in reach. */
  lemma VerifiesNext(s: Setup, e: EntryState, h: History, p: nat, n: nat, us: Raw, seed: Priv)
    requires Wide(h) && p + 1 < |h.ks| && AtRung(e, s.R0(), s.IdentityOf(Owner(p + 1)), h, p)
    requires us == s.IdentityOf(Owner(p + 1).Other()) && n < |h.log[p + 1]|
    requires ClosingError(e, Previous(h.log, p + 1)).None? <==> ClosesInReach(e, Previous(h.log, p + 1))
    requires FirstIn(e.chains, ChainKeyIds(WireOf(h.ks, p + 1))) == None
    ensures VerifiesAs(e, Genuine(s, h, p + 1, n), us, seed, n < MAX_SKIP && ClosesInReach(e, Previous(h.log, p + 1)),
                       MessageKey(s.R0(), h.ks, p + 1, n))
  {
    FreshYields(ChainOf(e.root, Agree(e.priv, h.ks[p + 1])), n);
  }

  /** With a step: delivered exactly then. */
  lemma DeliversNext(s: Setup, e: EntryState, h: History, p: nat, n: nat, us: Raw, seed: Priv)
    requires Wide(h) && p + 1 < |h.ks| && AtRung(e, s.R0(), s.IdentityOf(Owner(p + 1)), h, p)
    requires us == s.IdentityOf(Owner(p + 1).Other()) && n < |h.log[p + 1]|
    requires Distinct(h.ks, seed)
    ensures Reads(e, Genuine(s, h, p + 1, n), us, seed, n < MAX_SKIP && ClosesInReach(e, Previous(h.log, p + 1)), h.log[p + 1][n])
  {
    LooksUp(e, s.R0(), s.IdentityOf(Owner(p + 1)), h, p, p + 1);
    ClosesWhenInReach(e, s.R0(), s.IdentityOf(Owner(p + 1)), h, p, Previous(h.log, p + 1));
    VerifiesNext(s, e, h, p, n, us, seed);
    StaysApart(e, s.R0(), s.IdentityOf(Owner(p + 1)), h, p, seed);
    ReadsOnceVerified(e, Genuine(s, h, p + 1, n), us, seed, n < MAX_SKIP && ClosesInReach(e, Previous(h.log, p + 1)),
                      MessageKey(s.R0(), h.ks, p + 1, n), h.log[p + 1][n]);
  }

  lemma ReadsOnceVerified(e: EntryState, m: Packet, us: Raw, seed: Priv, may: bool, key: Secret, plain: Plaintext)
    requires Apart(e, m.msg.ephemeral, seed) && m.msg.body == Sealed(key, plain)
    requires VerifiesAs(e, m, us, seed, may, key)
    ensures Reads(e, m, us, seed, may, plain)
  {
    DecryptsOnceVerified(e, m, us, seed);
  }

  /** A packet sealed under the key it is verified with decrypts when it verifies. */
  lemma DecryptsOnceVerified(e: EntryState, m: Packet, us: Raw, seed: Priv)
    requires Apart(e, m.msg.ephemeral, seed) && m.msg.body.Sealed?
    requires SessionEntries.VerifiedKey(e, m, us, seed).Ok?
             ==> SessionEntries.VerifiedKey(e, m, us, seed).value == m.msg.body.key
    ensures NaiveDecrypt(e, m, us, seed).Ok? <==> SessionEntries.VerifiedKey(e, m, us, seed).Ok?
    ensures NaiveDecrypt(e, m, us, seed).Ok? ==> NaiveDecrypt(e, m, us, seed).value.1 == m.msg.body.plain
  {
    SessionEntries.DecryptRefinesNaive(e, m, us, seed);
  }

  lemma StaysApart(e: EntryState, r0: Secret, id: Raw, h: History, p: nat, seed: Priv)
    requires Wide(h) && p + 1 < |h.ks| && AtRung(e, r0, id, h, p) && Distinct(h.ks, seed)
    ensures Apart(e, WireOf(h.ks, p + 1), seed)
  {
    assert Differ(h.ks, p, p + 1);
  }

  /** Out of reach: a packet of a retired epoch, whoever delivers it. */
  lemma RejectsRetired(s: Setup, w: World, h: History, side: Side, q: nat, m: Packet)
    requires s.Sound() && LadderOk(s, w, h) && SentOk(s, w, h) && SideOk(s, w, h, side)
    requires IsGenuine(s, h, q, m) && q != h.Rung(side) + 1 && Producible(s, w, m.tag)
    requires FirstIn(w.Entry(side).chains, ChainKeyIds(m.msg.ephemeral)).None?
    ensures NaiveDecrypt(w.Entry(side), m, s.IdentityOf(side), w.next).Err?
  {
    DecryptAuthenticates(w.Entry(side), m, s.IdentityOf(side), w.next);
    if Authenticated(w.Entry(side), m, s.IdentityOf(side), w.next).Ok? {
      TagsNext(w.Entry(side), m, s.IdentityOf(side), w.next);
      StepsToNext(s, w, h, side, q, m);
    }
  }

  /** Only a packet of the next epoch makes the reader step. */
  lemma StepsToNext(s: Setup, w: World, h: History, side: Side, q: nat, m: Packet)
    requires s.Sound() && LadderOk(s, w, h) && SentOk(s, w, h) && SideOk(s, w, h, side)
    requires IsGenuine(s, h, q, m) && Producible(s, w, m.tag) && TaggedNext(w.Entry(side), m, s.IdentityOf(side))
    ensures q == h.Rung(side) + 1
  {
    NextWasGenuine(s, w, h, side, m);
    LadderFacts(s, w, h);
    GenuineOnce(s, h, q, h.Rung(side) + 1, m);
  }

  /** A packet is genuine in one epoch only. */
  lemma GenuineOnce(s: Setup, h: History, q: nat, q': nat, m: Packet)
    requires forall i, j :: 0 <= i < j < |h.ks| ==> Differ(h.ks, i, j)
    requires IsGenuine(s, h, q, m) && IsGenuine(s, h, q', m)
    ensures q == q'
  {
    SameRung(h.ks, q, q');
  }

  /** In every reachable world, a message the peer emitted decrypts to exactly the plaintext
      that was encrypted if it is readable, and is refused otherwise. */
  lemma Delivery(s: Setup, run: Run, k: nat, j: nat)
    requires s.Sound() && IsRun(s, run) && k < |run.worlds| && j < |run.worlds[k].sent|
    ensures var w := run.worlds[k];
            var m, reader := w.sent[j], w.sent[j].sender.Other();
            var r := NaiveDecrypt(w.Entry(reader), m.packet, s.IdentityOf(reader), w.next);
            && (r.Ok? <==> Readable(w, reader, m.packet))
            && (r.Ok? ==> r.value.1 == m.plain)
  {
    var w := run.worlds[k];
    var h := RunKeepsInv(s, run, k);
    assert SentItemOk(s, w, h, j);
    assert SideOk(s, w, h, w.sent[j].sender) && SideOk(s, w, h, w.sent[j].sender.Other());
    assert Producible(s, w, w.sent[j].packet.tag);
    DeliveryAt(s, w, h, w.sent[j].sender.Other(), h.sentAt[j], w.sent[j].packet.msg.counter);
  }

  /** Readable, told by rungs. */
  predicate MayRead(e: EntryState, h: History, p: nat, q: nat, n: nat)
    requires 1 <= q < |h.ks| && q < |h.log|
  {
    if q + 1 == p then Named(WireOf(h.ks, q)) in e.chains && InReach(e.chains[Named(WireOf(h.ks, q))], n)
    else q == p + 1 && n < MAX_SKIP && ClosesInReach(e, Previous(h.log, q))
  }

  lemma ReadableAt(s: Setup, w: World, h: History, reader: Side, q: nat, n: nat)
    requires LadderOk(s, w, h) && SideOk(s, w, h, reader) && SideOk(s, w, h, reader.Other())
    requires 1 <= q < |h.ks| && n < |h.log[q]| && Owner(q) == reader.Other()
    ensures Readable(w, reader, Genuine(s, h, q, n)) <==> MayRead(w.Entry(reader), h, h.Rung(reader), q, n)
  {
    RungParity(s, w, h, reader);
    LooksUp(w.Entry(reader), s.R0(), s.IdentityOf(reader.Other()), h, h.Rung(reader), q);
    var ahead := h.Rung(reader.Other());
    assert WireKey(w.Entry(reader.Other()).pubKey) == WireOf(h.ks, ahead);
    SameRung(h.ks, q, ahead);
  }

  /** A packet of the epoch before or after the reader's rung. */
  lemma DeliversNearby(s: Setup, e: EntryState, h: History, p: nat, q: nat, n: nat, us: Raw, seed: Priv)
    requires Wide(h) && p < |h.ks| && 1 <= q < |h.ks| && (q + 1 == p || q == p + 1) && n < |h.log[q]|
    requires AtRung(e, s.R0(), s.IdentityOf(Owner(q)), h, p) && us == s.IdentityOf(Owner(q).Other())
    requires Distinct(h.ks, seed)
    ensures Reads(e, Genuine(s, h, q, n), us, seed, MayRead(e, h, p, q, n), h.log[q][n])
  {
    if q + 1 == p {
      LooksUp(e, s.R0(), s.IdentityOf(Owner(q)), h, p, q);
      DeliversCurrent(s, e, h, p, n, us, seed);
    } else {
      DeliversNext(s, e, h, p, n, us, seed);
    }
  }

  lemma DeliveryAt(s: Setup, w: World, h: History, reader: Side, q: nat, n: nat)
    requires s.Sound() && LadderOk(s, w, h) && SentOk(s, w, h)
    requires SideOk(s, w, h, reader) && SideOk(s, w, h, reader.Other())
    requires 1 <= q < |h.ks| && n < |h.log[q]| && Owner(q) == reader.Other()
    requires Producible(s, w, Genuine(s, h, q, n).tag)
    ensures Reads(w.Entry(reader), Genuine(s, h, q, n), s.IdentityOf(reader), w.next,
                  Readable(w, reader, Genuine(s, h, q, n)), h.log[q][n])
  {
    var e, p := w.Entry(reader), h.Rung(reader);
    RungParity(s, w, h, reader);
    ReadableAt(s, w, h, reader, q, n);
    if q + 1 == p || q == p + 1 {
      LadderFacts(s, w, h);
      DeliversNearby(s, e, h, p, q, n, s.IdentityOf(reader), w.next);
    } else {
      LooksUp(e, s.R0(), s.IdentityOf(reader.Other()), h, p, q);
      RejectsRetired(s, w, h, reader, q, Genuine(s, h, q, n));
    }
  }

  /** Whether (ephemeral key, counter) has been accepted by a side. */
  predicate WasAccepted(w: World, reader: Side, p: Packet) {
    exists i :: 0 <= i < |w.accepted| && w.accepted[i].reader == reader
                && w.accepted[i].ephemeral == p.msg.ephemeral && w.accepted[i].counter == p.msg.counter
  }

  /** Nothing is lost: of a peer's messages of the reader's current epoch, one that is not older
      than the last MAX_RETAINED the reader has come to is readable exactly when it has not
      been accepted and is no more than MAX_SKIP ahead, however long the epoch. */
  lemma NothingIsLost(s: Setup, run: Run, k: nat, j: nat)
    requires s.Sound() && IsRun(s, run) && k < |run.worlds| && j < |run.worlds[k].sent|
    ensures var w := run.worlds[k];
            var m, reader := w.sent[j].packet, w.sent[j].sender.Other();
            var found := FirstIn(w.Entry(reader).chains, ChainKeyIds(m.msg.ephemeral));
            found.Some? && Recent(w.Entry(reader).chains[found.value], m.msg.counter) ==>
              (Readable(w, reader, m)
               <==> !WasAccepted(w, reader, m) && m.msg.counter <= w.Entry(reader).chains[found.value].counter + MAX_SKIP)
  {
    var w := run.worlds[k];
    var h := RunKeepsInv(s, run, k);
    var reader := w.sent[j].sender.Other();
    assert SentItemOk(s, w, h, j);
    assert SideOk(s, w, h, reader) && SideOk(s, w, h, reader.Other());
    GotWasAccepted(s, w, h, h.sentAt[j], w.sent[j].packet.msg.counter);
    KeptOrGot(s, w, h, reader, h.sentAt[j], w.sent[j].packet.msg.counter);
  }

  /** The counters of the hidden history are those of the acceptances. */
  lemma GotWasAccepted(s: Setup, w: World, h: History, q: nat, n: nat)
    requires LadderOk(s, w, h) && AcceptedOk(s, w, h) && 1 <= q < |h.ks| && n < |h.log[q]|
    ensures n in h.got[q] <==> WasAccepted(w, Owner(q).Other(), Genuine(s, h, q, n))
  {
    if n in h.got[q] {
      assert Logged(w, h, q, n);
      var j :| 0 <= j < |w.accepted| && h.gotAt[j] == q && w.accepted[j].counter == n;
      assert AcceptedItemOk(s, w, h, j);
    }
    if WasAccepted(w, Owner(q).Other(), Genuine(s, h, q, n)) {
      var i :| 0 <= i < |w.accepted| && w.accepted[i].reader == Owner(q).Other()
               && w.accepted[i].ephemeral == WireOf(h.ks, q) && w.accepted[i].counter == n;
      assert AcceptedItemOk(s, w, h, i);
      SameRung(h.ks, h.gotAt[i], q);
    }
  }

  lemma KeptOrGot(s: Setup, w: World, h: History, reader: Side, q: nat, n: nat)
    requires LadderOk(s, w, h) && SideOk(s, w, h, reader) && Owner(q) == reader.Other()
    requires 1 <= q < |h.ks| && n < |h.log[q]|
    ensures var m := Genuine(s, h, q, n);
            var found := FirstIn(w.Entry(reader).chains, ChainKeyIds(m.msg.ephemeral));
            found.Some? && Recent(w.Entry(reader).chains[found.value], n) ==>
              (Readable(w, reader, m) <==> n !in h.got[q] && n <= w.Entry(reader).chains[found.value].counter + MAX_SKIP)
  {
    RungParity(s, w, h, reader);
    LooksUp(w.Entry(reader), s.R0(), s.IdentityOf(reader.Other()), h, h.Rung(reader), q);
  }

  // ---- authenticity and no repetition ----

  /** The n-th packet emitted under a key. */
  lemma NthSent(sent: seq<Emission>, ephemeral: Raw, n: nat) returns (j: nat)
    requires n < SentUnder(sent, ephemeral)
    ensures j < |sent| && sent[j].packet.msg.ephemeral == ephemeral && SentUnder(sent[..j], ephemeral) == n
  {
    var last := |sent| - 1;
    if n < SentUnder(sent[..last], ephemeral) {
      j := NthSent(sent[..last], ephemeral, n);
      assert sent[..last][..j] == sent[..j];
    } else {
      j := last;
    }
  }

  /** Every genuine packet was emitted, by the owner of its epoch. */
  lemma GenuineWasSent(s: Setup, w: World, h: History, q: nat, n: nat) returns (j: nat)
    requires LadderOk(s, w, h) && SentOk(s, w, h)
    requires 1 <= q < |h.ks| && n < |h.log[q]|
    ensures j < |w.sent| && w.sent[j] == Emission(Owner(q), Genuine(s, h, q, n), h.log[q][n])
  {
    assert CountOk(w.sent, h, q);
    j := NthSent(w.sent, WireOf(h.ks, q), n);
    assert SentItemOk(s, w, h, j);
    SameRung(h.ks, h.sentAt[j], q);
  }

  /** Whatever the network delivers, what decrypts is a packet the peer emitted, unchanged,
      and the plaintext is the one it was emitted with. */
  lemma Authenticity(s: Setup, run: Run, k: nat, side: Side, p: Packet) returns (j: nat)
    requires s.Sound() && IsRun(s, run) && k < |run.worlds| && Producible(s, run.worlds[k], p.tag)
    requires NaiveDecrypt(run.worlds[k].Entry(side), p, s.IdentityOf(side), run.worlds[k].next).Ok?
    ensures var w := run.worlds[k];
            && j < |w.sent|
            && w.sent[j] == Emission(side.Other(), p, NaiveDecrypt(w.Entry(side), p, s.IdentityOf(side), w.next).value.1)
  {
    var w := run.worlds[k];
    var h := RunKeepsInv(s, run, k);
    assert SideOk(s, w, h, side);
    RungParity(s, w, h, side);
    var q := AcceptedEpoch(s, w, h, side, p);
    j := GenuineWasSent(s, w, h, q, p.msg.counter);
  }

  lemma AcceptedEpoch(s: Setup, w: World, h: History, side: Side, p: Packet) returns (q: nat)
    requires s.Sound() && LadderOk(s, w, h) && SentOk(s, w, h) && SideOk(s, w, h, side) && Producible(s, w, p.tag)
    requires NaiveDecrypt(w.Entry(side), p, s.IdentityOf(side), w.next).Ok?
    ensures Owner(q) == side.Other() && IsGenuine(s, h, q, p)
    ensures NaiveDecrypt(w.Entry(side), p, s.IdentityOf(side), w.next).value.1 == h.log[q][p.msg.counter]
  {
    RungParity(s, w, h, side);
    LadderFacts(s, w, h);
    SideFacts(s, w, h, side);
    q := ReadEpoch(s, w, h, side, w.Entry(side), s.IdentityOf(side.Other()), h.Rung(side), p, s.IdentityOf(side), w.next);
  }

  /** The same of an entry that stands on rung p. */
  lemma ReadEpoch(s: Setup, w: World, h: History, side: Side, e: EntryState, id: Raw, p: nat, m: Packet, us: Raw, seed: Priv) returns (q: nat)
    requires Wide(h) && h.log[0] == [] && Distinct(h.ks, seed) && |h.ks| <= p + 2
    requires s.Sound() && LadderOk(s, w, h) && SentOk(s, w, h) && Producible(s, w, m.tag)
    requires p < |h.ks| && AtRung(e, s.R0(), id, h, p) && NaiveDecrypt(e, m, us, seed).Ok?
    ensures Owner(q) == Owner(p).Other() && IsGenuine(s, h, q, m)
    ensures NaiveDecrypt(e, m, us, seed).value.1 == h.log[q][m.msg.counter]
  {
    DecryptAuthenticates(e, m, us, seed);
    if FirstIn(e.chains, ChainKeyIds(m.msg.ephemeral)).Some? {
      q := CurrentEpoch(s, w, h, e, id, p, m, us, seed);
    } else {
      NextEpoch(s, w, h, side, e, id, p, m, us, seed);
      q := p + 1;
    }
  }

  lemma NextEpoch(s: Setup, w: World, h: History, side: Side, e: EntryState, id: Raw, p: nat, m: Packet, us: Raw, seed: Priv)
    requires Wide(h) && h.log[0] == [] && Distinct(h.ks, seed) && |h.ks| <= p + 2
    requires s.Sound() && LadderOk(s, w, h) && SentOk(s, w, h) && Producible(s, w, m.tag)
    requires p < |h.ks| && AtRung(e, s.R0(), id, h, p)
    requires FirstIn(e.chains, ChainKeyIds(m.msg.ephemeral)).None? && Authenticated(e, m, us, seed).Ok?
    ensures Owner(p + 1) == Owner(p).Other() && IsGenuine(s, h, p + 1, m)
    ensures NaiveDecrypt(e, m, us, seed).Ok? && NaiveDecrypt(e, m, us, seed).value.1 == h.log[p + 1][m.msg.counter]
  {
    var e' := NextOutcome(s, w, h, side, e, id, p, m, us, seed);
    NextTells(s, h, side, e, id, p, m, us, seed, e');
  }

  lemma CurrentEpoch(s: Setup, w: World, h: History, e: EntryState, id: Raw, p: nat, m: Packet, us: Raw, seed: Priv) returns (q: nat)
    requires Wide(h) && s.Sound() && LadderOk(s, w, h) && SentOk(s, w, h) && Producible(s, w, m.tag)
    requires p < |h.ks| && AtRung(e, s.R0(), id, h, p)
    requires FirstIn(e.chains, ChainKeyIds(m.msg.ephemeral)).Some? && Authenticated(e, m, us, seed).Ok?
    ensures Owner(q) == Owner(p).Other() && IsGenuine(s, h, q, m)
    ensures NaiveDecrypt(e, m, us, seed).Ok? && NaiveDecrypt(e, m, us, seed).value.1 == h.log[q][m.msg.counter]
  {
    var e' := CurrentOutcome(s, w, h, e, id, p, m, us, seed);
    q := p - 1;
    OwnersAlternate(q);
  }

  lemma NextTells(s: Setup, h: History, side: Side, e: EntryState, id: Raw, p: nat, m: Packet, us: Raw, seed: Priv, e': EntryState)
    requires ReadsNext(s, h, side, e, id, p, m, us, seed, e')
    ensures Owner(p + 1) == Owner(p).Other() && IsGenuine(s, h, p + 1, m)
    ensures NaiveDecrypt(e, m, us, seed).Ok? && NaiveDecrypt(e, m, us, seed).value.1 == h.log[p + 1][m.msg.counter]
  {
    OwnersAlternate(p);
  }

  /** Over a whole run no (ephemeral key, counter) pair is accepted twice, by either side,
      and every acceptance has its emission. */
  lemma AtMostOnce(s: Setup, run: Run, k: nat, i: nat, j: nat)
    requires s.Sound() && IsRun(s, run) && k < |run.worlds| && i < j < |run.worlds[k].accepted|
    ensures var w := run.worlds[k];
            w.accepted[i].ephemeral != w.accepted[j].ephemeral || w.accepted[i].counter != w.accepted[j].counter
  {
    var h := RunKeepsInv(s, run, k);
    assert AcceptedOk(s, run.worlds[k], h);
  }

  lemma AcceptedWasSent(s: Setup, run: Run, k: nat, i: nat) returns (j: nat)
    requires s.Sound() && IsRun(s, run) && k < |run.worlds| && i < |run.worlds[k].accepted|
    ensures var w := run.worlds[k];
            && j < |w.sent| && w.sent[j].sender == w.accepted[i].reader.Other()
            && w.sent[j].packet.msg.ephemeral == w.accepted[i].ephemeral
            && w.sent[j].packet.msg.counter == w.accepted[i].counter
            && w.sent[j].plain == w.accepted[i].plain
  {
    var w := run.worlds[k];
    var h := RunKeepsInv(s, run, k);
    assert AcceptedItemOk(s, w, h, i);
    j := GenuineWasSent(s, w, h, h.gotAt[i], w.accepted[i].counter);
  }

  // ---- the sender ----

  /** Over a whole run, the emissions under one ephemeral key carry the counters 0, 1, 2, ...
      in order, no message key is used twice, and previous_counter is the last counter used
      with the sender's ephemeral key before this one, 0 when that key sent nothing. */
  lemma SenderCounters(s: Setup, run: Run, k: nat) returns (ks: seq<Priv>, at: seq<nat>)
    requires s.Sound() && IsRun(s, run) && k < |run.worlds|
    ensures var sent := run.worlds[k].sent;
            && |at| == |sent|
            && (forall j :: 0 <= j < |sent| ==> 1 <= at[j] < |ks| && CountsRight(sent, ks, at[j], j))
            && (forall i, j :: 0 <= i < j < |sent| ==> KeysDiffer(sent[i], sent[j]))
  {
    var w := run.worlds[k];
    var h := RunKeepsInv(s, run, k);
    ks, at := h.ks, h.sentAt;
    forall j | 0 <= j < |w.sent|
      ensures 1 <= at[j] < |ks| && CountsRight(w.sent, ks, at[j], j)
    {
      CountsAt(s, w, h, j);
    }
    forall i, j | 0 <= i < j < |w.sent|
      ensures KeysDiffer(w.sent[i], w.sent[j])
    {
      SenderUnique(s, w, h, i, j);
    }
  }

  predicate KeysDiffer(m: Emission, m': Emission) {
    m.packet.tag.Mac? && m'.packet.tag.Mac? && m.packet.tag.key != m'.packet.tag.key
  }

  lemma CountsAt(s: Setup, w: World, h: History, j: nat)
    requires LadderOk(s, w, h) && SentOk(s, w, h) && j < |w.sent|
    ensures 1 <= h.sentAt[j] < |h.ks| && CountsRight(w.sent, h.ks, h.sentAt[j], j)
  {
    assert SentItemOk(s, w, h, j);
    var q := h.sentAt[j];
    if q >= 3 {
      assert CountOk(w.sent, h, q - 2);
    }
  }

  predicate CountsRight(sent: seq<Emission>, ks: seq<Priv>, q: nat, j: nat)
    requires 1 <= q < |ks| && j < |sent|
  {
    var msg := sent[j].packet.msg;
    && msg.ephemeral == Wire(Pub(ks[q]))
    && msg.counter == SentUnder(sent[..j], msg.ephemeral)
    && var before := if q < 3 then 0 else SentUnder(sent, Wire(Pub(ks[q - 2])));
       msg.previousCounter == if before == 0 then 0 else before - 1
  }

  lemma SentUnderMonotone(sent: seq<Emission>, ephemeral: Raw, i: nat, j: nat)
    requires i < j <= |sent| && sent[i].packet.msg.ephemeral == ephemeral
    ensures SentUnder(sent[..i], ephemeral) < SentUnder(sent[..j], ephemeral)
  {
    assert sent[..j][..j - 1] == sent[..j - 1];
    if i < j - 1 {
      SentUnderMonotone(sent, ephemeral, i, j - 1);
    }
  }

  lemma SenderUnique(s: Setup, w: World, h: History, i: nat, j: nat)
    requires s.Sound() && LadderOk(s, w, h) && SentOk(s, w, h) && i < j < |w.sent|
    ensures KeysDiffer(w.sent[i], w.sent[j])
  {
    assert SentItemOk(s, w, h, i) && SentItemOk(s, w, h, j);
    var q, q' := h.sentAt[i], h.sentAt[j];
    if w.sent[i].packet.tag.key == w.sent[j].packet.tag.key {
      SameKeySameChain(Start(s.R0(), h.ks, q), w.sent[i].packet.msg.counter, Start(s.R0(), h.ks, q'), w.sent[j].packet.msg.counter);
      StartRungs(s.R0(), h.ks, q);
      StartRungs(s.R0(), h.ks, q');
      SentUnderMonotone(w.sent, WireOf(h.ks, q), i, j);
    }
  }
}
