/**
 First contact: what an initiator's storage and encrypts put on the wire, given to a recipient's
 storage, is read exactly when the recipient holds the keys the initiator used.
 */
module FirstContact {
  import opened Outcomes
  import opened Keys
  import opened Chains
  import opened Ratchet
  import X3dh
  import ConversationSteps
  import ConversationReceipt
  import opened Records
  import opened SessionCipher
  import opened SessionQueue
  import SessionReceipt

  /** What the initiator of a session settles on: the root, its base key, the recipient's signed
      prekey, the two identities and the numbers of the prekeys. */
  datatype Contact = Contact(root: Secret, ekA: Priv, spk: Priv, us: Raw, recipient: Raw,
                             registrationId: u32, signedKeyId: u32, prekeyId: Option<u32>)
  {
    /** The first chain key of the conversation. */
    function Base(): Secret { ChainOf(root, Agree(ekA, spk)) }

    /** The n-th packet before any reply. */
    function Nth(n: u32, plain: Plaintext): Packet {
      var key := Msg(NextN(Base(), n));
      var msg := WhisperMessage(Wire(Pub(ekA)), n, 0, Sealed(key, plain));
      Packet(msg, Mac(key, us, recipient, msg))
    }

    /** ... and the prekey message it travels in. */
    function Frame(n: u32, plain: Plaintext): PreKeyMessage {
      PreKeyMessage(prekeyId, Wire(Pub(ekA)), us, Nth(n, plain), registrationId, Some(signedKeyId))
    }

    /** The initiator's entry after n packets. */
    function Initiator(stored: u32, n: nat): EntryState {
      X3dh.InitiatorEntry(root, ekA, spk, recipient, stored, signedKeyId, prekeyId)
        .(chains := map[Named(Bare(Pub(ekA))) := ChainState(n - 1, Live(NextN(Base(), n)), SENDING, map[])])
    }
  }

  // ---- the initiator ----

  /** One more packet. */
  lemma InitiatorEncrypts(c: Contact, stored: u32, n: u32, plain: Plaintext)
    ensures EncryptSpec(c.Initiator(stored, n), plain, c.us, c.registrationId)
         == Ok((c.Initiator(stored, n + 1), PreKeyWhisper(c.Frame(n, plain))))
  {
    var e := c.Initiator(stored, n);
    var id := Named(Bare(Pub(c.ekA)));
    var now, later := e.chains[id], c.Initiator(stored, n + 1).chains[id];
    var taken := Taken(now, n);
    ConversationSteps.SendingTakes(now);
    assert taken == Ok((later, Msg(NextN(c.Base(), n))));
    assert SendingChain(e) == Ok(id);
    EncryptsWith(e, id, now, taken, plain, c.us, c.registrationId);
    assert e.(chains := e.chains[id := later]) == c.Initiator(stored, n + 1);
  }

  // ---- the recipient ----

  /** A recipient's entry reads the n-th packet exactly when it stands at the same root with the
      same signed prekey, expects this sender, is the receiver named, and draws another key. */
  lemma RecipientReads(c: Contact, n: u32, plain: Plaintext, root: Secret, spk: Priv, sender: Raw, stored: u32,
                       us: Raw, seed: Priv)
    ensures var r := NaiveDecrypt(X3dh.RecipientEntry(root, c.ekA, spk, Bare(Pub(spk)), sender, stored), c.Nth(n, plain), us, seed);
            && (r.Ok? <==> root == c.root && spk == c.spk && sender == c.us && us == c.recipient && seed != c.ekA && n < 2000)
            && (r.Ok? ==> r.value.1 == plain)
  {
    var e := X3dh.RecipientEntry(root, c.ekA, spk, Bare(Pub(spk)), sender, stored);
    RecipientSteps(e, c.ekA, spk, seed);
    var e1 := AfterStep(e, Wire(Pub(c.ekA)), c.ekA, seed);
    if seed != c.ekA {
      FreshChainReads(e, c.Nth(n, plain), us, seed, e1, Named(Wire(Pub(c.ekA))), ChainOf(root, Agree(spk, c.ekA)));
      KeysMeet(c, n, root, spk);
    }
  }

  /** The keys of the n-th packet meet exactly when root and signed prekey do. */
  lemma KeysMeet(c: Contact, n: u32, root: Secret, spk: Priv)
    ensures NextN(ChainOf(root, Agree(spk, c.ekA)), n) == NextN(c.Base(), n) <==> root == c.root && spk == c.spk
  {
    AgreeCommutes(spk, c.ekA);
    AgreeInjective(c.ekA, spk, c.spk);
    if NextN(ChainOf(root, Agree(spk, c.ekA)), n) == NextN(c.Base(), n) {
      NextNInjective(ChainOf(root, Agree(spk, c.ekA)), n, c.Base(), n);
    }
  }

  /** Reading on a chain just planned. */
  lemma FreshChainReads(e: EntryState, p: Packet, us: Raw, seed: Priv, e1: EntryState, id: Id, base: Secret)
    requires Stepped(e, p.msg.ephemeral, p.msg.previousCounter, seed) == Ok(e1)
    requires FirstIn(e1.chains, ChainKeyIds(p.msg.ephemeral)) == Some(id) && e1.chains[id] == FreshChain(base, RECEIVING)
    ensures var r, key := NaiveDecrypt(e, p, us, seed), Msg(NextN(base, p.msg.counter));
            && (r.Ok? <==> p.msg.counter < 2000 && p.tag == Mac(key, e.remoteIdentity, us, p.msg) && Open(key, p.msg.body).Some?)
            && (r.Ok? ==> Some(r.value.1) == Open(key, p.msg.body))
  {
    ConversationReceipt.FreshYields(base, p.msg.counter);
  }

  /** Its first step finds a receiving chain for the base key, unless it draws that very key. */
  lemma RecipientSteps(e: EntryState, ekA: Priv, spk: Priv, seed: Priv)
    requires e.chains == map[] && e.pubKey == Named(Bare(Pub(spk))) && e.priv == spk && e.lastRemote == Named(Bare(Pub(ekA)))
    ensures var remote := Wire(Pub(ekA));
            var e1 := AfterStep(e, remote, ekA, seed);
            && Stepped(e, remote, 0, seed) == Ok(e1)
            && FirstIn(e1.chains, ChainKeyIds(remote)) == Some(Named(remote))
            && (if seed == ekA then e1.chains[Named(remote)].IsSending()
                else e1.chains[Named(remote)] == FreshChain(ChainOf(e.root, Agree(spk, ekA)), RECEIVING))
  {
    var remote := Wire(Pub(ekA));
    var chains := WithReceiving(e, remote, FreshChain(ChainOf(e.root, Agree(spk, ekA)), RECEIVING));
    assert chains.Keys == {Named(remote)};
    assert FirstIn(chains, IdsOfText(e.pubKey)) == None;
  }

  // ---- storage to storage ----

  /** The session an accepted bundle leads to. */
  function ContactOf(params: X3dh.X3dhParams, ekA: Priv, us: Raw, registrationId: u32): Contact
    requires X3dh.InitialRefusal(params).None?
  {
    var opk := if params.prekeyPub.Some? then Some(params.prekeyPub.value.point.sk) else None;
    Contact(X3dh.MasterRoot(params.identityPriv, ekA, params.recipientPub.point.sk, params.signedPrekeyPub.point.sk, opk),
            ekA, params.signedPrekeyPub.point.sk, us, params.recipientPub, registrationId, params.signedKeyId, params.prekeyId)
  }

  /** An initiation that is answered leaves the initiator's entry of that session. */
  lemma InitiationLeads(s: Stored, env: Env, params: X3dh.X3dhParams, us: Raw, registrationId: u32)
    requires env.Valid() && SessionCipher.Initiated(s, env, params).1.Ok?
    ensures X3dh.InitialRefusal(params).None?
    ensures SessionReceipt.Holds(SessionCipher.Initiated(s, env, params).0,
                                 ContactOf(params, env.seed, us, registrationId).Initiator(params.registrationId, 0))
  {
    SessionReceipt.InitiationIsStored(s, env, params);
    var c := ContactOf(params, env.seed, us, registrationId);
    assert c.Initiator(params.registrationId, 0).chains
        == map[Named(Bare(Pub(env.seed))) := FreshChain(c.Base(), SENDING)];
  }

  /** Each encrypt that is answered before a reply sends the next frame of that session. */
  lemma FlightGoesOn(s: Stored, env: Env, plain: Plaintext, c: Contact, stored: u32, n: u32)
    requires env.Valid() && Good(s) && SessionReceipt.Holds(s, c.Initiator(stored, n))
    requires env.us == c.us && env.registrationId == c.registrationId && !env.storeFails
    ensures Sent(s, env, plain).1 == Ok(PreKeyWhisper(c.Frame(n, plain)))
    ensures SessionReceipt.Holds(Sent(s, env, plain).0, c.Initiator(stored, n + 1))
  {
    InitiatorEncrypts(c, stored, n, plain);
    SessionReceipt.EncryptIsStored(s, env, plain);
  }

  /** What the recipient needs: the private halves of the identity key, the signed prekey and the
      one-time prekey the initiator used, the latter in storage under the number it named; its
      own identity as the initiator knew it; a key of its own draw; and writes that succeed. */
  predicate Answering(params: X3dh.X3dhParams, ekA: Priv, us: Raw, n: nat, s: Stored, env: Env)
    requires X3dh.InitialRefusal(params).None?
  {
    && us == Wire(Pub(params.identityPriv))
    && Pub(env.identityPriv) == params.recipientPub.point && env.us == params.recipientPub
    && env.signedPrekey.Some? && Pub(env.signedPrekey.value.0) == params.signedPrekeyPub.point
    && env.signedPrekey.value.1.point == params.signedPrekeyPub.point
    && (params.prekeyId.None? ==> params.prekeyPub.None?)
    && (params.prekeyId.Some? ==> && params.prekeyId.value in s.prekeys && params.prekeyPub.Some?
                                  && params.prekeyPub.value.point == Pub(s.prekeys[params.prekeyId.value]))
    && env.seed != ekA && n < 2000
    && !env.storeFails && !(params.prekeyId.Some? && env.canRemove && env.removeFails)
  }

  /** The entry the recipient builds from a message whose base key is new to it. */
  lemma RecipientBuilds(m: PreKeyMessage, s: Stored, env: Env)
    requires env.Valid() && Good(s)
    requires s.session.Some? ==> !HasBaseKey(s.session.value, Named(Bare(m.baseKey.point)))
    ensures Candidate(s, env, m).Ok? <==>
              && (m.preKeyId.Some? ==> m.preKeyId.value in s.prekeys)
              && env.signedPrekey.Some? && env.signedPrekey.value.1.point == Pub(env.signedPrekey.value.0)
              && m.identityKey.Wire? && m.identityKey.point.Pub? && m.baseKey.point.Pub?
    ensures Candidate(s, env, m).Ok? ==>
              var opk := if m.preKeyId.Some? then Some(s.prekeys[m.preKeyId.value]) else None;
              var spk, ekA := env.signedPrekey.value.0, m.baseKey.point.sk;
              var root := X3dh.MasterRoot(m.identityKey.point.sk, ekA, env.identityPriv, spk, opk);
              && GoodRecord(Candidate(s, env, m).value.0)
              && OpenEntry(Candidate(s, env, m).value.0)
                 == X3dh.RecipientEntry(root, ekA, spk, Bare(Pub(spk)), m.identityKey, m.registrationId)
              && OpenEntry(Candidate(s, env, m).value.0).registrationId == m.registrationId
              && OpenEntry(Candidate(s, env, m).value.0).pending == None
  {
    if Candidate(s, env, m).Ok? {
      SessionReceipt.BuiltExactly(s, env, m);
      BuiltHolds(s, env, m);
      CandidateIsGood(s, env, m);
      var r := Candidate(s, env, m).value.0;
      var id :| OpenAt(r, id);
      assert id == BaseKeyId(m);
      OpenEntryIs(r, id);
    }
  }

  /** A message on a new base key is answered when the entry it builds reads it and the writes
      succeed. */
  lemma AnsweredWhenRead(m: PreKeyMessage, s: Stored, env: Env, e: EntryState)
    requires env.Valid() && Good(s) && Candidate(s, env, m).Ok? && GoodRecord(Candidate(s, env, m).value.0)
    requires s.session.Some? ==> !HasBaseKey(s.session.value, Named(Bare(m.baseKey.point)))
    requires OpenEntry(Candidate(s, env, m).value.0) == e
    ensures var r := Received(s, env, m).1;
            && (r.Ok? <==> && NaiveDecrypt(e, m.message, env.us, env.seed).Ok?
                           && !env.storeFails && !(m.preKeyId.Some? && env.canRemove && env.removeFails))
            && (r.Ok? ==> r.value == NaiveDecrypt(e, m.message, env.us, env.seed).value.1)
  {
    SessionReceipt.PreKeyIsStored(s, env, m);
  }

  /** First contact: of all messages the initiator sends before it hears from the recipient, each
      is answered, as the first to arrive, exactly when the recipient holds what the initiator
      used, and then with its plaintext. */
  lemma FirstContact(params: X3dh.X3dhParams, ekA: Priv, us: Raw, registrationId: u32, n: u32, plain: Plaintext,
                     s: Stored, env: Env)
    requires X3dh.InitialRefusal(params).None? && env.Valid() && Good(s)
    requires s.session.Some? ==> !HasBaseKey(s.session.value, Named(Bare(Pub(ekA))))
    ensures var r := Received(s, env, ContactOf(params, ekA, us, registrationId).Frame(n, plain)).1;
            && (r.Ok? <==> Answering(params, ekA, us, n, s, env))
            && (r.Ok? ==> r.value == plain)
  {
    var c := ContactOf(params, ekA, us, registrationId);
    var m := c.Frame(n, plain);
    RecipientBuilds(m, s, env);
    if Candidate(s, env, m).Ok? {
      var opk := if params.prekeyId.Some? then Some(s.prekeys[params.prekeyId.value]) else None;
      var spk := env.signedPrekey.value.0;
      var root := X3dh.MasterRoot(us.point.sk, ekA, env.identityPriv, spk, opk);
      var e := X3dh.RecipientEntry(root, ekA, spk, Bare(Pub(spk)), us, registrationId);
      AnsweredWhenRead(m, s, env, e);
      RecipientReads(c, n, plain, root, spk, us, registrationId, env.us, env.seed);
      ContactMeets(params, ekA, us, registrationId, env.identityPriv, spk, opk);
    }
  }

  /** The recipient's root is the one of the contact exactly when its keys are those used. */
  lemma ContactMeets(params: X3dh.X3dhParams, ekA: Priv, us: Raw, registrationId: u32, ikB: Priv, spk: Priv, opk: Option<Priv>)
    requires X3dh.InitialRefusal(params).None? && us.point.Pub?
    ensures X3dh.MasterRoot(us.point.sk, ekA, ikB, spk, opk) == ContactOf(params, ekA, us, registrationId).root
            <==> && us.point == Pub(params.identityPriv) && Pub(ikB) == params.recipientPub.point
                 && Pub(spk) == params.signedPrekeyPub.point
                 && (opk.Some? <==> params.prekeyPub.Some?)
                 && (opk.Some? ==> Pub(opk.value) == params.prekeyPub.value.point)
  {
    var opk' := if params.prekeyPub.Some? then Some(params.prekeyPub.value.point.sk) else None;
    X3dh.RootsMeetOnSamePrekeys(ekA, us.point.sk, ikB, spk, opk, params.identityPriv,
                                params.recipientPub.point.sk, params.signedPrekeyPub.point.sk, opk');
  }
}
