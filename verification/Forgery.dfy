/**
 Forged prekey messages: whoever computes none of the secrets of the entry a message is tried
 on cannot make it change what is stored.
 */
module Forgery {
  import opened Outcomes
  import opened Keys
  import opened Chains
  import opened Ratchet
  import opened Ladder
  import opened Compromise
  import ConversationReceipt
  import X3dh
  import opened Records
  import opened SessionCipher
  import SessionEntries

  /** Nothing an entry stores can be computed from these private keys. */
  ghost predicate Unknown(e: EntryState, privs: set<Priv>) {
    forall t :: t in Secrets(e) ==> !Derives(privs, {}, t)
  }

  lemma TakenKeyIsSecret(c: ChainState, n: int, privs: set<Priv>)
    requires c.Behind() && Taken(c, n).Ok?
    requires c.key.Live? ==> !Derives(privs, {}, c.key.key)
    requires forall i :: i in c.store ==> !Derives(privs, {}, c.store[i])
    ensures !Derives(privs, {}, Taken(c, n).value.1)
  {
    if n > c.counter {
      ConversationReceipt.TakenReach(c, n);
      DerivesBackward(privs, {}, c.key.key, n - c.counter - 1);
    }
  }

  /** A MAC that an entry accepts is under a key computed from what the entry stores. */
  lemma AcceptedKeyIsSecret(e: EntryState, p: Packet, us: Raw, seed: Priv, privs: set<Priv>)
    requires e.WellStored() && Unknown(e, privs) && Authenticated(e, p, us, seed).Ok?
    ensures p.tag.Mac? && !Derives(privs, {}, p.tag.key)
  {
    var found := FirstIn(e.chains, ChainKeyIds(p.msg.ephemeral));
    if found.Some? {
      var c := e.chains[found.value];
      assert c.key.Live? ==> c.key.key in ChainKeys(e.chains);
      assert forall i :: i in c.store ==> c.store[i] in StoredKeys(e.chains);
      TakenKeyIsSecret(c, p.msg.counter, privs);
    } else {
      ConversationReceipt.OnNewChain(e, p, us, seed);
      assert e.root in Secrets(e);
      var base := ChainOf(e.root, Agree(e.priv, p.msg.ephemeral.point.sk));
      assert !Derives(privs, {}, base);
      DerivesBackward(privs, {}, base, p.msg.counter);
    }
  }

  /** The entry a prekey message is tried on. */
  ghost function TriedOn(s: Stored, env: Env, m: PreKeyMessage): Option<EntryState> {
    match Candidate(s, env, m)
    case Err(_) => None
    case Ok((r, _)) =>
      match Current(r, env.platform)
      case None => None
      case Some(id) => if id in r then Some(r[id].state) else None
  }

  /** No MAC over this message, for us, from the peer of the entry it is tried on, under a key
      that is not computable from privs. */
  ghost predicate Forged(s: Stored, env: Env, m: PreKeyMessage, privs: set<Priv>) {
    var tag := m.message.tag;
    || tag.Noise?
    || tag.msg != m.message.msg
    || tag.receiver != env.us
    || (TriedOn(s, env, m).Some? && tag.sender != TriedOn(s, env, m).value.remoteIdentity)
    || Derives(privs, {}, tag.key)
  }

  /** A forged message changes nothing, neither the record nor the prekeys. */
  lemma ForgedChangesNothing(s: Stored, env: Env, m: PreKeyMessage, privs: set<Priv>)
    requires Ready(s) && Forged(s, env, m, privs)
    requires TriedOn(s, env, m).Some? ==> Unknown(TriedOn(s, env, m).value, privs)
    ensures Received(s, env, m).0 == s && Received(s, env, m).1.Err?
  {
    if Candidate(s, env, m).Ok? && TriedOn(s, env, m).Some? {
      var e := TriedOn(s, env, m).value;
      CandidateIsWorkable(s, env, m);
      SessionEntries.DecryptedIsNaive(e, m.message, env.us, env.seed);
      if Authenticated(e, m.message, env.us, env.seed).Ok? {
        AcceptedKeyIsSecret(e, m.message, env.us, env.seed, privs);
        VerifiedTag(s, env, m);
      }
    }
  }

  /** The entry a prekey message would build is out of reach of whoever holds neither the
      identity key it names nor our signed prekey. */
  lemma FreshEntryIsUnknown(s: Stored, env: Env, m: PreKeyMessage, privs: set<Priv>)
    requires env.Valid() && Good(s) && Candidate(s, env, m).Ok? && Candidate(s, env, m).value.1
    requires m.identityKey.point.Pub? ==> m.identityKey.point.sk !in privs
    requires env.signedPrekey.Some? ==> env.signedPrekey.value.0 !in privs
    ensures TriedOn(s, env, m).Some? && Unknown(TriedOn(s, env, m).value, privs)
  {
    var r, e := Candidate(s, env, m).value.0, Incoming(s, env, m).value;
    BuiltHolds(s, env, m);
    CandidateIsGood(s, env, m);
    CurrentIsBest(r, env.platform);
    var id :| OpenAt(r, id);
    BestIsOpen(r, id, Current(r, env.platform).value);
    assert TriedOn(s, env, m) == Some(e.state);
    FreshSecrets(e.state);
    RootSecret(privs, m.identityKey.point.sk, env.signedPrekey.value.0, e.state.root.shared, [0], 0);
  }

  lemma FreshSecrets(e: EntryState)
    requires e.chains == map[]
    ensures Secrets(e) == {e.root}
  {
  }

  /** A prekey message in the name of an honest identity, on our own signed prekey, that a stranger
      to both private keys makes up, changes nothing, whatever base key and prekey it names. */
  lemma StrangersChangeNothing(s: Stored, env: Env, m: PreKeyMessage, privs: set<Priv>)
    requires env.Valid() && Good(s) && Forged(s, env, m, privs)
    requires s.session.Some? ==> !HasBaseKey(s.session.value, BaseKeyId(m))
    requires m.identityKey.point.Pub? ==> m.identityKey.point.sk !in privs
    requires env.signedPrekey.Some? ==> env.signedPrekey.value.0 !in privs
    ensures Received(s, env, m).0 == s && Received(s, env, m).1.Err?
  {
    if Candidate(s, env, m).Ok? {
      FreshEntryIsUnknown(s, env, m, privs);
    }
    ForgedChangesNothing(s, env, m, privs);
  }
}
