/**
 X3DH session set-up (x3dh.rs): the two builders, each filling a shared-secret buffer
 slot by slot, and the agreement between them ("The X3DH Key Agreement Protocol",
 sections 3.3 and 3.4).
 */
module X3dh {
  import opened Outcomes
  import opened Keys
  import opened Chains
  import opened Ratchet
  import opened Ladder

  /** An XEdDSA signature: made by a private key over exact bytes, or not a signature. */
  datatype Signature = Signature(signer: Priv, over: Raw) | Forged(bytes: nat)

  predicate VerifySignature(key: Point, over: Raw, sig: Signature) {
    key.Pub? && sig == Signature(key.sk, over)
  }

  datatype X3dhParams = X3dhParams(
    identityPriv: Priv, identityPub: Raw,
    signedPrekeyPub: Raw, signedPrekeySig: Signature,
    prekeyPub: Option<Raw>, prekeyId: Option<u32>,
    recipientPub: Raw, recipientPrekey: Raw,
    registrationId: u32, signedKeyId: u32)

  /** The X3DH secret of section 3.3: DH1 .. DH4 of the two identities, the initiator's
      base key and the recipient's prekeys, behind 32 bytes of 0xff. */
  function MasterRoot(ikA: Priv, ekA: Priv, ikB: Priv, spkB: Priv, opkB: Option<Priv>): Secret {
    match opkB
    case None => X3dhRoot([Filler, Agree(ikA, spkB), Agree(ekA, ikB), Agree(ekA, spkB)])
    case Some(o) => X3dhRoot([Filler, Agree(ikA, spkB), Agree(ekA, ikB), Agree(ekA, spkB), Agree(ekA, o)])
  }

  /** The initiator's entry: already one ratchet step past the X3DH root, towards the
      recipient's signed prekey. */
  function InitiatorEntry(r0: Secret, ekA: Priv, spkB: Priv, recipient: Raw,
                          registrationId: u32, signedKeyId: u32, prekeyId: Option<u32>): EntryState {
    var dh := Agree(ekA, spkB);
    EntryState(registrationId, ekA, Named(Bare(Pub(ekA))), Named(Bare(Pub(spkB))), 0, RootOf(r0, dh), recipient,
               map[Named(Bare(Pub(ekA))) := FreshChain(ChainOf(r0, dh), SENDING)],
               Some(PendingPreKey(Some(signedKeyId), prekeyId, Bare(Pub(ekA)))))
  }

  /** The recipient's entry: at the X3DH root, with no chains yet. */
  function RecipientEntry(r0: Secret, ekA: Priv, spkB: Priv, spkPub: Raw, sender: Raw, registrationId: u32): EntryState {
    EntryState(registrationId, spkB, Named(spkPub), Named(Bare(Pub(ekA))), 0, r0, sender, map[], None)
  }

  /** Why build_initial_session refuses its parameters, in the order it looks. */
  function InitialRefusal(p: X3dhParams): Option<Error> {
    if !p.recipientPub.Wire? then Some(BadPublicKey)
    else if !VerifySignature(p.recipientPub.point, p.signedPrekeyPub, p.signedPrekeySig) then Some(BadSignature)
    else if Pub(p.identityPriv) != p.identityPub.point then Some(IdentityMismatch)
    else if p.recipientPrekey.point != p.signedPrekeyPub.point then Some(PrekeyMismatch)
    else if p.signedPrekeyPub.point.Bad? || (p.prekeyPub.Some? && p.prekeyPub.value.point.Bad?) then Some(BadPublicKey)
    else None
  }

  /** build_initial_session_with_ephemeral. */
  method BuildInitial(p: X3dhParams, ephemeral: Priv) returns (r: Result<EntryState>)
    ensures InitialRefusal(p).Some? ==> r == Err(InitialRefusal(p).value)
    ensures InitialRefusal(p).None? ==>
              var spk := p.signedPrekeyPub.point.sk;
              var opk := if p.prekeyPub.Some? then Some(p.prekeyPub.value.point.sk) else None;
              r == Ok(InitiatorEntry(MasterRoot(p.identityPriv, ephemeral, p.recipientPub.point.sk, spk, opk),
                                     ephemeral, spk, p.recipientPub, p.registrationId, p.signedKeyId, p.prekeyId))
  {
    if !p.recipientPub.Wire? {
      return Err(BadPublicKey);
    }
    var recipient := p.recipientPub.point;
    var spk := PointOf(p.signedPrekeyPub);
    if !VerifySignature(recipient, p.signedPrekeyPub, p.signedPrekeySig) {
      return Err(BadSignature);
    }
    if Pub(p.identityPriv) != PointOf(p.identityPub) {
      return Err(IdentityMismatch);
    }
    if PointOf(p.recipientPrekey) != spk {
      return Err(PrekeyMismatch);
    }
    var ephemeralPub := Bare(Pub(ephemeral));
    var a1 := ScalarMultiply(p.identityPriv, spk);
    var a2 := ScalarMultiply(ephemeral, recipient);
    var a3 := ScalarMultiply(ephemeral, spk);
    if a1.Err? || a2.Err? || a3.Err? {
      return Err(BadPublicKey);
    }
    var shared := new Secret[if p.prekeyPub.Some? then 5 else 4](_ => Filler);
    shared[1] := a1.value;
    shared[2] := a2.value;
    shared[3] := a3.value;
    if p.prekeyPub.Some? {
      var a4 := ScalarMultiply(ephemeral, PointOf(p.prekeyPub.value));
      if a4.Err? {
        return Err(BadPublicKey);
      }
      shared[4] := a4.value;
      assert shared[..] == [Filler, a1.value, a2.value, a3.value, a4.value];
    } else {
      assert shared[..] == [Filler, a1.value, a2.value, a3.value];
    }
    var rootKey := X3dhRoot(shared[..]);
    var sharedRatchet := a3.value;
    var chainKey := ChainOf(rootKey, sharedRatchet);
    rootKey := RootOf(rootKey, sharedRatchet);
    return Ok(EntryState(p.registrationId, ephemeral, Named(ephemeralPub), Named(Bare(spk)), 0, rootKey, p.recipientPub,
                         map[Named(ephemeralPub) := FreshChain(chainKey, SENDING)],
                         Some(PendingPreKey(Some(p.signedKeyId), p.prekeyId, ephemeralPub))));
  }

  /** Why build_recipient_session refuses its arguments. */
  function RecipientRefusal(spkPriv: Priv, spkPub: Raw, sender: Raw, senderEphemeral: Raw): Option<Error> {
    if !sender.Wire? then Some(BadPublicKey)
    else if Pub(spkPriv) != spkPub.point then Some(PrekeyMismatch)
    else if senderEphemeral.Wire? || senderEphemeral.point.Bad? || sender.point.Bad? then Some(BadPublicKey)
    else None
  }

  /** build_recipient_session: the same four agreements from the other private keys, the
      first two written in swapped order. */
  method BuildRecipient(identityPriv: Priv, spkPriv: Priv, spkPub: Raw, opkPriv: Option<Priv>,
                        sender: Raw, senderEphemeral: Raw, registrationId: u32) returns (r: Result<EntryState>)
    ensures match RecipientRefusal(spkPriv, spkPub, sender, senderEphemeral)
            case Some(x) => r == Err(x)
            case None =>
              r == Ok(RecipientEntry(MasterRoot(sender.point.sk, senderEphemeral.point.sk, identityPriv, spkPriv, opkPriv),
                                     senderEphemeral.point.sk, spkPriv, spkPub, sender, registrationId))
  {
    if !sender.Wire? {
      return Err(BadPublicKey);
    }
    if Pub(spkPriv) != PointOf(spkPub) {
      return Err(PrekeyMismatch);
    }
    // scalar_multiply takes 32-byte keys only: a prefixed base key is refused
    var base := if senderEphemeral.Bare? then senderEphemeral.point else Bad(33);
    var a1 := ScalarMultiply(identityPriv, base);
    var a2 := ScalarMultiply(spkPriv, sender.point);
    var a3 := ScalarMultiply(spkPriv, base);
    if a1.Err? || a2.Err? || a3.Err? {
      return Err(BadPublicKey);
    }
    var shared := new Secret[if opkPriv.Some? then 5 else 4](_ => Filler);
    shared[1] := a2.value;
    shared[2] := a1.value;
    shared[3] := a3.value;
    if opkPriv.Some? {
      var a4 := ScalarMultiply(opkPriv.value, base);
      shared[4] := a4.value;
      assert shared[..] == [Filler, a2.value, a1.value, a3.value, a4.value];
    } else {
      assert shared[..] == [Filler, a2.value, a1.value, a3.value];
    }
    return Ok(EntryState(registrationId, spkPriv, Named(spkPub), Named(senderEphemeral), 0, X3dhRoot(shared[..]),
                         sender, map[], None));
  }

  /** With one base key, two roots are one exactly when the two identities, the signed prekey and
      the one-time prekey are. */
  lemma RootsMeetOnSamePrekeys(ekA: Priv, ikA: Priv, ikB: Priv, spk: Priv, opk: Option<Priv>,
                               ikA': Priv, ikB': Priv, spk': Priv, opk': Option<Priv>)
    ensures MasterRoot(ikA, ekA, ikB, spk, opk) == MasterRoot(ikA', ekA, ikB', spk', opk')
            <==> ikA == ikA' && ikB == ikB' && spk == spk' && opk == opk'
  {
    var one := MasterRoot(ikA, ekA, ikB, spk, opk).shared;
    var two := MasterRoot(ikA', ekA, ikB', spk', opk').shared;
    if one == two {
      assert |one| == |two| && one[1] == two[1] && one[2] == two[2] && one[3] == two[3];
      AgreeInjective(ekA, ikB, ikB');
      AgreeInjective(ekA, spk, spk');
      AgreeCommutes(ikA, spk);
      AgreeCommutes(ikA', spk);
      AgreeInjective(spk, ikA, ikA');
      if opk.Some? {
        assert one[4] == two[4];
        AgreeInjective(ekA, opk.value, opk'.value);
      }
    }
  }

  /** And with the same three keys of the recipient, exactly when identity and base key of the
      initiator are. */
  lemma RootsTellInitiators(ikA: Priv, ekA: Priv, ikA': Priv, ekA': Priv, ikB: Priv, spk: Priv, opk: Option<Priv>)
    ensures MasterRoot(ikA, ekA, ikB, spk, opk) == MasterRoot(ikA', ekA', ikB, spk, opk) <==> ikA == ikA' && ekA == ekA'
  {
    var one := MasterRoot(ikA, ekA, ikB, spk, opk).shared;
    var two := MasterRoot(ikA', ekA', ikB, spk, opk).shared;
    if one == two {
      assert one[1] == two[1] && one[2] == two[2];
      AgreeCommutes(ikA, spk);
      AgreeCommutes(ikA', spk);
      AgreeInjective(spk, ikA, ikA');
      AgreeCommutes(ekA, ikB);
      AgreeCommutes(ekA', ikB);
      AgreeInjective(ikB, ekA, ekA');
    }
  }

  /** Who can compute the root: exactly who holds a private half of each of the agreements DH1
      to DH4. */
  lemma RootKnownTo(privs: set<Priv>, ikA: Priv, ekA: Priv, ikB: Priv, spk: Priv, opk: Option<Priv>)
    ensures Derives(privs, {}, MasterRoot(ikA, ekA, ikB, spk, opk))
            <==> && (ikA in privs || spk in privs)
                 && (ekA in privs || ikB in privs)
                 && (ekA in privs || spk in privs)
                 && (opk.Some? ==> ekA in privs || opk.value in privs)
  {
    var shared := MasterRoot(ikA, ekA, ikB, spk, opk).shared;
    assert shared[1] == Agree(ikA, spk) && shared[2] == Agree(ekA, ikB) && shared[3] == Agree(ekA, spk);
    assert opk.Some? ==> |shared| == 5 && shared[4] == Agree(ekA, opk.value);
    AgreeKnownTo(privs, ikA, spk);
    AgreeKnownTo(privs, ekA, ikB);
    AgreeKnownTo(privs, ekA, spk);
    if opk.Some? {
      AgreeKnownTo(privs, ekA, opk.value);
    }
  }

  lemma AgreeKnownTo(privs: set<Priv>, a: Priv, b: Priv)
    ensures Derives(privs, {}, Agree(a, b)) <==> a in privs || b in privs
  {
  }

  /** So who lacks the base key and any one of the recipient's three keys cannot, even with
      the initiator's identity key. */
  lemma RootNeedsRecipient(privs: set<Priv>, ikA: Priv, ekA: Priv, ikB: Priv, spk: Priv, opk: Option<Priv>)
    requires ekA !in privs
    requires ikB !in privs || spk !in privs || (opk.Some? && opk.value !in privs)
    ensures !Derives(privs, {}, MasterRoot(ikA, ekA, ikB, spk, opk))
  {
    RootKnownTo(privs, ikA, ekA, ikB, spk, opk);
  }

  // ---- what the initiator accepts ----

  /** Nothing signed can be swapped in an accepted bundle: another signed prekey, another
      encoding of it or another signer is refused as a bad signature; another own identity and
      another prekey than the signed one are refused too. */
  lemma SubstitutionRefused(p: X3dhParams, spk: Raw, recipient: Raw, identity: Priv)
    requires InitialRefusal(p).None?
    ensures spk != p.signedPrekeyPub ==>
              InitialRefusal(p.(signedPrekeyPub := spk, recipientPrekey := spk)) == Some(BadSignature)
    ensures recipient.Wire? && recipient != p.recipientPub ==>
              InitialRefusal(p.(recipientPub := recipient)) == Some(BadSignature)
    ensures identity != p.identityPriv ==> InitialRefusal(p.(identityPriv := identity)) == Some(IdentityMismatch)
    ensures spk.point != p.signedPrekeyPub.point ==>
              InitialRefusal(p.(recipientPrekey := spk)) == Some(PrekeyMismatch)
  {
  }
}
