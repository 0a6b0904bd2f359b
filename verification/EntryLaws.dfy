/**
 What one encrypt or decrypt of a session entry promises its caller, told without the functions
 that compute it: which prekeys are named and for how long, that nothing is read twice, that the
 two encodings of a stored key are one.
 */
module EntryLaws {
  import opened Outcomes
  import opened Keys
  import opened Chains
  import opened Ratchet
  import SessionQueue
  import SessionEntries

  // ---- prekeys on outgoing messages ----

  /** The message carries these prekeys, in the fields the peer looks them up by. */
  predicate Names(out: Outgoing, pk: PendingPreKey, us: Raw, registrationId: u32) {
    && out.PreKeyWhisper?
    && out.pkmsg.preKeyId == pk.preKeyId
    && out.pkmsg.signedPreKeyId == pk.signedKeyId
    && out.pkmsg.baseKey.point == pk.baseKey.point
    && (pk.baseKey.point.Pub? ==> out.pkmsg.baseKey.Wire?)
    && out.pkmsg.identityKey == us
    && out.pkmsg.registrationId == registrationId
  }

  /** One text after another. */
  ghost function EncryptAll(e: EntryState, plains: seq<Plaintext>, us: Raw, registrationId: u32): Result<(EntryState, seq<Outgoing>)> {
    if plains == [] then Ok((e, []))
    else
      match EncryptAll(e, plains[..|plains| - 1], us, registrationId)
      case Err(x) => Err(x)
      case Ok((before, outs)) =>
        match EncryptSpec(before, plains[|plains| - 1], us, registrationId)
        case Err(x) => Err(x)
        case Ok((after, out)) => Ok((after, outs + [out]))
  }

  /** An encrypt moves one chain on and touches nothing else of the entry. */
  lemma EncryptTouchesOneChain(e: EntryState, plain: Plaintext, us: Raw, registrationId: u32)
    requires EncryptSpec(e, plain, us, registrationId).Ok?
    ensures var (e', out) := EncryptSpec(e, plain, us, registrationId).value;
            && e' == e.(chains := e'.chains) && e'.chains.Keys == e.chains.Keys
            && SendingChain(e).Ok?
            && (forall id :: id in e.chains && id != SendingChain(e).value ==> e'.chains[id] == e.chains[id])
    ensures var out := EncryptSpec(e, plain, us, registrationId).value.1;
            && (e.pending.None? ==> out.Whisper?)
            && (e.pending.Some? ==> Names(out, e.pending.value, us, registrationId))
  {
  }

  /** However many messages are encrypted, all of them are prekey messages that name the same
      prekeys while these are pending, and none is otherwise; their counters are consecutive. */
  lemma {:induction false} FirstFlight(e: EntryState, plains: seq<Plaintext>, us: Raw, registrationId: u32)
    requires EncryptAll(e, plains, us, registrationId).Ok?
    ensures var (e', outs) := EncryptAll(e, plains, us, registrationId).value;
            && |outs| == |plains|
            && e' == e.(chains := e'.chains) && SendingChain(e') == SendingChain(e)
            && SessionQueue.Standing(e') == SessionQueue.Standing(e) + |outs|
    ensures var outs := EncryptAll(e, plains, us, registrationId).value.1;
            forall i :: 0 <= i < |outs| ==>
              && outs[i].Inner().msg.counter == SessionQueue.Standing(e) + 1 + i
              && outs[i].Inner().msg.ephemeral == WireKey(e.pubKey)
              && (e.pending.None? ==> outs[i].Whisper?)
              && (e.pending.Some? ==> Names(outs[i], e.pending.value, us, registrationId))
  {
    if plains != [] {
      FirstFlight(e, plains[..|plains| - 1], us, registrationId);
      var before := EncryptAll(e, plains[..|plains| - 1], us, registrationId).value.0;
      EncryptTouchesOneChain(before, plains[|plains| - 1], us, registrationId);
      SessionQueue.EncryptCounts(before, plains[|plains| - 1], us, registrationId);
    }
  }

  /** Once something has been decrypted no message names prekeys; and a decrypt leaves who the
      two parties are. */
  lemma ReplyEndsPrekeys(e: EntryState, p: Packet, us: Raw, seed: Priv, plains: seq<Plaintext>, registrationId: u32)
    requires NaiveDecrypt(e, p, us, seed).Ok?
    ensures var e' := NaiveDecrypt(e, p, us, seed).value.0;
            && e'.remoteIdentity == e.remoteIdentity && e'.registrationId == e.registrationId
            && (EncryptAll(e', plains, us, registrationId).Ok? ==>
                  forall i :: 0 <= i < |EncryptAll(e', plains, us, registrationId).value.1| ==>
                    EncryptAll(e', plains, us, registrationId).value.1[i].Whisper?)
  {
    var e' := NaiveDecrypt(e, p, us, seed).value.0;
    if EncryptAll(e', plains, us, registrationId).Ok? {
      FirstFlight(e', plains, us, registrationId);
    }
  }

  // ---- nothing is read twice ----

  /** What has been decrypted cannot be decrypted again, whoever asks and whatever is drawn. */
  lemma ReplayRefused(e: EntryState, p: Packet, us: Raw, seed: Priv, us': Raw, seed': Priv)
    requires e.WellStored() && NaiveDecrypt(e, p, us, seed).Ok?
    ensures NaiveDecrypt(NaiveDecrypt(e, p, us, seed).value.0, p, us', seed') == Err(NoMessageKey)
    ensures SessionEntries.Decrypted(NaiveDecrypt(e, p, us, seed).value.0, p, us', seed') == Err(NoMessageKey)
  {
    var e' := NaiveDecrypt(e, p, us, seed).value.0;
    var id, c := ReadOn(e, p, us, seed);
    ReadsWith(e', id, c, Err(NoMessageKey), p, us', seed');
    SessionEntries.DecryptedIsNaive(e', p, us', seed');
  }

  /** The chain that was read on, as it is left. */
  lemma ReadOn(e: EntryState, p: Packet, us: Raw, seed: Priv) returns (id: Id, c: ChainState)
    requires NaiveDecrypt(e, p, us, seed).Ok?
    ensures var e' := NaiveDecrypt(e, p, us, seed).value.0;
            FirstIn(e'.chains, ChainKeyIds(p.msg.ephemeral)) == Some(id) && e'.chains[id] == c
    ensures c.IsReceiving() && Taken(c, p.msg.counter) == Err(NoMessageKey)
  {
    var e1 := Stepped(e, p.msg.ephemeral, p.msg.previousCounter, seed).value;
    id := FirstIn(e1.chains, ChainKeyIds(p.msg.ephemeral)).value;
    c := Taken(e1.chains[id], p.msg.counter).value.0;
    TakenIsGone(e1.chains[id], p.msg.counter);
    assert NaiveDecrypt(e, p, us, seed).value.0.chains == e1.chains[id := c];
    SameKeysSameFirst(e1.chains, e1.chains[id := c], ChainKeyIds(p.msg.ephemeral));
  }

  lemma SameKeysSameFirst<V>(m: map<Id, V>, m': map<Id, V>, ids: seq<Id>)
    requires m.Keys == m'.Keys
    ensures FirstIn(m, ids) == FirstIn(m', ids)
  {
  }

  lemma TakenIsGone(c: ChainState, n: int)
    requires Taken(c, n).Ok?
    ensures Taken(c, n).value.0.kind == c.kind
    ensures Taken(Taken(c, n).value.0, n) == Err(NoMessageKey)
  {
    if n > c.counter {
      FillCloses(c, n);
    }
  }

  /** A packet whose MAC does not verify is refused in a way that tells nothing of what it carries:
      with any other body and any other tag that does not verify the error is the same. */
  lemma RefusalTellsNothing(e: EntryState, p: Packet, body: Ciphertext, tag: Tag, us: Raw, seed: Priv)
    requires Authenticated(e, p, us, seed).Err?
    requires Authenticated(e, Packet(p.msg.(body := body), tag), us, seed).Err?
    ensures NaiveDecrypt(e, p, us, seed) == NaiveDecrypt(e, Packet(p.msg.(body := body), tag), us, seed)
    ensures NaiveDecrypt(e, p, us, seed).Err? && NaiveDecrypt(e, p, us, seed).error != BadPadding
  {
    var remote, n := p.msg.ephemeral, p.msg.counter;
    if Stepped(e, remote, p.msg.previousCounter, seed).Ok? {
      var e1 := Stepped(e, remote, p.msg.previousCounter, seed).value;
      var found := FirstIn(e1.chains, ChainKeyIds(remote));
      if found.Some? && Taken(e1.chains[found.value], n).Err? {
        TakeErrs(e1.chains[found.value], n);
      }
    }
    if Stepped(e, remote, p.msg.previousCounter, seed).Err? {
      StepErrs(e, remote, p.msg.previousCounter, seed);
    }
  }

  lemma {:induction false} FillErrs(c: ChainState, n: int)
    requires Filled(c, n).Err?
    ensures Filled(c, n).error == ChainClosed || Filled(c, n).error == TooFarAhead
  {
    if Fillable(c, n) {
      FillCloses(c, n);
    }
  }

  lemma TakeErrs(c: ChainState, n: int)
    requires Taken(c, n).Err?
    ensures Taken(c, n).error != BadPadding
  {
    if Filled(c, n).Err? {
      FillErrs(c, n);
    }
  }

  lemma StepErrs(e: EntryState, remote: Raw, previousCounter: u32, seed: Priv)
    requires Stepped(e, remote, previousCounter, seed).Err?
    ensures Stepped(e, remote, previousCounter, seed).error != BadPadding
  {
    var found := FirstIn(e.chains, RetiredIds(e));
    if found.Some? && Filled(e.chains[found.value], previousCounter).Err? {
      FillErrs(e.chains[found.value], previousCounter);
    }
  }

  // ---- when an encrypt is refused ----

  /** Which chain sends: the one the public key names if it is a sending one, whatever else there
      is; else the only one; with none, or several, an error. */
  lemma WhichChainSends(e: EntryState)
    ensures forall id :: FirstIn(e.chains, IdsOfText(e.pubKey)) == Some(id) && e.chains[id].kind == 1 ==>
              SendingChain(e) == Ok(id)
    ensures SendingChain(e).Ok? ==> e.chains[SendingChain(e).value].kind == 1
    ensures SendingChain(e) == Err(NoSendingChain) <==> forall id :: id in e.chains ==> e.chains[id].kind != 1
    ensures SendingChain(e).Err? && SendingChain(e) != Err(NoSendingChain) ==>
              && SendingChain(e).error == AmbiguousSendingChain
              && exists i, j :: i in e.chains && j in e.chains && i != j && e.chains[i].kind == e.chains[j].kind == 1
  {
    var ids := SendingIds(e.chains);
    if forall id :: id in e.chains ==> e.chains[id].kind != 1 {
      assert ids == {};
    } else {
      var id :| id in e.chains && e.chains[id].kind == 1;
      assert id in ids;
      if SendingChain(e) == Err(AmbiguousSendingChain) {
        assert |ids - {id}| == |ids| - 1;
        var other :| other in ids - {id};
      }
    }
  }

  // ---- the two encodings of a key ----

  /** The entry with the chain of a point stored under the other encoding of its key. */
  function Renamed(e: EntryState, x: Point): EntryState
    requires Named(Bare(x)) in e.chains
  {
    e.(chains := (e.chains - {Named(Bare(x))})[Named(Wire(x)) := e.chains[Named(Bare(x))]])
  }

  /** A chain stored under the bare encoding is read from as the same chain under the prefixed
      one is: the same plaintext or error, and the two entries stay the same but for the name. */
  lemma LegacyChainReads(e: EntryState, x: Point, p: Packet, us: Raw, seed: Priv)
    requires p.msg.ephemeral == Wire(x)
    requires Named(Bare(x)) in e.chains && Named(Wire(x)) !in e.chains
    ensures var one, two := NaiveDecrypt(e, p, us, seed), NaiveDecrypt(Renamed(e, x), p, us, seed);
            && (one.Err? ==> one == two)
            && (one.Ok? ==> && two.Ok? && two.value.1 == one.value.1
                            && Named(Bare(x)) in one.value.0.chains
                            && two.value.0 == Renamed(one.value.0, x))
  {
    var moved := Renamed(e, x);
    assert FirstIn(e.chains, ChainKeyIds(Wire(x))) == Some(Named(Bare(x)));
    assert FirstIn(moved.chains, ChainKeyIds(Wire(x))) == Some(Named(Wire(x)));
    var c := e.chains[Named(Bare(x))];
    if Taken(c, p.msg.counter).Ok? {
      RenamedEdited(e, x, Taken(c, p.msg.counter).value.0);
    }
  }

  /** A sending chain stored under the bare encoding sends as it would under the prefixed one. */
  lemma LegacyChainSends(e: EntryState, x: Point, plain: Plaintext, us: Raw, registrationId: u32)
    requires e.pubKey == Named(Wire(x)) && Named(Wire(x)) !in e.chains
    requires Named(Bare(x)) in e.chains && e.chains[Named(Bare(x))].IsSending()
    ensures var one, two := EncryptSpec(e, plain, us, registrationId), EncryptSpec(Renamed(e, x), plain, us, registrationId);
            && (one.Err? ==> one == two)
            && (one.Ok? ==> && two.Ok? && two.value.1 == one.value.1
                            && Named(Bare(x)) in one.value.0.chains
                            && two.value.0 == Renamed(one.value.0, x))
  {
    assert SendingChain(e) == Ok(Named(Bare(x)));
    assert SendingChain(Renamed(e, x)) == Ok(Named(Wire(x)));
    SendsRenamed(e, x, plain, us, registrationId);
  }

  lemma SendsRenamed(e: EntryState, x: Point, plain: Plaintext, us: Raw, registrationId: u32)
    requires Named(Wire(x)) !in e.chains && Named(Bare(x)) in e.chains
    ensures var one := EncryptOn(e, Named(Bare(x)), plain, us, registrationId);
            var two := EncryptOn(Renamed(e, x), Named(Wire(x)), plain, us, registrationId);
            && (one.Err? ==> one == two)
            && (one.Ok? ==> && two.Ok? && two.value.1 == one.value.1
                            && Named(Bare(x)) in one.value.0.chains
                            && two.value.0 == Renamed(one.value.0, x))
  {
    var c := e.chains[Named(Bare(x))];
    var taken := Taken(c, c.counter + 1);
    EncryptsWith(e, Named(Bare(x)), c, taken, plain, us, registrationId);
    EncryptsWith(Renamed(e, x), Named(Wire(x)), c, taken, plain, us, registrationId);
    if taken.Ok? {
      assert Numbered(Renamed(e, x), c.counter + 1, taken.value.1, plain, us, registrationId)
          == Numbered(e, c.counter + 1, taken.value.1, plain, us, registrationId);
      RenamedEdited(e, x, taken.value.0);
    }
  }

  lemma RenamedEdited(e: EntryState, x: Point, c: ChainState)
    requires Named(Bare(x)) in e.chains
    ensures Renamed(e.(chains := e.chains[Named(Bare(x)) := c]), x)
         == Renamed(e, x).(chains := Renamed(e, x).chains[Named(Wire(x)) := c])
  {
    var one := Renamed(e.(chains := e.chains[Named(Bare(x)) := c]), x);
    assert one.chains == Renamed(e, x).chains[Named(Wire(x)) := c];
  }

  // ---- the two receiving kinds ----

  /** A chain of the receiving kind of older records (0) reads as one of the present kind (2). */
  lemma LegacyKindReads(e: EntryState, id: Id, p: Packet, us: Raw, seed: Priv)
    requires FirstIn(e.chains, ChainKeyIds(p.msg.ephemeral)) == Some(id) && e.chains[id].kind == 0
    ensures var now := e.(chains := e.chains[id := e.chains[id].(kind := 2)]);
            var one, two := NaiveDecrypt(e, p, us, seed), NaiveDecrypt(now, p, us, seed);
            && (one.Err? ==> one == two)
            && (one.Ok? ==> two.Ok? && two.value.1 == one.value.1
                            && id in one.value.0.chains
                            && two.value.0 == one.value.0.(chains := one.value.0.chains[id := one.value.0.chains[id].(kind := 2)]))
  {
    var c, n := e.chains[id], p.msg.counter;
    var now := e.(chains := e.chains[id := c.(kind := 2)]);
    assert FirstIn(now.chains, ChainKeyIds(p.msg.ephemeral)) == Some(id);
    TakenOfKind(c, n, 2);
    ReadsWith(e, id, c, Taken(c, n), p, us, seed);
    ReadsWith(now, id, c.(kind := 2), Taken(c.(kind := 2), n), p, us, seed);
    if Taken(c, n).Ok? {
      Reassigned(e.chains, id, c.(kind := 2), Taken(c, n).value.0, Taken(c.(kind := 2), n).value.0);
    }
  }

  lemma Reassigned<K, V>(m: map<K, V>, k: K, x: V, y: V, z: V)
    ensures m[k := x][k := z] == m[k := y][k := z]
  {
  }

  lemma TakenOfKind(c: ChainState, n: int, kind: nat)
    ensures Taken(c.(kind := kind), n).Ok? <==> Taken(c, n).Ok?
    ensures Taken(c, n).Err? ==> Taken(c.(kind := kind), n) == Taken(c, n)
    ensures Taken(c, n).Ok? ==> Taken(c.(kind := kind), n) == Ok((Taken(c, n).value.0.(kind := kind), Taken(c, n).value.1))
  {
    if Fillable(c, n) {
      FillCloses(c, n);
      FillCloses(c.(kind := kind), n);
    }
  }
}
