/**
 What the wrapper's operations leave in storage when they answer, and what they leave when they do
 not: the stored record is the loaded one with its open entry one decrypt or encrypt further, what
 has been answered once is refused ever after, and a one-time prekey builds one session.
 */
module SessionReceipt {
  import opened Outcomes
  import opened Keys
  import opened Ratchet
  import SessionEntries
  import EntryLaws
  import X3dh
  import opened Records
  import opened SessionCipher
  import opened SessionQueue

  /** Storage holds a well-formed record whose open entry is this one. */
  ghost predicate Holds(s: Stored, e: EntryState) {
    s.session.Some? && GoodRecord(s.session.value) && OpenEntry(s.session.value) == e
  }

  /** Only the state of the open entry differs. */
  ghost predicate OnlyOpenDiffers(r: Record, r': Record) {
    && r'.Keys == r.Keys
    && (forall id :: id in r ==> r'[id].index == r[id].index)
    && (forall id :: id in r && !r[id].IsOpen() ==> r'[id] == r[id])
  }

  // ---- one record ----

  /** decrypt_whisper on a well-formed record is the decrypt of its open entry. */
  lemma RecordDecrypts(r: Record, env: Env, p: Packet)
    requires env.Valid() && GoodRecord(r)
    ensures var naive := NaiveDecrypt(OpenEntry(r), p, env.us, env.seed);
            && (DecryptRecord(r, env, p).Ok? <==> naive.Ok?)
            && (naive.Ok? ==>
                  && GoodRecord(DecryptRecord(r, env, p).value.0)
                  && OpenEntry(DecryptRecord(r, env, p).value.0) == naive.value.0
                  && DecryptRecord(r, env, p).value.1 == naive.value.1
                  && OnlyOpenDiffers(r, DecryptRecord(r, env, p).value.0))
  {
    CurrentIsOpen(r, env.platform);
    SessionEntries.DecryptedIsNaive(OpenEntry(r), p, env.us, env.seed);
    if DecryptRecord(r, env, p).Ok? {
      DecryptMoves(r, env, p);
      DecryptKeepsGood(r, env, p);
    }
  }

  /** What the record came from cannot be decrypted with it again. */
  lemma RecordRefusesReplay(r: Record, env: Env, p: Packet, env': Env)
    requires env.Valid() && env'.Valid() && GoodRecord(r) && DecryptRecord(r, env, p).Ok?
    ensures DecryptRecord(DecryptRecord(r, env, p).value.0, env', p) == Err(NoMessageKey)
  {
    RecordDecrypts(r, env, p);
    CurrentIsOpen(r, env.platform);
    CurrentIsOpen(DecryptRecord(r, env, p).value.0, env'.platform);
    EntryLaws.ReplayRefused(OpenEntry(r), p, env.us, env.seed, env'.us, env'.seed);
  }

  // ---- whisper messages ----

  /** A whisper message is answered exactly when there is a session, its open entry decrypts it and
      the write succeeds; then the open entry is stored as the decrypt left it, and otherwise
      nothing is stored. */
  lemma WhisperIsStored(s: Stored, env: Env, p: Packet)
    requires env.Valid() && Good(s)
    ensures var (s', r) := ReceivedWhisper(s, env, p);
            && s'.prekeys == s.prekeys
            && (r.Err? ==> s' == s)
            && (r.Ok? <==> s.session.Some? && !env.storeFails && NaiveDecrypt(OpenEntry(s.session.value), p, env.us, env.seed).Ok?)
            && (r.Ok? ==>
                  && Holds(s', NaiveDecrypt(OpenEntry(s.session.value), p, env.us, env.seed).value.0)
                  && r.value == NaiveDecrypt(OpenEntry(s.session.value), p, env.us, env.seed).value.1
                  && OnlyOpenDiffers(s.session.value, s'.session.value))
  {
    if s.session.Some? {
      RecordDecrypts(s.session.value, env, p);
    }
  }

  /** Delivered again, whatever is drawn and whoever the receiver is by then, it is refused and
      nothing changes. */
  lemma WhisperReplayRefused(s: Stored, env: Env, p: Packet, env': Env)
    requires env.Valid() && env'.Valid() && Good(s) && ReceivedWhisper(s, env, p).1.Ok?
    ensures ReceivedWhisper(ReceivedWhisper(s, env, p).0, env', p) == (ReceivedWhisper(s, env, p).0, Err(NoMessageKey))
  {
    RecordRefusesReplay(s.session.value, env, p, env');
  }

  // ---- prekey messages ----

  /** The open entry of the record a prekey message is tried on decrypts it, and the write
      succeeds. */
  ghost predicate Reads(s: Stored, env: Env, m: PreKeyMessage)
    requires env.Valid() && Good(s)
  {
    Candidate(s, env, m).Ok? && !env.storeFails
    && (CandidateIsGood(s, env, m); NaiveDecrypt(OpenEntry(Candidate(s, env, m).value.0), m.message, env.us, env.seed).Ok?)
  }

  /** A prekey message is stored exactly when it is read, and answered exactly when it is read and
      the prekey it costs could be removed; the removal is all that is missing otherwise. */
  lemma PreKeyIsStored(s: Stored, env: Env, m: PreKeyMessage)
    requires env.Valid() && Good(s)
    ensures var (s', r) := Received(s, env, m);
            && (r.Ok? <==> Reads(s, env, m) && !(Spends(s, env, m) && env.removeFails))
            && (!Reads(s, env, m) ==> s' == s)
            && s'.prekeys == (if r.Ok? && Spends(s, env, m) then s.prekeys - {m.preKeyId.value} else s.prekeys)
    ensures Reads(s, env, m) ==> GoodRecord(Candidate(s, env, m).value.0)
    ensures Reads(s, env, m) ==>
              var naive := NaiveDecrypt(OpenEntry(Candidate(s, env, m).value.0), m.message, env.us, env.seed);
              && Holds(Received(s, env, m).0, naive.value.0)
              && OnlyOpenDiffers(Candidate(s, env, m).value.0, Received(s, env, m).0.session.value)
              && (Received(s, env, m).1.Ok? ==> Received(s, env, m).1.value == naive.value.1)
  {
    if Candidate(s, env, m).Ok? {
      CandidateIsGood(s, env, m);
      var r := Candidate(s, env, m).value.0;
      RecordDecrypts(r, env, m.message);
      var id :| OpenAt(r, id);
      BuiltExactly(s, env, m);
    }
    PrekeyGoesLast(s, env, m);
  }

  /** A session is built exactly when the base key is new. */
  lemma BuiltExactly(s: Stored, env: Env, m: PreKeyMessage)
    requires Candidate(s, env, m).Ok?
    ensures Candidate(s, env, m).value.1
            <==> !(s.session.Some? && HasBaseKey(s.session.value, Named(Bare(m.baseKey.point))))
    ensures !Candidate(s, env, m).value.1 ==> Candidate(s, env, m).value.0 == s.session.value
  {
  }

  /** An entry as archiving leaves it. */
  predicate ArchivedAs(was: Entry, entry: Entry, now: int) {
    && entry.state == was.state && entry.index.baseKey == was.index.baseKey && entry.index.used == was.index.used
    && entry.index.closed == (if was.index.closed != -1 then was.index.closed
                              else if was.index.used != 0 then was.index.used
                              else now)
  }

  /** r' is r with its sessions archived and a new one, open, under base and used now: the one that
      was open is closed at its last use, at most 40 are left and none is lost before that. */
  ghost predicate Archives(r: Record, r': Record, base: Id, now: int) {
    && base in r' && r'[base].index == Index(base, -1, now)
    && |Archived(r')| == (if |Archived(r)| < 40 then |Archived(r)| + 1 else 40)
    && (|Archived(r)| < 40 ==> forall id :: id in r ==> id in r')
    && (forall id :: id in r' && id != base ==> id in r && ArchivedAs(r[id], r'[id], now) && r'[id].index.closed != -1)
  }

  lemma MergeArchives(r: Record, built: Entry, env: Env, base: Id)
    requires env.Valid() && GoodRecord(r) && built.index == Index(base, -1, env.now) && base !in r
    ensures Archives(r, Merged(r, built, env.now, env.platform), base, env.now)
  {
    MergeKeepsForty(r, built, env.now, env.platform);
    MergeKeepsSound(r, built, env.now, env.platform);
    var r' := Merged(r, built, env.now, env.platform);
    forall id | id in r' && id != base
      ensures id in r && ArchivedAs(r[id], r'[id], env.now) && r'[id].index.closed != -1
    {
      MergeClosesAt(r, built, env.now, env.platform, id);
    }
  }

  lemma ArchivesStays(r: Record, candidate: Record, r': Record, base: Id, now: int)
    requires Archives(r, candidate, base, now) && OnlyOpenDiffers(candidate, r')
    ensures Archives(r, r', base, now)
  {
    assert Archived(r') == Archived(candidate);
  }

  /** A message that builds a session beside others archives them and loses none that there is
      room for. */
  lemma BuildArchives(s: Stored, env: Env, m: PreKeyMessage)
    requires env.Valid() && Good(s) && Reads(s, env, m) && s.session.Some?
    requires !HasBaseKey(s.session.value, Named(Bare(m.baseKey.point)))
    ensures Received(s, env, m).0.session.Some?
    ensures Archives(s.session.value, Received(s, env, m).0.session.value, Named(Bare(m.baseKey.point)), env.now)
  {
    var r, base := s.session.value, Named(Bare(m.baseKey.point));
    BuildsBeside(s, env, m);
    MergeArchives(r, Incoming(s, env, m).value, env, base);
    PreKeyIsStored(s, env, m);
    ArchivesStays(r, Candidate(s, env, m).value.0, Received(s, env, m).0.session.value, base, env.now);
  }

  lemma BuildsBeside(s: Stored, env: Env, m: PreKeyMessage)
    requires Good(s) && Candidate(s, env, m).Ok? && s.session.Some?
    requires !HasBaseKey(s.session.value, Named(Bare(m.baseKey.point)))
    ensures Incoming(s, env, m).Ok? && Incoming(s, env, m).value.index == Index(Named(Bare(m.baseKey.point)), -1, env.now)
    ensures Candidate(s, env, m).value.0 == Merged(s.session.value, Incoming(s, env, m).value, env.now, env.platform)
    ensures Named(Bare(m.baseKey.point)) !in s.session.value
  {
  }

  /** A record in which nothing is open reads no prekey message. */
  lemma ClosedRecordRefuses(s: Stored, env: Env, m: PreKeyMessage)
    requires s.session.Some? && HasBaseKey(s.session.value, Named(Bare(m.baseKey.point)))
    requires forall id :: id in s.session.value ==> s.session.value[id].index.closed != -1
    ensures Received(s, env, m) == (s, Err(NoSession))
  {
  }

  /** Delivered again, it meets the session it has left, is refused and changes nothing. */
  lemma PreKeyReplayRefused(s: Stored, env: Env, m: PreKeyMessage, env': Env)
    requires env.Valid() && env'.Valid() && Good(s) && Reads(s, env, m)
    ensures Received(Received(s, env, m).0, env', m) == (Received(s, env, m).0, Err(NoMessageKey))
  {
    var r := Candidate(s, env, m).value.0;
    PreKeyIsStored(s, env, m);
    CandidateIsGood(s, env, m);
    KnowsBaseKey(s, env, m);
    RecordDecrypts(r, env, m.message);
    RecordRefusesReplay(r, env, m.message, env');
    StoredAsDecrypted(s, env, m);
    RefusedWhereKnown(Received(s, env, m).0, env', m, NoMessageKey);
  }

  lemma StoredAsDecrypted(s: Stored, env: Env, m: PreKeyMessage)
    requires Candidate(s, env, m).Ok? && DecryptRecord(Candidate(s, env, m).value.0, env, m.message).Ok? && !env.storeFails
    requires HaveOpenSession(Candidate(s, env, m).value.0)
    ensures Received(s, env, m).0.session == Some(DecryptRecord(Candidate(s, env, m).value.0, env, m.message).value.0)
  {
  }

  lemma RefusedWhereKnown(s: Stored, env: Env, m: PreKeyMessage, x: Error)
    requires s.session.Some? && Sound(s.session.value) && HasBaseKey(s.session.value, BaseKeyId(m))
    requires DecryptRecord(s.session.value, env, m.message) == Err(x)
    ensures Received(s, env, m) == (s, Err(x))
  {
    var id :| OpenAt(s.session.value, id);
    assert HaveOpenSession(s.session.value);
  }

  lemma KnowsBaseKey(s: Stored, env: Env, m: PreKeyMessage)
    requires env.Valid() && Good(s) && Reads(s, env, m)
    ensures Received(s, env, m).0.session.Some?
    ensures HasBaseKey(Received(s, env, m).0.session.value, BaseKeyId(m))
  {
    PreKeyIsStored(s, env, m);
    CandidateIsGood(s, env, m);
    var r, r' := Candidate(s, env, m).value.0, Received(s, env, m).0.session.value;
    if Candidate(s, env, m).value.1 {
      BuiltHolds(s, env, m);
      assert BaseKeyId(m) in r' && r'[BaseKeyId(m)].index.baseKey == BaseKeyId(m);
    } else {
      var x :| x in r && r[x].index.baseKey == BaseKeyId(m);
      assert x in r' && r'[x].index.baseKey == BaseKeyId(m);
    }
  }

  /** A one-time prekey builds one session: once a message that costs it has been answered, every
      message that would build a session on it, after any operations, is refused. */
  lemma PrekeyBuildsOnce(s: Stored, env: Env, m: PreKeyMessage, ops: seq<(Env, Op)>, env': Env, m': PreKeyMessage)
    requires env.Valid() && Good(s) && Received(s, env, m).1.Ok? && Spends(s, env, m)
    requires forall i :: 0 <= i < |ops| ==> ops[i].0.Valid()
    requires m'.preKeyId == m.preKeyId
    requires var after := AfterOps(Received(s, env, m).0, ops);
             after.session.Some? ==> !HasBaseKey(after.session.value, BaseKeyId(m'))
    ensures var after := AfterOps(Received(s, env, m).0, ops);
            Received(after, env', m') == (after, Err(MissingPrekey))
  {
    PrekeyGoesLast(s, env, m);
    ReceiptKeepsGood(s, env, m);
    UsedPrekeyRefused(Received(s, env, m).0, ops, env', m');
  }

  // ---- encrypts, initiations, failing writes ----

  /** An encrypt is answered exactly when there is a session, its open entry encrypts and the write
      succeeds; then the open entry is stored as the encrypt left it. */
  lemma EncryptIsStored(s: Stored, env: Env, plain: Plaintext)
    requires env.Valid() && Good(s)
    ensures var (s', r) := Sent(s, env, plain);
            && s'.prekeys == s.prekeys
            && (r.Err? ==> s' == s)
            && (r.Ok? <==> s.session.Some? && !env.storeFails
                           && EncryptSpec(OpenEntry(s.session.value), plain, env.us, env.registrationId).Ok?)
            && (r.Ok? ==>
                  && Holds(s', EncryptSpec(OpenEntry(s.session.value), plain, env.us, env.registrationId).value.0)
                  && r.value == EncryptSpec(OpenEntry(s.session.value), plain, env.us, env.registrationId).value.1
                  && OnlyOpenDiffers(s.session.value, s'.session.value))
  {
    if s.session.Some? {
      var r := s.session.value;
      CurrentIsOpen(r, env.platform);
      var id := Current(r, env.platform).value;
      var spec := EncryptSpec(r[id].state, plain, env.us, env.registrationId);
      if spec.Ok? {
        EncryptKeepsGood(r, id, plain, env.us, env.registrationId);
        OpenEntryEdited(r, id, spec.value.0);
      }
    }
  }

  /** An initiation is answered exactly when the bundle is accepted and the write succeeds; the
      record then has one entry, fresh, open and under its base key. */
  lemma InitiationIsStored(s: Stored, env: Env, params: X3dh.X3dhParams)
    requires env.Valid()
    ensures var (s', r) := SessionCipher.Initiated(s, env, params);
            && s'.prekeys == s.prekeys
            && (r.Err? ==> s' == s)
            && (r.Ok? <==> X3dh.InitialRefusal(params).None? && !env.storeFails)
    ensures var (s', r) := SessionCipher.Initiated(s, env, params);
            var base := Named(Bare(Pub(env.seed)));
            r.Ok? ==>
              && s'.session.Some? && GoodRecord(s'.session.value) && s'.session.value.Keys == {base}
              && s'.session.value[base].index == Index(base, -1, env.now)
              && s'.session.value[base].state.registrationId == params.registrationId
              && OpenEntry(s'.session.value) == s'.session.value[base].state
  {
    if SessionCipher.Initiated(s, env, params).1.Ok? {
      var s' := SessionCipher.Initiated(s, env, params).0;
      var base := Named(Bare(Pub(env.seed)));
      OneEntryIsSound(base, s'.session.value[base]);
      assert OpenAt(s'.session.value, base);
      OpenEntryIs(s'.session.value, base);
    }
  }

  ghost predicate Answers(s: Stored, env: Env, op: Op) {
    match op
    case Initiate(params) => SessionCipher.Initiated(s, env, params).1.Ok?
    case PreKey(m) => Received(s, env, m).1.Ok?
    case WhisperIn(p) => ReceivedWhisper(s, env, p).1.Ok?
    case Encrypt(plain) => Sent(s, env, plain).1.Ok?
  }

  /** An operation whose write is rejected answers nothing and leaves storage as it was. */
  lemma RejectedWriteChangesNothing(s: Stored, env: Env, op: Op)
    requires env.storeFails
    ensures !Answers(s, env, op) && AfterOp(s, env, op) == s
  {
  }
}
