/**
 The wrapper's operations on a stored record (session-cipher.js, session-builder.js): one
 prekey message, one whisper message, one encrypt, and runs of them over one address.
 */
module SessionCipher {
  import opened Outcomes
  import opened Keys
  import opened Ratchet
  import SessionEntries
  import X3dh
  import opened Records

  /** What the application's storage holds for one address. */
  datatype Stored = Stored(session: Option<Record>, prekeys: map<u32, Priv>)

  /** What else one operation meets: our keys, the signed prekey storage answers with, the
      clock, a fresh private key, the order in which maps are walked, and whether the two
      storage writes reject. */
  datatype Env = Env(identityPriv: Priv, us: Raw, registrationId: u32, signedPrekey: Option<(Priv, Raw)>,
                     now: int, seed: Priv, platform: Platform, storeFails: bool, canRemove: bool, removeFails: bool)
  {
    ghost predicate Valid() { now >= 0 && platform.Faithful() }
  }

  /** strip05, then base64. */
  function BaseKeyId(m: PreKeyMessage): Id {
    Named(Bare(m.baseKey.point))
  }

  /** initIncoming: a candidate entry, built from the message and our prekeys. */
  function Incoming(s: Stored, env: Env, m: PreKeyMessage): Result<Entry> {
    if m.preKeyId.Some? && m.preKeyId.value !in s.prekeys then Err(MissingPrekey)
    else if env.signedPrekey.None? then Err(MissingSignedPrekey)
    else
      var (spkPriv, spkPub) := env.signedPrekey.value;
      var opk := if m.preKeyId.Some? then Some(s.prekeys[m.preKeyId.value]) else None;
      var base := Bare(m.baseKey.point);
      match X3dh.RecipientRefusal(spkPriv, Bare(spkPub.point), m.identityKey, base)
      case Some(x) => Err(x)
      case None =>
        var root := X3dh.MasterRoot(m.identityKey.point.sk, m.baseKey.point.sk, env.identityPriv, spkPriv, opk);
        Ok(Entry(Index(BaseKeyId(m), -1, env.now),
                 X3dh.RecipientEntry(root, m.baseKey.point.sk, spkPriv, Bare(spkPub.point), m.identityKey, m.registrationId)))
  }

  /** sessionHasBaseKey. */
  predicate HasBaseKey(r: Record, id: Id) {
    exists x :: x in r && r[x].index.baseKey == id
  }

  /** The record the message is tried on: the stored one when it knows the base key, otherwise
      the stored one with a fresh entry merged in, or that entry alone. */
  function Candidate(s: Stored, env: Env, m: PreKeyMessage): Result<(Record, bool)> {
    if s.session.Some? && HasBaseKey(s.session.value, BaseKeyId(m)) then Ok((s.session.value, false))
    else
      match Incoming(s, env, m)
      case Err(x) => Err(x)
      case Ok(e) =>
        if s.session.Some? then Ok((Merged(s.session.value, e, env.now, env.platform), true))
        else Ok((map[BaseKeyId(m) := e], true))
  }

  /** decrypt_whisper on the current entry of a record. */
  function DecryptRecord(r: Record, env: Env, p: Packet): Result<(Record, Plaintext)> {
    match Current(r, env.platform)
    case None => Err(NoSession)
    case Some(id) =>
      if id !in r then Err(NoSession)
      else
        match SessionEntries.Decrypted(r[id].state, p, env.us, env.seed)
        case Err(x) => Err(x)
        case Ok((e, plain)) => Ok((r[id := r[id].(state := e)], plain))
  }

  /** decrypt_pkmsg asks for an open entry first. */
  predicate HaveOpenSession(r: Record) {
    exists id :: id in r && r[id].IsOpen()
  }

  function DecryptPkmsg(r: Record, env: Env, p: Packet): Result<(Record, Plaintext)> {
    if !HaveOpenSession(r) then Err(NoSession) else DecryptRecord(r, env, p)
  }

  /** decryptPreKeyWhisperMessage: what is stored afterwards, and what the caller learns. */
  function Received(s: Stored, env: Env, m: PreKeyMessage): (Stored, Result<Plaintext>) {
    match Candidate(s, env, m)
    case Err(x) => (s, Err(x))
    case Ok((candidate, built)) =>
      match DecryptPkmsg(candidate, env, m.message)
      case Err(x) => (s, Err(x))
      case Ok((record, plain)) =>
        if env.storeFails then (s, Err(StorageFailed))
        else
          var s' := s.(session := Some(record));
          if built && m.preKeyId.Some? && env.canRemove then
            if env.removeFails then (s', Err(StorageFailed))
            else (s'.(prekeys := s.prekeys - {m.preKeyId.value}), Ok(plain))
          else (s', Ok(plain))
  }

  /** decryptWhisperMessage. */
  function ReceivedWhisper(s: Stored, env: Env, p: Packet): (Stored, Result<Plaintext>) {
    if s.session.None? then (s, Err(NoSession))
    else
      match DecryptRecord(s.session.value, env, p)
      case Err(x) => (s, Err(x))
      case Ok((record, plain)) =>
        if env.storeFails then (s, Err(StorageFailed)) else (s.(session := Some(record)), Ok(plain))
  }

  /** encrypt. */
  ghost function Sent(s: Stored, env: Env, plain: Plaintext): (Stored, Result<Outgoing>) {
    if s.session.None? then (s, Err(NoSession))
    else
      match Current(s.session.value, env.platform)
      case None => (s, Err(NoSession))
      case Some(id) =>
        if id !in s.session.value then (s, Err(NoSession))
        else
          match EncryptSpec(s.session.value[id].state, plain, env.us, env.registrationId)
          case Err(x) => (s, Err(x))
          case Ok((e, out)) =>
            if env.storeFails then (s, Err(StorageFailed))
            else (s.(session := Some(s.session.value[id := s.session.value[id].(state := e)])), Ok(out))
  }

  /** initOutgoing: the record is replaced by one with a fresh initiator entry. */
  function Initiated(s: Stored, env: Env, p: X3dh.X3dhParams): (Stored, Result<()>) {
    if X3dh.InitialRefusal(p).Some? then (s, Err(X3dh.InitialRefusal(p).value))
    else if env.storeFails then (s, Err(StorageFailed))
    else
      var spk := p.signedPrekeyPub.point.sk;
      var opk := if p.prekeyPub.Some? then Some(p.prekeyPub.value.point.sk) else None;
      var root := X3dh.MasterRoot(p.identityPriv, env.seed, p.recipientPub.point.sk, spk, opk);
      var id := Named(Bare(Pub(env.seed)));
      var e := X3dh.InitiatorEntry(root, env.seed, spk, p.recipientPub, p.registrationId, p.signedKeyId, p.prekeyId);
      (s.(session := Some(map[id := Entry(Index(id, -1, env.now), e)])), Ok(()))
  }

  // ---- the methods ----

  class Storage {
    var session: Option<Record>
    var prekeys: map<u32, Priv>

    function View(): Stored
      reads this
    {
      Stored(session, prekeys)
    }

    constructor (s: Stored)
      ensures View() == s
    {
      session, prekeys := s.session, s.prekeys;
    }

    method StoreSession(r: Record, env: Env) returns (ok: bool)
      modifies this`session
      ensures ok == !env.storeFails
      ensures session == if ok then Some(r) else old(session)
    {
      if env.storeFails {
        return false;
      }
      session := Some(r);
      return true;
    }

    method RemovePreKey(id: u32, env: Env) returns (ok: bool)
      modifies this`prekeys
      ensures ok == !env.removeFails
      ensures prekeys == if ok then old(prekeys) - {id} else old(prekeys)
    {
      if env.removeFails {
        return false;
      }
      prekeys := prekeys - {id};
      return true;
    }

    /** SessionBuilder.initOutgoing. */
    method InitOutgoing(env: Env, p: X3dh.X3dhParams) returns (r: Result<()>)
      modifies this`session
      ensures (View(), r) == Initiated(old(View()), env, p)
    {
      ghost var before := View();
      var built := X3dh.BuildInitial(p, env.seed);
      assert View() == before;
      match built {
        case Err(x) => return Err(x);
        case Ok(e) =>
          var id := Named(Bare(Pub(env.seed)));
          var ok := StoreSession(map[id := Entry(Index(id, -1, env.now), e)], env);
          return if ok then Ok(()) else Err(StorageFailed);
      }
    }

    /** SessionBuilder.initIncoming: builds, stores nothing. */
    method InitIncoming(env: Env, m: PreKeyMessage) returns (r: Result<Entry>)
      ensures r == Incoming(View(), env, m)
    {
      var opk := None;
      match m.preKeyId {
        case None =>
        case Some(id) =>
          if id !in prekeys {
            return Err(MissingPrekey);
          }
          opk := Some(prekeys[id]);
      }
      match env.signedPrekey {
        case None => return Err(MissingSignedPrekey);
        case Some((spkPriv, spkPub)) =>
          ghost var before := View();
          var state := X3dh.BuildRecipient(env.identityPriv, spkPriv, Bare(spkPub.point), opk,
                                           m.identityKey, Bare(m.baseKey.point), m.registrationId);
          assert View() == before;
          match state {
            case Err(x) => return Err(x);
            case Ok(e) => return Ok(Entry(Index(BaseKeyId(m), -1, env.now), e));
          }
      }
    }
  }

  ghost predicate Workable(r: Record) {
    forall id :: id in r ==> r[id].state.WellStored()
  }

  /** decrypt_whisper: the selected entry is decrypted with and the whole record returned. */
  method RatchetDecrypt(r: Record, env: Env, p: Packet) returns (out: Result<(Record, Plaintext)>)
    requires env.Valid() && Workable(r)
    ensures out == DecryptRecord(r, env, p)
  {
    var best := CurrentSession(r, env.platform);
    match best {
      case None => return Err(NoSession);
      case Some(id) =>
        var e := SessionEntries.DecryptStored(r[id].state, p, env.us, env.seed);
        match e {
          case Err(x) => return Err(x);
          case Ok((state, plain)) => return Ok((r[id := r[id].(state := state)], plain));
        }
    }
  }

  method BuildCandidate(storage: Storage, env: Env, m: PreKeyMessage) returns (r: Result<(Record, bool)>)
    requires env.Valid()
    ensures r == Candidate(storage.View(), env, m)
  {
    ghost var before := storage.View();
    match storage.session {
      case Some(record) =>
        if HasBaseKey(record, BaseKeyId(m)) {
          return Ok((record, false));
        }
      case None =>
    }
    var built := storage.InitIncoming(env, m);
    match built {
      case Err(x) => return Err(x);
      case Ok(e) =>
        match storage.session {
          case Some(record) =>
            var merged := ArchiveAndMerge(record, e, env.now, env.platform);
            return Ok((merged, true));
          case None => return Ok((map[BaseKeyId(m) := e], true));
        }
    }
  }

  ghost predicate Ready(s: Stored) {
    s.session.Some? ==> Workable(s.session.value)
  }

  /** Merging drops entries, closes entries and adds one, but edits no entry's state. */
  lemma MergedParts(r: Record, e: Entry, now: int, p: Platform)
    ensures forall id :: id in Merged(r, e, now, p) ==>
              if id == e.index.baseKey then Merged(r, e, now, p)[id] == e
              else id in r && Merged(r, e, now, p)[id] == Shut(r[id], now)
  {
    var all := ShutAll(r, now)[e.index.baseKey := e];
    if Lists(p.order(all), all) {
      EvictionDropsOldest(all, p.order(all));
    }
  }

  /** The record a message is tried on can be decrypted with whenever the stored one can. */
  lemma CandidateIsWorkable(s: Stored, env: Env, m: PreKeyMessage)
    requires Ready(s) && Candidate(s, env, m).Ok?
    ensures Workable(Candidate(s, env, m).value.0)
  {
    if Candidate(s, env, m).value.1 && s.session.Some? {
      MergedParts(s.session.value, Incoming(s, env, m).value, env.now, env.platform);
    }
  }

  /** decryptPreKeyWhisperMessage. */
  method DecryptPreKeyWhisperMessage(storage: Storage, env: Env, m: PreKeyMessage) returns (r: Result<Plaintext>)
    requires env.Valid() && Ready(storage.View())
    modifies storage
    ensures (storage.View(), r) == Received(old(storage.View()), env, m)
  {
    ghost var before := storage.View();
    var candidate := BuildCandidate(storage, env, m);
    assert storage.View() == before;
    match candidate {
      case Err(x) => return Err(x);
      case Ok((record, built)) =>
        CandidateIsWorkable(before, env, m);
        if !HaveOpenSession(record) {
          return Err(NoSession);
        }
        var result := RatchetDecrypt(record, env, m.message);
        assert storage.View() == before;
        match result {
          case Err(x) => return Err(x);
          case Ok((after, plain)) =>
            var stored := storage.StoreSession(after, env);
            if !stored {
              return Err(StorageFailed);
            }
            if built && m.preKeyId.Some? && env.canRemove {
              var removed := storage.RemovePreKey(m.preKeyId.value, env);
              if !removed {
                return Err(StorageFailed);
              }
            }
            return Ok(plain);
        }
    }
  }

  /** decryptWhisperMessage. */
  method DecryptWhisperMessage(storage: Storage, env: Env, p: Packet) returns (r: Result<Plaintext>)
    requires env.Valid() && Ready(storage.View())
    modifies storage
    ensures (storage.View(), r) == ReceivedWhisper(old(storage.View()), env, p)
  {
    match storage.session {
      case None => return Err(NoSession);
      case Some(record) =>
        ghost var before := storage.View();
        var result := RatchetDecrypt(record, env, p);
        assert storage.View() == before;
        match result {
          case Err(x) => return Err(x);
          case Ok((after, plain)) =>
            var stored := storage.StoreSession(after, env);
            return if stored then Ok(plain) else Err(StorageFailed);
        }
    }
  }

  /** encrypt. */
  method EncryptMessage(storage: Storage, env: Env, plain: Plaintext) returns (r: Result<Outgoing>)
    requires env.Valid()
    modifies storage
    ensures (storage.View(), r) == Sent(old(storage.View()), env, plain)
  {
    match storage.session {
      case None => return Err(NoSession);
      case Some(record) =>
        ghost var before := storage.View();
        var best := CurrentSession(record, env.platform);
        match best {
          case None => return Err(NoSession);
          case Some(id) =>
            var result := SessionEntries.EncryptStored(record[id].state, plain, env.us, env.registrationId);
            assert storage.View() == before;
            match result {
              case Err(x) => return Err(x);
              case Ok((e, out)) =>
                var stored := storage.StoreSession(record[id := record[id].(state := e)], env);
                return if stored then Ok(out) else Err(StorageFailed);
            }
        }
    }
  }

  // ---- what one prekey message can do ----

  /** The stored record changes only to the output of a decrypt whose MAC verified, under keys
      of the entry that was current, over exactly this message, from that entry's peer to us. */
  lemma ChangesOnlyAuthenticated(s: Stored, env: Env, m: PreKeyMessage)
    requires Received(s, env, m).0 != s
    ensures Candidate(s, env, m).Ok?
    ensures var candidate := Candidate(s, env, m).value.0;
            var current := Current(candidate, env.platform);
            && current.Some? && current.value in candidate
            && var e := candidate[current.value];
            && Authenticated(e.state, m.message, env.us, env.seed).Ok?
            && m.message.tag == Mac(Authenticated(e.state, m.message, env.us, env.seed).value.1,
                                    e.state.remoteIdentity, env.us, m.message.msg)
            && NaiveDecrypt(e.state, m.message, env.us, env.seed).Ok?
            && Received(s, env, m).0.session
               == Some(candidate[current.value := e.(state := NaiveDecrypt(e.state, m.message, env.us, env.seed).value.0)])
  {
    var candidate := Candidate(s, env, m).value.0;
    SessionEntries.DecryptedIsNaive(candidate[Current(candidate, env.platform).value].state, m.message, env.us, env.seed);
    VerifiedTag(s, env, m);
  }

  lemma VerifiedTag(s: Stored, env: Env, m: PreKeyMessage)
    ensures forall e: EntryState :: Authenticated(e, m.message, env.us, env.seed).Ok? ==>
              m.message.tag == Mac(Authenticated(e, m.message, env.us, env.seed).value.1, e.remoteIdentity, env.us, m.message.msg)
  {
  }

  lemma BuiltIsKept(r: Record, e: Entry, now: int, p: Platform)
    requires e.IsOpen()
    ensures e.index.baseKey in Merged(r, e, now, p) && Merged(r, e, now, p)[e.index.baseKey] == e
  {
    var all := ShutAll(r, now)[e.index.baseKey := e];
    if Lists(p.order(all), all) {
      EvictionDropsOldest(all, p.order(all));
    }
  }

  /** A built candidate holds the entry for the message's base key, and it is open. */
  lemma BuiltHolds(s: Stored, env: Env, m: PreKeyMessage)
    requires Candidate(s, env, m).Ok? && Candidate(s, env, m).value.1
    ensures Incoming(s, env, m).Ok? && !(s.session.Some? && HasBaseKey(s.session.value, BaseKeyId(m)))
    ensures var r := Candidate(s, env, m).value.0;
            BaseKeyId(m) in r && r[BaseKeyId(m)] == Incoming(s, env, m).value
  {
    if s.session.Some? {
      BuiltIsKept(s.session.value, Incoming(s, env, m).value, env.now, env.platform);
    }
  }

  lemma DecryptKeepsIndex(r: Record, env: Env, p: Packet)
    requires DecryptRecord(r, env, p).Ok?
    ensures var after := DecryptRecord(r, env, p).value.0;
            after.Keys == r.Keys && forall id :: id in r ==> after[id].index == r[id].index
  {
  }

  /** A message that is answered costs its one-time prekey when it names one, storage can remove it
      and the base key is new to the stored record. */
  predicate Spends(s: Stored, env: Env, m: PreKeyMessage) {
    && m.preKeyId.Some? && env.canRemove
    && !(s.session.Some? && exists id :: id in s.session.value && s.session.value[id].index.baseKey == Named(Bare(m.baseKey.point)))
  }

  /** The prekey of a message goes exactly when the message is answered and costs it, no other
      goes, and by then the session it built has been stored. */
  lemma PrekeyGoesLast(s: Stored, env: Env, m: PreKeyMessage)
    ensures var (s', r) := Received(s, env, m);
            && (r.Ok? && Spends(s, env, m) ==>
                  && m.preKeyId.value in s.prekeys && s'.prekeys == s.prekeys - {m.preKeyId.value}
                  && s'.session.Some? && HasBaseKey(s'.session.value, Named(Bare(m.baseKey.point))))
            && (!(r.Ok? && Spends(s, env, m)) ==> s'.prekeys == s.prekeys)
  {
    var (s', r) := Received(s, env, m);
    if r.Ok? && Spends(s, env, m) {
      BuiltHolds(s, env, m);
      DecryptKeepsIndex(Candidate(s, env, m).value.0, env, m.message);
      assert Named(Bare(m.baseKey.point)) in s'.session.value;
    }
  }

  // ---- runs over one address ----

  datatype Op =
    | Initiate(params: X3dh.X3dhParams)
    | PreKey(m: PreKeyMessage)
    | WhisperIn(p: Packet)
    | Encrypt(plain: Plaintext)

  ghost function AfterOp(s: Stored, env: Env, op: Op): Stored {
    match op
    case Initiate(params) => Initiated(s, env, params).0
    case PreKey(m) => Received(s, env, m).0
    case WhisperIn(p) => ReceivedWhisper(s, env, p).0
    case Encrypt(plain) => Sent(s, env, plain).0
  }

  ghost function AfterOps(s: Stored, ops: seq<(Env, Op)>): Stored {
    if ops == [] then s
    else AfterOp(AfterOps(s, ops[..|ops| - 1]), ops[|ops| - 1].0, ops[|ops| - 1].1)
  }

  /** The record has the shape the wrapper gives it, and every entry can be decrypted with. */
  ghost predicate Good(s: Stored) {
    s.session.Some? ==> GoodRecord(s.session.value)
  }

  ghost predicate GoodRecord(r: Record) {
    Sound(r) && Workable(r)
  }

  /** A record whose entries keep their index keeps its shape. */
  lemma IndexKeepsSound(r: Record, after: Record)
    requires Sound(r) && after.Keys == r.Keys && forall id :: id in r ==> after[id].index == r[id].index
    ensures Sound(after)
  {
    var id :| OpenAt(r, id);
    assert OpenAt(after, id);
    assert forall x :: x in after <==> x in r;
    assert Archived(after) == Archived(r);
  }

  lemma CandidateIsGood(s: Stored, env: Env, m: PreKeyMessage)
    requires env.Valid() && Good(s) && Candidate(s, env, m).Ok?
    ensures GoodRecord(Candidate(s, env, m).value.0)
  {
    CandidateIsWorkable(s, env, m);
    if Candidate(s, env, m).value.1 {
      var e := Incoming(s, env, m).value;
      if s.session.Some? {
        MergeKeepsSound(s.session.value, e, env.now, env.platform);
      } else {
        OneEntryIsSound(BaseKeyId(m), e);
      }
    }
  }

  lemma OneEntryIsSound(id: Id, e: Entry)
    requires e.IsOpen() && e.index.baseKey == id && e.index.used >= 0
    ensures Sound(map[id := e])
  {
    var r := map[id := e];
    assert OpenAt(r, id);
    assert Archived(r) == {};
  }

  lemma DecryptKeepsGood(r: Record, env: Env, p: Packet)
    requires GoodRecord(r) && DecryptRecord(r, env, p).Ok?
    ensures GoodRecord(DecryptRecord(r, env, p).value.0)
  {
    var state := r[Current(r, env.platform).value].state;
    DecryptKeepsIndex(r, env, p);
    IndexKeepsSound(r, DecryptRecord(r, env, p).value.0);
    SessionEntries.DecryptedIsNaive(state, p, env.us, env.seed);
    SessionEntries.DecryptKeepsWellStored(state, p, env.us, env.seed);
  }

  lemma EncryptKeepsGood(r: Record, id: Id, plain: Plaintext, us: Raw, registrationId: u32)
    requires GoodRecord(r) && id in r && EncryptSpec(r[id].state, plain, us, registrationId).Ok?
    ensures GoodRecord(r[id := r[id].(state := EncryptSpec(r[id].state, plain, us, registrationId).value.0)])
  {
    var after := r[id := r[id].(state := EncryptSpec(r[id].state, plain, us, registrationId).value.0)];
    IndexKeepsSound(r, after);
    SessionEntries.EncryptKeepsWellStored(r[id].state, plain, us, registrationId);
  }

  lemma InitiateKeepsGood(s: Stored, env: Env, params: X3dh.X3dhParams)
    requires env.Valid() && Good(s)
    ensures Good(Initiated(s, env, params).0)
  {
    if Initiated(s, env, params).0 != s {
      var id := Named(Bare(Pub(env.seed)));
      OneEntryIsSound(id, Initiated(s, env, params).0.session.value[id]);
    }
  }

  lemma ReceiptKeepsGood(s: Stored, env: Env, m: PreKeyMessage)
    requires env.Valid() && Good(s)
    ensures Good(Received(s, env, m).0)
  {
    if Received(s, env, m).0 != s {
      CandidateIsGood(s, env, m);
      DecryptKeepsGood(Candidate(s, env, m).value.0, env, m.message);
    }
  }

  lemma SendKeepsGood(s: Stored, env: Env, plain: Plaintext)
    requires Good(s)
    ensures Good(Sent(s, env, plain).0)
  {
    if Sent(s, env, plain).0 != s {
      EncryptKeepsGood(s.session.value, Current(s.session.value, env.platform).value, plain, env.us, env.registrationId);
    }
  }

  lemma OpKeepsGood(s: Stored, env: Env, op: Op)
    requires env.Valid() && Good(s)
    ensures Good(AfterOp(s, env, op))
    ensures forall id :: id in AfterOp(s, env, op).prekeys ==> id in s.prekeys
    ensures s.session.Some? ==> AfterOp(s, env, op).session.Some?
  {
    match op
    case Initiate(params) => InitiateKeepsGood(s, env, params);
    case PreKey(m) => ReceiptKeepsGood(s, env, m);
    case WhisperIn(p) =>
      if ReceivedWhisper(s, env, p).0 != s {
        DecryptKeepsGood(s.session.value, env, p);
      }
    case Encrypt(plain) => SendKeepsGood(s, env, plain);
  }

  /** Over any sequence of initiations, of prekey messages, genuine or forged, of whisper
      messages and of encrypts, from an absent or good record: the stored record stays good, so
      exactly one entry is open, at most 40 are archived and every operation may be called again;
      the open entry is the one the next operation uses; and no prekey ever comes back. */
  lemma {:induction false} RunKeepsGood(s: Stored, ops: seq<(Env, Op)>)
    requires Good(s) && forall i :: 0 <= i < |ops| ==> ops[i].0.Valid()
    ensures Good(AfterOps(s, ops))
    ensures forall id :: id in AfterOps(s, ops).prekeys ==> id in s.prekeys
  {
    if ops != [] {
      RunKeepsGood(s, ops[..|ops| - 1]);
      OpKeepsGood(AfterOps(s, ops[..|ops| - 1]), ops[|ops| - 1].0, ops[|ops| - 1].1);
    }
  }

  lemma CurrentIsTheOpenOne(s: Stored, ops: seq<(Env, Op)>, p: Platform)
    requires Good(s) && (forall i :: 0 <= i < |ops| ==> ops[i].0.Valid()) && p.Faithful()
    requires AfterOps(s, ops).session.Some?
    ensures var r := AfterOps(s, ops).session.value;
            Current(r, p).Some? && OpenAt(r, Current(r, p).value)
  {
    RunKeepsGood(s, ops);
    var r := AfterOps(s, ops).session.value;
    var id :| OpenAt(r, id);
    CurrentIsBest(r, p);
    BestIsOpen(r, id, Current(r, p).value);
  }

  /** A message that would build a session on a prekey already used, or never issued, is refused
      and changes nothing. */
  lemma UsedPrekeyRefused(s: Stored, ops: seq<(Env, Op)>, env: Env, m: PreKeyMessage)
    requires Good(s) && (forall i :: 0 <= i < |ops| ==> ops[i].0.Valid())
    requires m.preKeyId.Some? && m.preKeyId.value !in s.prekeys
    requires AfterOps(s, ops).session.Some? ==> !HasBaseKey(AfterOps(s, ops).session.value, BaseKeyId(m))
    ensures Received(AfterOps(s, ops), env, m) == (AfterOps(s, ops), Err(MissingPrekey))
  {
    RunKeepsGood(s, ops);
  }
}
