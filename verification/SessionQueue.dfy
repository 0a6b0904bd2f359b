/**
 The wrapper's operations as jobs of one queue: whatever is queued on an address, in whatever
 interleaving, no ratchet counter is used twice under one ephemeral key.
 */
module SessionQueue {
  import opened Outcomes
  import opened Keys
  import opened Chains
  import opened Ratchet
  import SessionEntries
  import X3dh
  import opened Records
  import opened SessionCipher
  import Queue

  /** What a job's promise settles with when it succeeds. */
  datatype Answer = Initiated | Opened(plain: Plaintext) | Packed(out: Outgoing)

  /** An operation, what it meets, and the prekeys storage holds for it. */
  datatype Task = Task(op: Op, env: Env, prekeys: map<u32, Priv>)

  type Job = Queue.Job<Record, Result<Answer>>

  ghost function AnswerOf(s: Stored, t: Task): Result<Answer> {
    match t.op
    case Initiate(params) =>
      (match SessionCipher.Initiated(s, t.env, params).1
       case Err(x) => Err(x)
       case Ok(_) => Ok(Initiated))
    case PreKey(m) =>
      (match Received(s, t.env, m).1
       case Err(x) => Err(x)
       case Ok(plain) => Ok(Opened(plain)))
    case WhisperIn(p) =>
      (match ReceivedWhisper(s, t.env, p).1
       case Err(x) => Err(x)
       case Ok(plain) => Ok(Opened(plain)))
    case Encrypt(plain) =>
      (match Sent(s, t.env, plain).1
       case Err(x) => Err(x)
       case Ok(out) => Ok(Packed(out)))
  }

  /** The body of a job: what it does with the record it loaded. */
  ghost function Body(t: Task): Option<Record> -> Queue.Outcome<Record, Result<Answer>> {
    (loaded: Option<Record>) =>
      var s := Stored(loaded, t.prekeys);
      var after := AfterOp(s, t.env, t.op).session;
      Queue.Outcome(if after == loaded then None else after, AnswerOf(s, t))
  }

  // ---- one entry ----

  /** The counter the sending chain stands at; -2 when there is none. */
  ghost function Standing(e: EntryState): int {
    if SendingChain(e).Ok? then e.chains[SendingChain(e).value].counter else -2
  }

  /** A chain replaced by one of its kind leaves the choice of the sending chain. */
  lemma SameKindsSameChoice(e: EntryState, id: Id, c: ChainState)
    requires id in e.chains && c.kind == e.chains[id].kind
    ensures SendingChain(e.(chains := e.chains[id := c])) == SendingChain(e)
  {
    var e' := e.(chains := e.chains[id := c]);
    assert e'.chains.Keys == e.chains.Keys;
    assert SendingIds(e'.chains) == SendingIds(e.chains);
  }

  /** A successful encrypt uses the next counter and leaves its chain the sending one. */
  lemma EncryptCounts(e: EntryState, plain: Plaintext, us: Raw, registrationId: u32)
    requires EncryptSpec(e, plain, us, registrationId).Ok?
    ensures var (e', out) := EncryptSpec(e, plain, us, registrationId).value;
            && SendingChain(e).Ok? && SendingChain(e') == SendingChain(e)
            && Standing(e') == Standing(e) + 1 == out.Inner().msg.counter
            && out.Inner().msg.ephemeral == WireKey(e.pubKey) && e'.pubKey == e.pubKey
  {
    var id := SendingChain(e).value;
    var c := e.chains[id];
    FillCloses(c, c.counter + 1);
    SameKindsSameChoice(e, id, Taken(c, c.counter + 1).value.0);
  }

  lemma TakenKeepsKind(c: ChainState, n: int)
    requires Taken(c, n).Ok?
    ensures Taken(c, n).value.0.kind == c.kind
  {
    if n > c.counter {
      FillCloses(c, n);
    }
  }

  /** Replacing a receiving chain by a receiving chain leaves the sending one what it was. */
  lemma ReceivingDoesNotSend(e: EntryState, id: Id, c: ChainState)
    requires id in e.chains && e.chains[id].IsReceiving() && c.kind == e.chains[id].kind
    ensures var e' := e.(chains := e.chains[id := c]);
            SendingChain(e') == SendingChain(e) && Standing(e') == Standing(e)
  {
    SameKindsSameChoice(e, id, c);
    if SendingChain(e).Ok? {
      SendingChainSends(e);
    }
  }

  lemma PendingDoesNotSend(e: EntryState)
    ensures SendingChain(e.(pending := None)) == SendingChain(e) && Standing(e.(pending := None)) == Standing(e)
  {
  }

  lemma SendingChainSends(e: EntryState)
    requires SendingChain(e).Ok?
    ensures e.chains[SendingChain(e).value].IsSending()
  {
    var named := FirstIn(e.chains, IdsOfText(e.pubKey));
    if !(named.Some? && e.chains[named.value].IsSending()) {
      assert SendingChain(e).value in SendingIds(e.chains);
    }
  }

  /** A decrypt that makes no ratchet step leaves the sending chain alone; one that does ends
      with a sending chain of the key just drawn, from which nothing has been sent. */
  lemma DecryptStands(e: EntryState, p: Packet, us: Raw, seed: Priv)
    requires NaiveDecrypt(e, p, us, seed).Ok?
    ensures var e' := NaiveDecrypt(e, p, us, seed).value.0;
            if FirstIn(e.chains, ChainKeyIds(p.msg.ephemeral)).Some?
            then e'.pubKey == e.pubKey && SendingChain(e') == SendingChain(e) && Standing(e') == Standing(e)
            else e'.pubKey == Named(Wire(Pub(seed))) && SendingChain(e') == Ok(e'.pubKey) && Standing(e') == -1
  {
    var remote := p.msg.ephemeral;
    var e1 := Stepped(e, remote, p.msg.previousCounter, seed).value;
    var id := FirstIn(e1.chains, ChainKeyIds(remote)).value;
    var c := e1.chains[id];
    TakenKeepsKind(c, p.msg.counter);
    ReceivingDoesNotSend(e1, id, Taken(c, p.msg.counter).value.0);
    PendingDoesNotSend(e1.(chains := e1.chains[id := Taken(c, p.msg.counter).value.0]));
    if FirstIn(e.chains, ChainKeyIds(remote)).None? {
      SteppedSends(e, remote, remote.point.sk, seed);
    }
  }

  lemma SteppedSends(e: EntryState, remote: Raw, theirs: Priv, seed: Priv)
    ensures var e1 := AfterStep(e, remote, theirs, seed);
            SendingChain(e1) == Ok(Named(Wire(Pub(seed)))) && Standing(e1) == -1
  {
  }

  /** So counters do not rise over a ratchet step: the first message after one carries 0. */
  lemma StepRestartsCounter(e: EntryState, p: Packet, us: Raw, seed: Priv, plain: Plaintext, registrationId: u32)
    requires FirstIn(e.chains, ChainKeyIds(p.msg.ephemeral)).None? && NaiveDecrypt(e, p, us, seed).Ok?
    requires EncryptSpec(NaiveDecrypt(e, p, us, seed).value.0, plain, us, registrationId).Ok?
    ensures var msg := EncryptSpec(NaiveDecrypt(e, p, us, seed).value.0, plain, us, registrationId).value.1.Inner().msg;
            msg.counter == 0 && msg.ephemeral == Wire(Pub(seed))
  {
    DecryptStands(e, p, us, seed);
    EncryptCounts(NaiveDecrypt(e, p, us, seed).value.0, plain, us, registrationId);
  }

  // ---- the open entry of a record ----

  ghost function OpenEntry(r: Record): EntryState
    requires Sound(r)
  {
    var id :| OpenAt(r, id);
    r[id].state
  }

  lemma OpenEntryIs(r: Record, id: Id)
    requires Sound(r) && OpenAt(r, id)
    ensures OpenEntry(r) == r[id].state
  {
  }

  lemma CurrentIsOpen(r: Record, p: Platform)
    requires Sound(r) && p.Faithful()
    ensures Current(r, p).Some? && OpenAt(r, Current(r, p).value) && OpenEntry(r) == r[Current(r, p).value].state
  {
    CurrentIsBest(r, p);
    var id :| OpenAt(r, id);
    BestIsOpen(r, id, Current(r, p).value);
  }

  /** From one record to the next the current ephemeral key stays and its counter does not fall,
      or the key is the one just drawn. */
  ghost predicate Moves(before: Option<Record>, after: Option<Record>, seed: Priv)
    requires (before.Some? ==> Sound(before.value)) && (after.Some? ==> Sound(after.value))
  {
    match after
    case None => before.None?
    case Some(r') =>
      || WireKey(OpenEntry(r').pubKey) == Wire(Pub(seed))
      || (before.Some? && Stays(OpenEntry(before.value), OpenEntry(r')))
  }

  ghost predicate Stays(e: EntryState, e': EntryState) {
    e'.pubKey == e.pubKey && Standing(e') >= Standing(e)
  }

  /** Editing the state of the open entry. */
  lemma OpenEntryEdited(r: Record, id: Id, state: EntryState)
    requires Sound(r) && OpenAt(r, id)
    ensures Sound(r[id := r[id].(state := state)]) && OpenEntry(r[id := r[id].(state := state)]) == state
  {
    var after := r[id := r[id].(state := state)];
    IndexKeepsSound(r, after);
    assert OpenAt(after, id);
    OpenEntryIs(after, id);
  }

  lemma DecryptMoves(r: Record, env: Env, p: Packet)
    requires env.Valid() && Sound(r) && DecryptRecord(r, env, p).Ok?
    ensures var after := DecryptRecord(r, env, p).value.0;
            && Sound(after)
            && NaiveDecrypt(OpenEntry(r), p, env.us, env.seed).Ok?
            && OpenEntry(after) == NaiveDecrypt(OpenEntry(r), p, env.us, env.seed).value.0
            && Moves(Some(r), Some(after), env.seed)
  {
    var id := Current(r, env.platform).value;
    CurrentIsOpen(r, env.platform);
    SessionEntries.DecryptedIsNaive(r[id].state, p, env.us, env.seed);
    OpenEntryEdited(r, id, NaiveDecrypt(r[id].state, p, env.us, env.seed).value.0);
    DecryptStands(r[id].state, p, env.us, env.seed);
  }

  lemma EncryptMoves(r: Record, prekeys: map<u32, Priv>, env: Env, plain: Plaintext)
    requires env.Valid() && Sound(r)
    ensures var (s', result) := Sent(Stored(Some(r), prekeys), env, plain);
            && s'.session.Some? && Sound(s'.session.value)
            && Moves(Some(r), s'.session, env.seed)
            && (result.Ok? ==>
                  && OpenEntry(s'.session.value).pubKey == OpenEntry(r).pubKey
                  && result.value.Inner().msg.ephemeral == WireKey(OpenEntry(r).pubKey)
                  && result.value.Inner().msg.counter == Standing(OpenEntry(r)) + 1 == Standing(OpenEntry(s'.session.value)))
  {
    CurrentIsOpen(r, env.platform);
    var id := Current(r, env.platform).value;
    var spec := EncryptSpec(r[id].state, plain, env.us, env.registrationId);
    if spec.Ok? {
      EncryptCounts(r[id].state, plain, env.us, env.registrationId);
      OpenEntryEdited(r, id, spec.value.0);
    }
  }

  /** A prekey message that builds a session makes a ratchet step at once. */
  lemma BuiltMoves(s: Stored, env: Env, m: PreKeyMessage)
    requires env.Valid() && Good(s) && Candidate(s, env, m).Ok? && Candidate(s, env, m).value.1
    requires DecryptRecord(Candidate(s, env, m).value.0, env, m.message).Ok?
    ensures var after := DecryptRecord(Candidate(s, env, m).value.0, env, m.message).value.0;
            Sound(after) && OpenEntry(after).pubKey == Named(Wire(Pub(env.seed)))
  {
    var r, e := Candidate(s, env, m).value.0, Incoming(s, env, m).value;
    BuiltHolds(s, env, m);
    CandidateIsGood(s, env, m);
    var id :| OpenAt(r, id);
    assert id == BaseKeyId(m);
    OpenEntryIs(r, id);
    DecryptMoves(r, env, m.message);
    DecryptStands(e.state, m.message, env.us, env.seed);
  }

  lemma ReceiptMoves(s: Stored, env: Env, m: PreKeyMessage)
    requires env.Valid() && Good(s)
    ensures Good(Received(s, env, m).0) && Moves(s.session, Received(s, env, m).0.session, env.seed)
  {
    ReceiptKeepsGood(s, env, m);
    if Received(s, env, m).0 != s {
      var r := Candidate(s, env, m).value.0;
      CandidateIsGood(s, env, m);
      if Candidate(s, env, m).value.1 {
        BuiltMoves(s, env, m);
      } else {
        DecryptMoves(r, env, m.message);
      }
    }
  }

  lemma InitiateMoves(s: Stored, env: Env, params: X3dh.X3dhParams)
    requires env.Valid() && Good(s)
    ensures var after := SessionCipher.Initiated(s, env, params).0;
            Good(after) && Moves(s.session, after.session, env.seed)
  {
    InitiateKeepsGood(s, env, params);
    var after := SessionCipher.Initiated(s, env, params).0;
    if after != s {
      var r := after.session.value;
      var id := Named(Bare(Pub(env.seed)));
      assert OpenAt(r, id);
      OpenEntryIs(r, id);
    }
  }

  /** Every operation moves the current key so. */
  lemma OpMoves(s: Stored, env: Env, op: Op)
    requires env.Valid() && Good(s)
    ensures Good(AfterOp(s, env, op)) && Moves(s.session, AfterOp(s, env, op).session, env.seed)
  {
    OpKeepsGood(s, env, op);
    match op
    case Initiate(params) => InitiateMoves(s, env, params);
    case PreKey(m) => ReceiptMoves(s, env, m);
    case WhisperIn(p) =>
      if ReceivedWhisper(s, env, p).0 != s {
        DecryptMoves(s.session.value, env, p);
      }
    case Encrypt(plain) =>
      if s.session.Some? {
        EncryptMoves(s.session.value, s.prekeys, env, plain);
      }
  }

  // ---- the jobs of one address ----

  /** Job i, if it is one of this address, performs task i. */
  ghost predicate Does(jobs: seq<Job>, tasks: seq<Task>, key: Queue.Key, i: nat)
    requires i < |jobs| == |tasks|
  {
    jobs[i].key == key ==> jobs[i].body == Body(tasks[i]) && tasks[i].env.Valid()
  }

  ghost predicate AllDo(jobs: seq<Job>, tasks: seq<Task>, key: Queue.Key) {
    |jobs| == |tasks| && forall i :: 0 <= i < |jobs| ==> Does(jobs, tasks, key, i)
  }

  /** The private keys the jobs of this address draw are distinct, and none is the one the record
      started with. */
  ghost predicate FreshDraws(first: Option<Record>, jobs: seq<Job>, tasks: seq<Task>, key: Queue.Key)
    requires |jobs| == |tasks| && (first.Some? ==> Sound(first.value))
  {
    && (forall x, y :: 0 <= x < y < |jobs| && jobs[x].key == key && jobs[y].key == key ==> tasks[x].env.seed != tasks[y].env.seed)
    && (first.Some? ==> forall x :: 0 <= x < |jobs| && jobs[x].key == key ==>
          WireKey(OpenEntry(first.value).pubKey) != Wire(Pub(tasks[x].env.seed)))
  }

  ghost predicate GoodSession(r: Option<Record>) {
    r.Some? ==> GoodRecord(r.value)
  }

  ghost function ResultOf(first: Option<Record>, jobs: seq<Job>, key: Queue.Key, i: nat): Result<Answer>
    requires i < |jobs|
  {
    jobs[i].body(Queue.Sequentially(first, jobs, key, i)).settles
  }

  /** A job of this address takes the record where its task does, and settles with its answer. */
  lemma JobPerforms(first: Option<Record>, jobs: seq<Job>, tasks: seq<Task>, key: Queue.Key, n: nat)
    requires n < |jobs| == |tasks| && Does(jobs, tasks, key, n) && jobs[n].key == key
    requires GoodSession(Queue.Sequentially(first, jobs, key, n))
    ensures var s := Stored(Queue.Sequentially(first, jobs, key, n), tasks[n].prekeys);
            && Queue.Sequentially(first, jobs, key, n + 1) == AfterOp(s, tasks[n].env, tasks[n].op).session
            && ResultOf(first, jobs, key, n) == AnswerOf(s, tasks[n])
  {
    OpKeepsGood(Stored(Queue.Sequentially(first, jobs, key, n), tasks[n].prekeys), tasks[n].env, tasks[n].op);
  }

  lemma JobMoves(first: Option<Record>, jobs: seq<Job>, tasks: seq<Task>, key: Queue.Key, n: nat)
    requires AllDo(jobs, tasks, key) && n < |jobs| && jobs[n].key == key
    requires GoodSession(Queue.Sequentially(first, jobs, key, n))
    ensures var before, after := Queue.Sequentially(first, jobs, key, n), Queue.Sequentially(first, jobs, key, n + 1);
            GoodSession(after) && Moves(before, after, tasks[n].env.seed)
  {
    assert Does(jobs, tasks, key, n);
    JobPerforms(first, jobs, tasks, key, n);
    OpMoves(Stored(Queue.Sequentially(first, jobs, key, n), tasks[n].prekeys), tasks[n].env, tasks[n].op);
  }

  lemma {:induction false} StaysGood(first: Option<Record>, jobs: seq<Job>, tasks: seq<Task>, key: Queue.Key, n: nat)
    requires AllDo(jobs, tasks, key) && n <= |jobs| && GoodSession(first)
    ensures GoodSession(Queue.Sequentially(first, jobs, key, n))
  {
    if n > 0 {
      StaysGood(first, jobs, tasks, key, n - 1);
      if jobs[n - 1].key == key {
        JobMoves(first, jobs, tasks, key, n - 1);
      }
    }
  }

  /** Job x of this address, between m and n, drew the key of e. */
  ghost predicate DrewIn(jobs: seq<Job>, tasks: seq<Task>, key: Queue.Key, m: nat, n: nat, e: EntryState, x: nat)
    requires n <= |jobs| == |tasks|
  {
    m <= x < n && jobs[x].key == key && WireKey(e.pubKey) == Wire(Pub(tasks[x].env.seed))
  }

  ghost predicate KeptOrDrawn(jobs: seq<Job>, tasks: seq<Task>, key: Queue.Key, m: nat, n: nat,
                              before: Option<Record>, after: Option<Record>)
    requires n <= |jobs| == |tasks| && GoodSession(before) && GoodSession(after)
  {
    match after
    case None => before.None?
    case Some(r') =>
      || (before.Some? && Stays(OpenEntry(before.value), OpenEntry(r')))
      || exists x :: DrewIn(jobs, tasks, key, m, n, OpenEntry(r'), x)
  }

  /** From any job to any later one the current key is kept with a counter that does not fall, or
      was drawn in between. */
  lemma {:induction false} KeyHistory(first: Option<Record>, jobs: seq<Job>, tasks: seq<Task>, key: Queue.Key, m: nat, n: nat)
    requires AllDo(jobs, tasks, key) && m <= n <= |jobs| && GoodSession(first)
    ensures GoodSession(Queue.Sequentially(first, jobs, key, m)) && GoodSession(Queue.Sequentially(first, jobs, key, n))
    ensures KeptOrDrawn(jobs, tasks, key, m, n, Queue.Sequentially(first, jobs, key, m), Queue.Sequentially(first, jobs, key, n))
  {
    StaysGood(first, jobs, tasks, key, m);
    StaysGood(first, jobs, tasks, key, n);
    if m < n {
      KeyHistory(first, jobs, tasks, key, m, n - 1);
      HistoryStep(first, jobs, tasks, key, m, n - 1);
    }
  }

  lemma HistoryStep(first: Option<Record>, jobs: seq<Job>, tasks: seq<Task>, key: Queue.Key, m: nat, n: nat)
    requires AllDo(jobs, tasks, key) && m <= n < |jobs|
    requires GoodSession(Queue.Sequentially(first, jobs, key, m)) && GoodSession(Queue.Sequentially(first, jobs, key, n))
    requires KeptOrDrawn(jobs, tasks, key, m, n, Queue.Sequentially(first, jobs, key, m), Queue.Sequentially(first, jobs, key, n))
    ensures GoodSession(Queue.Sequentially(first, jobs, key, n + 1))
    ensures KeptOrDrawn(jobs, tasks, key, m, n + 1, Queue.Sequentially(first, jobs, key, m), Queue.Sequentially(first, jobs, key, n + 1))
  {
    if jobs[n].key == key {
      JobMoves(first, jobs, tasks, key, n);
    }
    MoveExtends(jobs, tasks, key, m, n, Queue.Sequentially(first, jobs, key, m), Queue.Sequentially(first, jobs, key, n),
                Queue.Sequentially(first, jobs, key, n + 1));
  }

  lemma MoveExtends(jobs: seq<Job>, tasks: seq<Task>, key: Queue.Key, m: nat, n: nat,
                    before: Option<Record>, mid: Option<Record>, after: Option<Record>)
    requires m <= n < |jobs| == |tasks| && GoodSession(before) && GoodSession(mid) && GoodSession(after)
    requires KeptOrDrawn(jobs, tasks, key, m, n, before, mid)
    requires if jobs[n].key == key then Moves(mid, after, tasks[n].env.seed) else after == mid
    ensures KeptOrDrawn(jobs, tasks, key, m, n + 1, before, after)
  {
    if after.Some? {
      var e' := OpenEntry(after.value);
      if jobs[n].key == key && WireKey(e'.pubKey) == Wire(Pub(tasks[n].env.seed)) {
        assert DrewIn(jobs, tasks, key, m, n + 1, e', n);
      } else if !(before.Some? && Stays(OpenEntry(before.value), OpenEntry(mid.value))) {
        var x :| DrewIn(jobs, tasks, key, m, n, OpenEntry(mid.value), x);
        assert DrewIn(jobs, tasks, key, m, n + 1, e', x);
      }
    }
  }

  // ---- counters ----

  ghost predicate SentBy(first: Option<Record>, jobs: seq<Job>, key: Queue.Key, i: nat) {
    i < |jobs| && ResultOf(first, jobs, key, i).Ok? && ResultOf(first, jobs, key, i).value.Packed?
  }

  /** What a successful encrypt sends, and where it leaves the chain. */
  ghost predicate SendsNext(before: Option<Record>, after: Option<Record>, out: Outgoing) {
    && before.Some? && after.Some? && Sound(before.value) && Sound(after.value)
    && OpenEntry(after.value).pubKey == OpenEntry(before.value).pubKey
    && out.Inner().msg.ephemeral == WireKey(OpenEntry(before.value).pubKey)
    && out.Inner().msg.counter == Standing(OpenEntry(before.value)) + 1 == Standing(OpenEntry(after.value))
  }

  lemma PackedIsSent(s: Stored, t: Task)
    requires t.env.Valid() && Good(s) && AnswerOf(s, t).Ok? && AnswerOf(s, t).value.Packed?
    ensures SendsNext(s.session, AfterOp(s, t.env, t.op).session, AnswerOf(s, t).value.out)
  {
    assert t.op.Encrypt? && s.session.Some?;
    EncryptMoves(s.session.value, s.prekeys, t.env, t.op.plain);
  }

  lemma SentCounts(first: Option<Record>, jobs: seq<Job>, tasks: seq<Task>, key: Queue.Key, i: nat)
    requires AllDo(jobs, tasks, key) && SentBy(first, jobs, key, i) && jobs[i].key == key
    requires GoodSession(Queue.Sequentially(first, jobs, key, i))
    ensures SendsNext(Queue.Sequentially(first, jobs, key, i), Queue.Sequentially(first, jobs, key, i + 1),
                      ResultOf(first, jobs, key, i).value.out)
  {
    assert Does(jobs, tasks, key, i);
    JobPerforms(first, jobs, tasks, key, i);
    PackedIsSent(Stored(Queue.Sequentially(first, jobs, key, i), tasks[i].prekeys), tasks[i]);
  }

  /** A key drawn after job i is not the key of job i. */
  lemma DrawnIsNew(first: Option<Record>, jobs: seq<Job>, tasks: seq<Task>, key: Queue.Key, i: nat, x: nat)
    requires AllDo(jobs, tasks, key) && i < x < |jobs| && jobs[x].key == key && GoodSession(first)
    requires FreshDraws(first, jobs, tasks, key)
    requires Queue.Sequentially(first, jobs, key, i).Some?
    ensures GoodSession(Queue.Sequentially(first, jobs, key, i))
    ensures WireKey(OpenEntry(Queue.Sequentially(first, jobs, key, i).value).pubKey) != Wire(Pub(tasks[x].env.seed))
  {
    KeyHistory(first, jobs, tasks, key, 0, i);
    var e := OpenEntry(Queue.Sequentially(first, jobs, key, i).value);
    if y: nat :| DrewIn(jobs, tasks, key, 0, i, e, y) {
      assert y < x && jobs[y].key == key;
    }
  }

  lemma CountersRise(first: Option<Record>, jobs: seq<Job>, tasks: seq<Task>, key: Queue.Key, i: nat, j: nat)
    requires AllDo(jobs, tasks, key) && GoodSession(first) && FreshDraws(first, jobs, tasks, key)
    requires i < j && SentBy(first, jobs, key, i) && SentBy(first, jobs, key, j) && jobs[i].key == key && jobs[j].key == key
    ensures var earlier, later := ResultOf(first, jobs, key, i).value.out.Inner().msg, ResultOf(first, jobs, key, j).value.out.Inner().msg;
            earlier.ephemeral == later.ephemeral ==> earlier.counter < later.counter
  {
    StaysGood(first, jobs, tasks, key, i);
    var next := i + 1;
    KeyHistory(first, jobs, tasks, key, next, j);
    SentCounts(first, jobs, tasks, key, i);
    SentCounts(first, jobs, tasks, key, j);
    var e := OpenEntry(Queue.Sequentially(first, jobs, key, j).value);
    if x: nat :| DrewIn(jobs, tasks, key, next, j, e, x) {
      DrawnIsNew(first, jobs, tasks, key, i, x);
    }
  }

  /** In every interleaving of any operations queued on an address, encrypts, whisper messages,
      prekey messages and initiations, whose key draws do not repeat: of two encrypts that have
      succeeded under one ephemeral key, the one added later carries the larger counter.  So no
      (ephemeral key, counter) is ever sent twice. */
  lemma CountersNeverRepeat(first: map<Queue.Key, Record>, acts: seq<Queue.Action<Record, Result<Answer>>>,
                            w: Queue.World<Record, Result<Answer>>, tasks: seq<Task>, i: nat, j: nat)
    requires Queue.Run(first, acts) == Some(w) && i < j < |w.jobs| && w.jobs[i].key == w.jobs[j].key
    requires AllDo(w.jobs, tasks, w.jobs[j].key) && GoodSession(Queue.Stored(first, w.jobs[j].key))
    requires FreshDraws(Queue.Stored(first, w.jobs[j].key), w.jobs, tasks, w.jobs[j].key)
    requires w.jobs[i].phase.Settled? && w.jobs[i].phase.result.Ok? && w.jobs[i].phase.result.value.Packed?
    requires w.jobs[j].phase.Settled? && w.jobs[j].phase.result.Ok? && w.jobs[j].phase.result.value.Packed?
    ensures var earlier, later := w.jobs[i].phase.result.value.out.Inner().msg, w.jobs[j].phase.result.value.out.Inner().msg;
            earlier.ephemeral == later.ephemeral ==> earlier.counter < later.counter
  {
    Queue.SettlesSequentially(first, acts, w, i);
    Queue.SettlesSequentially(first, acts, w, j);
    CountersRise(Queue.Stored(first, w.jobs[j].key), w.jobs, tasks, w.jobs[j].key, i, j);
  }
}
