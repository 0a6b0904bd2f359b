/**
 Two applications over a hostile network, each with its own storage: every run of the wrapper's
 operations from first contact on follows a run of the two-party conversation, so what holds of
 that holds of what the wrapper answers.
 */
module WrapperRuns {
  import opened Outcomes
  import opened Keys
  import Chains
  import opened Ratchet
  import X3dh
  import opened Conversation
  import ConversationTheorems
  import opened Records
  import opened SessionCipher
  import opened SessionQueue
  import SessionReceipt
  import FirstContact

  /** What arrives: a whisper message or a prekey message. */
  datatype Frame = Whispered(p: Packet) | WithPrekeys(m: PreKeyMessage)
  {
    function Packet(): Packet {
      match this
      case Whispered(p) => p
      case WithPrekeys(m) => m.message
    }
  }

  /** Both storages, what was put on the wire, what was answered to a reader, and the next private
      key to be drawn. */
  datatype Net = Net(alice: Stored, bob: Stored, sent: seq<Emission>, answered: seq<Acceptance>, next: Priv)
  {
    function At(side: Side): Stored {
      match side
      case Alice => alice
      case Bob => bob
    }

    function With(side: Side, s: Stored): Net {
      match side
      case Alice => this.(alice := s)
      case Bob => this.(bob := s)
    }
  }

  datatype Move = Encrypts(side: Side, env: Env, plain: Plaintext) | Receives(side: Side, env: Env, frame: Frame)

  function ReceivedFrame(s: Stored, env: Env, frame: Frame): (Stored, Result<Plaintext>) {
    match frame
    case Whispered(p) => ReceivedWhisper(s, env, p)
    case WithPrekeys(m) => Received(s, env, m)
  }

  ghost function AfterMove(n: Net, a: Move): Net {
    match a
    case Encrypts(side, env, plain) =>
      var (s', r) := Sent(n.At(side), env, plain);
      n.With(side, s').(sent := if r.Ok? then n.sent + [Emission(side, r.value.Inner(), plain)] else n.sent)
    case Receives(side, env, frame) =>
      var (s', r) := ReceivedFrame(n.At(side), env, frame);
      var msg := frame.Packet().msg;
      n.With(side, s').(next := n.next + 1,
                        answered := if r.Ok? then n.answered + [Acceptance(side, msg.ephemeral, msg.counter, r.value)] else n.answered)
  }

  ghost function NetAfter(n: Net, moves: seq<Move>): Net {
    if moves == [] then n else AfterMove(NetAfter(n, moves[..|moves| - 1]), moves[|moves| - 1])
  }

  /** What an operation meets: its own identity, Bob's prekeys, a private key never drawn before; a
      packet whose tag the network can produce, possibly with the header of the first contact. */
  ghost predicate Allowed(s: Setup, prekeyId: Option<u32>, n: Net, a: Move) {
    && a.env.Valid() && a.env.us == s.IdentityOf(a.side)
    && (a.Receives? ==>
          && a.env.seed == n.next
          && TagOnNet(s, n.sent, a.frame.Packet().tag)
          && (a.frame.WithPrekeys? ==> HeaderOf(s, prekeyId, a.frame.m))
          && (a.side == Bob ==> HasKeys(s, a.env)))
  }

  ghost predicate TagOnNet(s: Setup, sent: seq<Emission>, tag: Tag) {
    Producible(s, Initial(s).(sent := sent), tag)
  }

  predicate HeaderOf(s: Setup, prekeyId: Option<u32>, m: PreKeyMessage) {
    m.baseKey.point == Pub(s.ekA) && m.identityKey == s.IdentityOf(Alice) && m.preKeyId == prekeyId
  }

  predicate HasKeys(s: Setup, env: Env) {
    env.identityPriv == s.ikB && env.signedPrekey.Some? && env.signedPrekey.value.0 == s.spkB
    && env.signedPrekey.value.1.point == Pub(s.spkB)
  }

  ghost predicate AllAllowed(s: Setup, prekeyId: Option<u32>, n: Net, moves: seq<Move>) {
    forall i :: 0 <= i < |moves| ==> Allowed(s, prekeyId, NetAfter(n, moves[..i]), moves[i])
  }

  // ---- entries that differ in labels only ----

  predicate Like(e: EntryState, e': EntryState) {
    e.(registrationId := 0, pending := None) == e'.(registrationId := 0, pending := None)
  }

  lemma LikeDecrypts(e: EntryState, e': EntryState, p: Packet, us: Raw, seed: Priv)
    requires Like(e, e')
    ensures NaiveDecrypt(e, p, us, seed).Ok? <==> NaiveDecrypt(e', p, us, seed).Ok?
    ensures NaiveDecrypt(e, p, us, seed).Ok? ==>
              && Like(NaiveDecrypt(e, p, us, seed).value.0, NaiveDecrypt(e', p, us, seed).value.0)
              && NaiveDecrypt(e, p, us, seed).value.1 == NaiveDecrypt(e', p, us, seed).value.1
  {
  }

  lemma LikeEncrypts(e: EntryState, e': EntryState, plain: Plaintext, us: Raw, registrationId: u32)
    requires Like(e, e')
    ensures EncryptSpec(e, plain, us, registrationId).Ok? <==> EncryptSpec(e', plain, us, 0).Ok?
    ensures EncryptSpec(e, plain, us, registrationId).Ok? ==>
              && Like(EncryptSpec(e, plain, us, registrationId).value.0, EncryptSpec(e', plain, us, 0).value.0)
              && EncryptSpec(e, plain, us, registrationId).value.1.Inner() == EncryptSpec(e', plain, us, 0).value.1.Inner()
  {
    assert e.chains == e'.chains && e.pubKey == e'.pubKey && e.previousCounter == e'.previousCounter;
    assert SendingChain(e) == SendingChain(e');
    if SendingChain(e).Ok? {
      var id := SendingChain(e).value;
      var c := e.chains[id];
      var taken := Chains.Taken(c, c.counter + 1);
      EncryptsWith(e, id, c, taken, plain, us, registrationId);
      EncryptsWith(e', id, c, taken, plain, us, 0);
      if taken.Ok? {
        LikeEmits(e, e', c.counter + 1, taken.value.1, plain, us, registrationId);
      }
    }
  }

  lemma LikeEmits(e: EntryState, e': EntryState, counter: int, key: Secret, plain: Plaintext, us: Raw, registrationId: u32)
    requires Like(e, e')
    ensures var one, two := Numbered(e, counter, key, plain, us, registrationId), Numbered(e', counter, key, plain, us, 0);
            && (one.Ok? <==> two.Ok?) && (one.Ok? ==> one.value.Inner() == two.value.Inner())
  {
    assert e.pubKey == e'.pubKey && e.previousCounter == e'.previousCounter && e.remoteIdentity == e'.remoteIdentity;
  }

  // ---- the world behind two storages ----

  /** The storage has the session of the first contact open, as an entry like this one. */
  ghost predicate Carries(s: Setup, at: Stored, e: EntryState) {
    && Good(at) && at.session.Some?
    && HasBaseKey(at.session.value, Named(Bare(Pub(s.ekA))))
    && Like(OpenEntry(at.session.value), e)
  }

  /** Bob before the first message: no session, but the prekeys Alice was given. */
  ghost predicate Waits(s: Setup, prekeyId: Option<u32>, at: Stored, e: EntryState) {
    && at.session.None?
    && (prekeyId.Some? <==> s.opkB.Some?)
    && (prekeyId.Some? ==> prekeyId.value in at.prekeys && at.prekeys[prekeyId.value] == s.opkB.value)
    && Like(X3dh.RecipientEntry(s.R0(), s.ekA, s.spkB, Bare(Pub(s.spkB)), s.IdentityOf(Alice), 0), e)
  }

  ghost predicate Stands(s: Setup, prekeyId: Option<u32>, side: Side, at: Stored, e: EntryState) {
    Carries(s, at, e) || (side == Bob && Waits(s, prekeyId, at, e))
  }

  ghost predicate Tracks(s: Setup, prekeyId: Option<u32>, w: World, n: Net) {
    && n.sent == w.sent && n.next == w.next
    && Stands(s, prekeyId, Alice, n.alice, w.alice)
    && Stands(s, prekeyId, Bob, n.bob, w.bob)
  }

  // ---- one move ----

  lemma EncryptFollows(s: Setup, prekeyId: Option<u32>, side: Side, at: Stored, e: EntryState, env: Env, plain: Plaintext)
    requires env.Valid() && Stands(s, prekeyId, side, at, e)
    ensures var (at', r) := Sent(at, env, plain);
            var spec := EncryptSpec(e, plain, env.us, 0);
            && (r.Ok? ==> spec.Ok? && Stands(s, prekeyId, side, at', spec.value.0) && spec.value.1.Inner() == r.value.Inner())
            && (r.Err? ==> at' == at)
  {
    if Carries(s, at, e) {
      SessionReceipt.EncryptIsStored(at, env, plain);
      LikeEncrypts(OpenEntry(at.session.value), e, plain, env.us, env.registrationId);
      if Sent(at, env, plain).1.Ok? {
        BaseKeyStays(at.session.value, Sent(at, env, plain).0.session.value, Named(Bare(Pub(s.ekA))));
      }
    }
  }

  lemma BaseKeyStays(r: Record, r': Record, id: Id)
    requires SessionReceipt.OnlyOpenDiffers(r, r') && HasBaseKey(r, id)
    ensures HasBaseKey(r', id)
  {
    var x :| x in r && r[x].index.baseKey == id;
    assert x in r' && r'[x].index.baseKey == id;
  }

  /** A frame that changes storage is read by the entry behind it, and leaves storage there; what
      it answers is what was read. */
  ghost predicate Follows(s: Setup, prekeyId: Option<u32>, side: Side, at: Stored, e: EntryState, env: Env, frame: Frame) {
    var (at', r) := ReceivedFrame(at, env, frame);
    var naive := NaiveDecrypt(e, frame.Packet(), env.us, env.seed);
    || (r.Err? && at' == at)
    || (&& naive.Ok? && Stands(s, prekeyId, side, at', naive.value.0)
        && (r.Ok? ==> r.value == naive.value.1))
  }

  lemma WhisperFollows(s: Setup, prekeyId: Option<u32>, side: Side, at: Stored, e: EntryState, env: Env, p: Packet)
    requires env.Valid() && Stands(s, prekeyId, side, at, e)
    ensures Follows(s, prekeyId, side, at, e, env, Whispered(p))
  {
    if Carries(s, at, e) {
      SessionReceipt.WhisperIsStored(at, env, p);
      LikeDecrypts(OpenEntry(at.session.value), e, p, env.us, env.seed);
      if ReceivedWhisper(at, env, p).1.Ok? {
        BaseKeyStays(at.session.value, ReceivedWhisper(at, env, p).0.session.value, Named(Bare(Pub(s.ekA))));
      }
    }
  }

  /** A prekey message is tried on the session it belongs to, or on the one it builds. */
  lemma TriedOnSession(s: Setup, prekeyId: Option<u32>, side: Side, at: Stored, e: EntryState, env: Env, m: PreKeyMessage)
    requires env.Valid() && Stands(s, prekeyId, side, at, e) && HeaderOf(s, prekeyId, m)
    requires side == Bob ==> HasKeys(s, env)
    requires Candidate(at, env, m).Ok?
    ensures GoodRecord(Candidate(at, env, m).value.0) && Like(OpenEntry(Candidate(at, env, m).value.0), e)
  {
    if !Carries(s, at, e) {
      FirstContact.RecipientBuilds(m, at, env);
    }
  }

  lemma PreKeyFollows(s: Setup, prekeyId: Option<u32>, side: Side, at: Stored, e: EntryState, env: Env, m: PreKeyMessage)
    requires env.Valid() && Stands(s, prekeyId, side, at, e) && HeaderOf(s, prekeyId, m)
    requires side == Bob ==> HasKeys(s, env)
    ensures Follows(s, prekeyId, side, at, e, env, WithPrekeys(m))
  {
    SessionReceipt.PreKeyIsStored(at, env, m);
    if SessionReceipt.Reads(at, env, m) {
      TriedOnSession(s, prekeyId, side, at, e, env, m);
      LikeDecrypts(OpenEntry(Candidate(at, env, m).value.0), e, m.message, env.us, env.seed);
      SessionReceipt.KnowsBaseKey(at, env, m);
    }
  }

  /** Each move is one action of the conversation, or an arrival that is read by no one. */
  lemma MoveFollows(s: Setup, prekeyId: Option<u32>, w: World, n: Net, a: Move) returns (acts: seq<Action>)
    requires Tracks(s, prekeyId, w, n) && Allowed(s, prekeyId, n, a)
    ensures |acts| <= 1 && (acts == [] ==> Tracks(s, prekeyId, w, AfterMove(n, a)) && AfterMove(n, a).answered == n.answered)
    ensures |acts| == 1 ==> Possible(s, w, acts[0]) && Tracks(s, prekeyId, After(s, w, acts[0]), AfterMove(n, a))
                            && LogsLike(w, After(s, w, acts[0]), n, AfterMove(n, a))
  {
    match a
    case Encrypts(side, env, plain) => acts := EncryptMove(s, prekeyId, w, n, side, env, plain);
    case Receives(side, env, frame) => acts := ReceiveMove(s, prekeyId, w, n, side, env, frame);
  }

  /** What is answered is what the conversation accepts. */
  ghost predicate LogsLike(w: World, w': World, n: Net, n': Net) {
    || (n'.answered == n.answered && |w'.accepted| >= |w.accepted| && w'.accepted[..|w.accepted|] == w.accepted)
    || (|w'.accepted| == |w.accepted| + 1 && w'.accepted[..|w.accepted|] == w.accepted
        && n'.answered == n.answered + [w'.accepted[|w.accepted|]])
  }

  lemma EncryptMove(s: Setup, prekeyId: Option<u32>, w: World, n: Net, side: Side, env: Env, plain: Plaintext)
    returns (acts: seq<Action>)
    requires Tracks(s, prekeyId, w, n) && Allowed(s, prekeyId, n, Encrypts(side, env, plain))
    ensures |acts| <= 1
    ensures var n' := AfterMove(n, Encrypts(side, env, plain));
            && (acts == [] ==> Tracks(s, prekeyId, w, n') && n'.answered == n.answered)
            && (|acts| == 1 ==> Possible(s, w, acts[0]) && Tracks(s, prekeyId, After(s, w, acts[0]), n')
                                && LogsLike(w, After(s, w, acts[0]), n, n'))
  {
    EncryptFollows(s, prekeyId, side, n.At(side), w.Entry(side), env, plain);
    var (at', r) := Sent(n.At(side), env, plain);
    if r.Ok? {
      acts := [Send(side, plain)];
      SentTracks(s, prekeyId, w, n, side, at', EncryptSpec(w.Entry(side), plain, env.us, 0).value.0, Emission(side, r.value.Inner(), plain));
    } else {
      acts := [];
      assert n.With(side, n.At(side)) == n;
    }
  }

  lemma SentTracks(s: Setup, prekeyId: Option<u32>, w: World, n: Net, side: Side, at': Stored, e': EntryState, m: Emission)
    requires Tracks(s, prekeyId, w, n) && Stands(s, prekeyId, side, at', e')
    ensures var w', n' := w.With(side, e').(sent := w.sent + [m]), n.With(side, at').(sent := n.sent + [m]);
            Tracks(s, prekeyId, w', n') && LogsLike(w, w', n, n')
  {
  }

  lemma ReceiveMove(s: Setup, prekeyId: Option<u32>, w: World, n: Net, side: Side, env: Env, frame: Frame)
    returns (acts: seq<Action>)
    requires Tracks(s, prekeyId, w, n) && Allowed(s, prekeyId, n, Receives(side, env, frame))
    ensures |acts| == 1
    ensures var n' := AfterMove(n, Receives(side, env, frame));
            && Possible(s, w, acts[0]) && Tracks(s, prekeyId, After(s, w, acts[0]), n')
            && LogsLike(w, After(s, w, acts[0]), n, n')
  {
    match frame {
      case Whispered(p) => WhisperFollows(s, prekeyId, side, n.At(side), w.Entry(side), env, p);
      case WithPrekeys(m) => PreKeyFollows(s, prekeyId, side, n.At(side), w.Entry(side), env, m);
    }
    if ReceivedFrame(n.At(side), env, frame).0 == n.At(side) && ReceivedFrame(n.At(side), env, frame).1.Err? {
      acts := [Deliver(side, Unreadable(frame.Packet()))];
      UnreadMove(s, prekeyId, w, n, side, env, frame);
    } else {
      acts := [Deliver(side, frame.Packet())];
      ReadMove(s, prekeyId, w, n, side, env, frame);
    }
  }

  lemma UnreadMove(s: Setup, prekeyId: Option<u32>, w: World, n: Net, side: Side, env: Env, frame: Frame)
    requires Tracks(s, prekeyId, w, n)
    requires ReceivedFrame(n.At(side), env, frame).0 == n.At(side) && ReceivedFrame(n.At(side), env, frame).1.Err?
    ensures var n', act := AfterMove(n, Receives(side, env, frame)), Deliver(side, Unreadable(frame.Packet()));
            && Possible(s, w, act) && Tracks(s, prekeyId, After(s, w, act), n') && LogsLike(w, After(s, w, act), n, n')
  {
    NoiseIsNotRead(w.Entry(side), frame.Packet(), s.IdentityOf(side), w.next);
    assert After(s, w, Deliver(side, Unreadable(frame.Packet()))) == w.(next := w.next + 1);
  }

  lemma ReadMove(s: Setup, prekeyId: Option<u32>, w: World, n: Net, side: Side, env: Env, frame: Frame)
    requires Tracks(s, prekeyId, w, n) && Allowed(s, prekeyId, n, Receives(side, env, frame))
    requires Follows(s, prekeyId, side, n.At(side), w.Entry(side), env, frame)
    requires !(ReceivedFrame(n.At(side), env, frame).0 == n.At(side) && ReceivedFrame(n.At(side), env, frame).1.Err?)
    ensures var n', act := AfterMove(n, Receives(side, env, frame)), Deliver(side, frame.Packet());
            && Possible(s, w, act) && Tracks(s, prekeyId, After(s, w, act), n') && LogsLike(w, After(s, w, act), n, n')
  {
    var p := frame.Packet();
    var (at', r) := ReceivedFrame(n.At(side), env, frame);
    var naive := NaiveDecrypt(w.Entry(side), p, env.us, env.seed);
    ReadWorld(s, prekeyId, w, n, side, at', naive.value.0, p, naive.value.1, r);
    assert After(s, w, Deliver(side, p))
        == AfterReading(w, side, naive.value.0, p.msg.ephemeral, p.msg.counter, naive.value.1);
  }

  lemma ReadWorld(s: Setup, prekeyId: Option<u32>, w: World, n: Net, side: Side, at': Stored, e': EntryState,
                  p: Packet, plain: Plaintext, r: Result<Plaintext>)
    requires Tracks(s, prekeyId, w, n) && Stands(s, prekeyId, side, at', e') && (r.Ok? ==> r.value == plain)
    ensures var w' := AfterReading(w, side, e', p.msg.ephemeral, p.msg.counter, plain);
            var n' := n.With(side, at').(next := n.next + 1, answered :=
                        if r.Ok? then n.answered + [Acceptance(side, p.msg.ephemeral, p.msg.counter, r.value)] else n.answered);
            Tracks(s, prekeyId, w', n') && LogsLike(w, w', n, n')
  {
  }

  /** A packet no one reads. */
  function Unreadable(p: Packet): Packet {
    p.(tag := Noise(0))
  }

  lemma NoiseIsNotRead(e: EntryState, p: Packet, us: Raw, seed: Priv)
    ensures NaiveDecrypt(e, Unreadable(p), us, seed).Err?
  {
  }

  // ---- runs ----

  /** Every answer was accepted in the conversation, and nothing was answered twice. */
  ghost predicate Answered(accepted: seq<Acceptance>, answered: seq<Acceptance>) {
    && (forall i :: 0 <= i < |answered| ==> IsAmong(answered[i], accepted))
    && (forall i, j :: 0 <= i < j < |answered| ==> Apart(answered[i], answered[j]))
  }

  predicate IsAmong(a: Acceptance, accepted: seq<Acceptance>) {
    exists k :: 0 <= k < |accepted| && accepted[k] == a
  }

  predicate Apart(a: Acceptance, b: Acceptance) {
    a.ephemeral != b.ephemeral || a.counter != b.counter
  }

  /** The run of the conversation behind a run of the two storages. */
  lemma {:induction false} RunFollows(s: Setup, prekeyId: Option<u32>, n: Net, moves: seq<Move>) returns (run: Run)
    requires s.Sound() && Tracks(s, prekeyId, Initial(s), n) && n.answered == []
    requires AllAllowed(s, prekeyId, n, moves)
    ensures IsRun(s, run) && Tracks(s, prekeyId, run.worlds[|run.acts|], NetAfter(n, moves))
    ensures Answered(run.worlds[|run.acts|].accepted, NetAfter(n, moves).answered)
  {
    if moves == [] {
      run := Run([], [Initial(s)]);
      assert Begins(s, run);
    } else {
      var before := moves[..|moves| - 1];
      assert AllAllowed(s, prekeyId, n, before) by {
        forall i | 0 <= i < |before|
          ensures Allowed(s, prekeyId, NetAfter(n, before[..i]), before[i])
        {
          assert before[..i] == moves[..i];
        }
      }
      assert Allowed(s, prekeyId, NetAfter(n, moves[..|moves| - 1]), moves[|moves| - 1]);
      var run0 := RunFollows(s, prekeyId, n, before);
      run := OneMore(s, prekeyId, run0, NetAfter(n, before), moves[|moves| - 1]);
    }
  }

  lemma OneMore(s: Setup, prekeyId: Option<u32>, run: Run, n: Net, a: Move) returns (run': Run)
    requires s.Sound() && IsRun(s, run) && Tracks(s, prekeyId, run.worlds[|run.acts|], n) && Allowed(s, prekeyId, n, a)
    requires Answered(run.worlds[|run.acts|].accepted, n.answered)
    ensures IsRun(s, run') && Tracks(s, prekeyId, run'.worlds[|run'.acts|], AfterMove(n, a))
    ensures Answered(run'.worlds[|run'.acts|].accepted, AfterMove(n, a).answered)
  {
    var w := run.worlds[|run.acts|];
    var acts := MoveFollows(s, prekeyId, w, n, a);
    if acts == [] {
      run' := run;
    } else {
      var w' := After(s, w, acts[0]);
      run' := Extended(s, run, acts[0]);
      AnsweredGrows(s, run', w, w', n, AfterMove(n, a));
    }
  }

  lemma Extended(s: Setup, run: Run, act: Action) returns (run': Run)
    requires IsRun(s, run) && Possible(s, run.worlds[|run.acts|], act)
    ensures IsRun(s, run') && |run'.acts| == |run.acts| + 1
    ensures run'.worlds[|run'.acts|] == After(s, run.worlds[|run.acts|], act)
  {
    run' := Run(run.acts + [act], run.worlds + [After(s, run.worlds[|run.acts|], act)]);
    assert Begins(s, run') by {
      assert Begins(s, run);
    }
    forall i | 0 <= i < |run'.acts|
      ensures Steps(s, run', i)
    {
      if i < |run.acts| {
        assert Steps(s, run, i);
      }
    }
  }

  lemma AnsweredGrows(s: Setup, run: Run, w: World, w': World, n: Net, n': Net)
    requires s.Sound() && IsRun(s, run) && w' == run.worlds[|run.acts|]
    requires Answered(w.accepted, n.answered) && LogsLike(w, w', n, n')
    ensures Answered(w'.accepted, n'.answered)
  {
    forall i | 0 <= i < |n'.answered|
      ensures IsAmong(n'.answered[i], w'.accepted)
    {
      if i < |n.answered| {
        var k :| 0 <= k < |w.accepted| && w.accepted[k] == n.answered[i];
        assert w'.accepted[..|w.accepted|][k] == w'.accepted[k];
      }
    }
    forall i, j | 0 <= i < j < |n'.answered|
      ensures Apart(n'.answered[i], n'.answered[j])
    {
      if j == |n.answered| {
        assert IsAmong(n.answered[i], w.accepted);
        var k :| 0 <= k < |w.accepted| && w.accepted[k] == n.answered[i];
        assert w'.accepted[..|w.accepted|][k] == w'.accepted[k];
        ConversationTheorems.AtMostOnce(s, run, |run.acts|, k, |w.accepted|);
      } else {
        assert Apart(n.answered[i], n.answered[j]);
      }
    }
  }

  // ---- what holds of every run ----

  /** No message is ever answered twice, whatever storage, network and clock do. */
  lemma AnsweredAtMostOnce(s: Setup, prekeyId: Option<u32>, n: Net, moves: seq<Move>, i: nat, j: nat)
    requires s.Sound() && Tracks(s, prekeyId, Initial(s), n) && n.answered == []
    requires AllAllowed(s, prekeyId, n, moves) && i < j < |NetAfter(n, moves).answered|
    ensures var answered := NetAfter(n, moves).answered;
            answered[i].ephemeral != answered[j].ephemeral || answered[i].counter != answered[j].counter
  {
    var run := RunFollows(s, prekeyId, n, moves);
    assert Apart(NetAfter(n, moves).answered[i], NetAfter(n, moves).answered[j]);
  }

  /** Every answer is the plaintext the other side gave to an encrypt that was answered. */
  lemma AnswersWereSent(s: Setup, prekeyId: Option<u32>, n: Net, moves: seq<Move>, i: nat) returns (j: nat)
    requires s.Sound() && Tracks(s, prekeyId, Initial(s), n) && n.answered == []
    requires AllAllowed(s, prekeyId, n, moves) && i < |NetAfter(n, moves).answered|
    ensures var now := NetAfter(n, moves);
            && j < |now.sent| && now.sent[j].sender == now.answered[i].reader.Other()
            && now.sent[j].packet.msg.ephemeral == now.answered[i].ephemeral
            && now.sent[j].packet.msg.counter == now.answered[i].counter
            && now.sent[j].plain == now.answered[i].plain
  {
    var run := RunFollows(s, prekeyId, n, moves);
    var w := run.worlds[|run.acts|];
    assert IsAmong(NetAfter(n, moves).answered[i], w.accepted);
    var k :| 0 <= k < |w.accepted| && w.accepted[k] == NetAfter(n, moves).answered[i];
    j := ConversationTheorems.AcceptedWasSent(s, run, |run.acts|, k);
  }

  /** The keys of a bundle that was accepted, as the keys of a conversation. */
  predicate IsFor(s: Setup, params: X3dh.X3dhParams, ekA: Priv) {
    && X3dh.InitialRefusal(params).None?
    && s.ikA == params.identityPriv && s.ekA == ekA && Pub(s.ikB) == params.recipientPub.point
    && Pub(s.spkB) == params.signedPrekeyPub.point
    && (s.opkB.Some? <==> params.prekeyPub.Some?) && (s.opkB.Some? ==> Pub(s.opkB.value) == params.prekeyPub.value.point)
  }

  /** An initiation that is answered, and a peer that has no session but holds the prekeys of the
      bundle, are where the conversation of these keys begins. */
  lemma InitiationBegins(s: Setup, params: X3dh.X3dhParams, alice: Stored, env: Env, bob: Stored)
    requires env.Valid() && IsFor(s, params, env.seed) && SessionCipher.Initiated(alice, env, params).1.Ok?
    requires bob.session.None? && (params.prekeyId.Some? <==> s.opkB.Some?)
    requires params.prekeyId.Some? ==> params.prekeyId.value in bob.prekeys && bob.prekeys[params.prekeyId.value] == s.opkB.value
    ensures Tracks(s, params.prekeyId, Initial(s), Net(SessionCipher.Initiated(alice, env, params).0, bob, [], [], s.supply))
  {
    var us := s.IdentityOf(Alice);
    FirstContact.InitiationLeads(alice, env, params, us, 0);
    SessionReceipt.InitiationIsStored(alice, env, params);
    var at := SessionCipher.Initiated(alice, env, params).0;
    assert at.session.value[Named(Bare(Pub(env.seed)))].index.baseKey == Named(Bare(Pub(s.ekA)));
    var c := FirstContact.ContactOf(params, env.seed, us, 0);
    assert c.root == s.R0();
    assert c.Initiator(params.registrationId, 0).chains == Initial(s).alice.chains;
  }

  /** With writes that succeed, a frame is answered exactly when the entry behind storage reads it,
      unless it is a whisper message and there is no session yet. */
  lemma AnswersAsRead(s: Setup, prekeyId: Option<u32>, side: Side, at: Stored, e: EntryState, env: Env, frame: Frame)
    requires env.Valid() && Stands(s, prekeyId, side, at, e) && !env.storeFails && !env.removeFails
    requires if frame.WithPrekeys? then HeaderOf(s, prekeyId, frame.m) && (side == Bob ==> HasKeys(s, env)) else at.session.Some?
    ensures var (at', r) := ReceivedFrame(at, env, frame);
            var naive := NaiveDecrypt(e, frame.Packet(), env.us, env.seed);
            (r.Ok? <==> naive.Ok?) && (r.Ok? ==> r.value == naive.value.1)
  {
    match frame {
      case Whispered(p) =>
        SessionReceipt.WhisperIsStored(at, env, p);
        LikeDecrypts(OpenEntry(at.session.value), e, p, env.us, env.seed);
      case WithPrekeys(m) =>
        SessionReceipt.PreKeyIsStored(at, env, m);
        HeaderIsTried(s, prekeyId, side, at, e, env, m);
        TriedOnSession(s, prekeyId, side, at, e, env, m);
        LikeDecrypts(OpenEntry(Candidate(at, env, m).value.0), e, m.message, env.us, env.seed);
    }
  }

  lemma HeaderIsTried(s: Setup, prekeyId: Option<u32>, side: Side, at: Stored, e: EntryState, env: Env, m: PreKeyMessage)
    requires env.Valid() && Stands(s, prekeyId, side, at, e) && HeaderOf(s, prekeyId, m) && (side == Bob ==> HasKeys(s, env))
    ensures Candidate(at, env, m).Ok?
  {
    if !Carries(s, at, e) {
      FirstContact.RecipientBuilds(m, at, env);
    }
  }

  /** A message that was sent is answered, with its plaintext, exactly when the conversation has it
      readable: the wrapper refuses nothing else and answers nothing else. */
  lemma AnsweredWhenReadable(s: Setup, prekeyId: Option<u32>, n: Net, moves: seq<Move>, j: nat, env: Env, frame: Frame)
    returns (run: Run)
    requires s.Sound() && Tracks(s, prekeyId, Initial(s), n) && n.answered == []
    requires AllAllowed(s, prekeyId, n, moves) && j < |NetAfter(n, moves).sent|
    requires var now := NetAfter(n, moves);
             var reader := now.sent[j].sender.Other();
             && Allowed(s, prekeyId, now, Receives(reader, env, frame)) && frame.Packet() == now.sent[j].packet
             && !env.storeFails && !env.removeFails
             && (frame.WithPrekeys? || now.At(reader).session.Some?)
    ensures IsRun(s, run) && Tracks(s, prekeyId, run.worlds[|run.acts|], NetAfter(n, moves))
    ensures var now := NetAfter(n, moves);
            var reader := now.sent[j].sender.Other();
            var r := ReceivedFrame(now.At(reader), env, frame).1;
            && (r.Ok? <==> ConversationTheorems.Readable(run.worlds[|run.acts|], reader, now.sent[j].packet))
            && (r.Ok? ==> r.value == now.sent[j].plain)
  {
    var now := NetAfter(n, moves);
    var reader := now.sent[j].sender.Other();
    run := RunFollows(s, prekeyId, n, moves);
    AnswersAsRead(s, prekeyId, reader, now.At(reader), run.worlds[|run.acts|].Entry(reader), env, frame);
    ConversationTheorems.Delivery(s, run, |run.acts|, j);
  }
}
