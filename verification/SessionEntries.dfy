/**
 SessionEntry as the code holds it: a record of mutable fields and a map of mutable
 chains, with the planning, committing, decrypting and encrypting methods of ratchet.rs.
 */
module SessionEntries {
  import opened Outcomes
  import opened Keys
  import opened Chains
  import opened Ratchet

  /** A DH ratchet step that has been computed but not applied. */
  datatype RatchetPlan = RatchetPlan(
    retiredRecvIds: seq<Id>,
    receivingChainId: Id,
    lastRemote: Id,
    previousCounter: u32,
    root: Secret,
    priv: Priv,
    pubKey: Id,
    receivingChain: Chain,
    sendingChain: Chain)

  function States(m: map<Id, Chain>): map<Id, ChainState>
    reads m.Values
  {
    map id | id in m :: m[id].View()
  }

  lemma StatesWithout(m: map<Id, Chain>, ids: set<Id>)
    ensures States(m - ids) == States(m) - ids
  {
  }

  lemma StatesWithoutAll(m: map<Id, Chain>, ids: seq<Id>)
    ensures States(Without(m, ids)) == Without(States(m), ids)
  {
    if ids != [] {
      StatesWithout(m, {ids[0]});
      StatesWithoutAll(m - {ids[0]}, ids[1..]);
    }
  }

  lemma StatesWith(m: map<Id, Chain>, id: Id, c: Chain)
    ensures States(m[id := c]) == States(m)[id := c.View()]
  {
  }

  class SessionEntry {
    var registrationId: u32
    var priv: Priv
    var pubKey: Id
    var lastRemote: Id
    var previousCounter: u32
    var root: Secret
    var remoteIdentity: Raw
    var chains: map<Id, Chain>
    var pending: Option<PendingPreKey>

    /** The map owns its chains: no chain sits under two keys. */
    ghost predicate Valid()
      reads this
    {
      forall i, j :: i in chains && j in chains && i != j ==> chains[i] != chains[j]
    }

    function View(): EntryState
      reads this, chains.Values
    {
      EntryState(registrationId, priv, pubKey, lastRemote, previousCounter, root, remoteIdentity,
                 States(chains), pending)
    }

    constructor (s: EntryState)
      ensures Valid() && fresh(chains.Values) && View() == s
    {
      registrationId, priv, pubKey, lastRemote := s.registrationId, s.priv, s.pubKey, s.lastRemote;
      previousCounter, root, remoteIdentity, pending := s.previousCounter, s.root, s.remoteIdentity, s.pending;
      chains := map[];
      new;
      var left := s.chains.Keys;
      while left != {}
        invariant left <= s.chains.Keys && chains.Keys == s.chains.Keys - left
        invariant Valid() && forall id :: id in chains ==> fresh(chains[id])
        invariant forall id :: id in chains ==> chains[id].View() == s.chains[id]
        invariant View() == s.(chains := View().chains)
        decreases left
      {
        var id :| id in left;
        var c := new Chain(s.chains[id]);
        chains := chains[id := c];
        left := left - {id};
      }
    }

    /** find_chain and find_chain_mut. */
    method FindChain(ids: seq<Id>) returns (found: Option<Id>)
      ensures found == FirstIn(View().chains, ids)
    {
      for i := 0 to |ids|
        invariant FirstIn(View().chains, ids) == FirstIn(View().chains, ids[i..])
      {
        assert ids[i..][0] == ids[i] && ids[i..][1..] == ids[i + 1..];
        assert ids[i] in View().chains <==> ids[i] in chains;
        if ids[i] in chains {
          return Some(ids[i]);
        }
      }
      return None;
    }

    /** What a plan made for this entry says. */
    ghost predicate PlanFor(plan: RatchetPlan, e: EntryState, remote: Raw, seed: Priv)
      reads plan.receivingChain, plan.sendingChain
    {
      && remote.point.Pub?
      && var dh := Agree(e.priv, remote.point.sk);
         var root := RootOf(e.root, dh);
         var dh' := Agree(seed, remote.point.sk);
      && plan.retiredRecvIds == RetiredIds(e)
      && plan.receivingChainId == plan.lastRemote == Named(remote)
      && plan.root == RootOf(root, dh')
      && plan.priv == seed && plan.pubKey == Named(Wire(Pub(seed)))
      && plan.receivingChain != plan.sendingChain
      && plan.receivingChain.View() == FreshChain(ChainOf(e.root, dh), RECEIVING)
      && plan.sendingChain.View() == FreshChain(ChainOf(root, dh'), SENDING)
      && plan.previousCounter == StoppedAt(e.chains, e.pubKey, e.previousCounter)
    }

    /** Walking the previous receiving chain ahead, discarding what the walk derives. */
    method CheckClosing(previous: u32) returns (error: Option<Error>)
      requires View().WellStored()
      ensures error == ClosingError(View(), previous)
    {
      var retired := if lastRemote == Empty then [] else IdsOfText(lastRemote);
      var prev := FindChain(retired);
      if prev.Some? {
        var prevChain := chains[prev.value];
        assert prevChain.View() == View().chains[prev.value];
        if prevChain.View().IsReceiving() {
          var peeked := prevChain.Peek(previous);
          if peeked.Err? {
            return Some(peeked.error);
          }
        }
      }
      return None;
    }

    /** The counter the plan records for the sending chain it replaces. */
    method SnapshotCounter() returns (planned: u32)
      ensures planned == StoppedAt(View().chains, pubKey, previousCounter)
    {
      planned := previousCounter;
      var oldSend := FindChain(IdsOfText(pubKey));
      if oldSend.Some? {
        var c := chains[oldSend.value];
        assert c.View() == View().chains[oldSend.value];
        if c.View().IsSending() {
          planned := (if c.counter > 0 then c.counter else 0) % U32;
        }
      }
    }

    /** plan_ratchet, parts 2 to 4: the keys and chains of the step. */
    method DerivePlan(remote: Raw, seed: Priv) returns (r: Result<RatchetPlan>)
      ensures r.Err? <==> remote.point.Bad?
      ensures r.Err? ==> r.error == BadPublicKey
      ensures r.Ok? ==> fresh(r.value.receivingChain) && fresh(r.value.sendingChain)
      ensures r.Ok? ==> PlanFor(r.value, View(), remote, seed)
    {
      var shared := ScalarMultiply(priv, PointOf(remote));
      if shared.Err? {
        return Err(shared.error);
      }
      var recvRoot, recvChain := RootOf(root, shared.value), ChainOf(root, shared.value);
      var planned := SnapshotCounter();
      var sharedSend;
      match ScalarMultiply(seed, PointOf(remote)) {
        case Err(x) => return Err(x);
        case Ok(dh) => sharedSend := dh;
      }
      var retired := if lastRemote == Empty then [] else IdsOfText(lastRemote);
      ghost var before := View();
      var recv := new Chain(FreshChain(recvChain, RECEIVING));
      var send := new Chain(FreshChain(ChainOf(recvRoot, sharedSend), SENDING));
      assert View() == before;
      return Ok(RatchetPlan(retired, Named(remote), Named(remote), planned,
                            RootOf(recvRoot, sharedSend), seed, Named(Wire(Pub(seed))), recv, send));
    }

    /** plan_ratchet. */
    method PlanRatchet(remote: Raw, previous: u32, seed: Priv) returns (r: Result<Option<RatchetPlan>>)
      requires View().WellStored()
      ensures Stepped(View(), remote, previous, seed).Err? ==> r == Err(Stepped(View(), remote, previous, seed).error)
      ensures Stepped(View(), remote, previous, seed).Ok? ==> r.Ok?
      ensures r.Ok? ==> (r.value.None? <==> FirstIn(View().chains, ChainKeyIds(remote)).Some?)
      ensures r.Ok? && r.value.Some? ==> fresh(r.value.value.receivingChain) && fresh(r.value.value.sendingChain)
      ensures r.Ok? && r.value.Some? ==> PlanFor(r.value.value, View(), remote, seed)
    {
      var known := FindChain(ChainKeyIds(remote));
      if known.Some? {
        return Ok(None);
      }
      var closing := CheckClosing(previous);
      if closing.Some? {
        return Err(closing.value);
      }
      ghost var before := View();
      var plan := DerivePlan(remote, seed);
      assert View() == before;
      match plan
      case Err(x) => return Err(x);
      case Ok(p) => return Ok(Some(p));
    }

    /** apply_ratchet: the retired receiving chain goes, under every encoding of its key,
        and the new one comes in. */
    method InstallReceiving(retiredIds: seq<Id>, id: Id, receiving: Chain)
      requires Valid() && receiving !in chains.Values
      modifies this`chains
      ensures Valid() && chains == Without(old(chains), retiredIds)[id := receiving]
      ensures View() == old(View()).(chains := Without(old(View()).chains, retiredIds)[id := receiving.View()])
    {
      for i := 0 to |retiredIds|
        invariant Without(old(chains), retiredIds) == Without(chains, retiredIds[i..])
        invariant chains.Keys <= old(chains.Keys) && forall x :: x in chains ==> chains[x] == old(chains)[x]
      {
        assert retiredIds[i..][0] == retiredIds[i] && retiredIds[i..][1..] == retiredIds[i + 1..];
        chains := chains - {retiredIds[i]};
      }
      StatesWithoutAll(old(chains), retiredIds);
      StatesWith(chains, id, receiving);
      chains := chains[id := receiving];
    }

    /** apply_ratchet: the sending chain of the old key pair goes, and leaves the counter it
        stopped at. */
    method RetireSending(planned: u32)
      requires Valid()
      requires FirstIn(View().chains, IdsOfText(pubKey)).Some?
               && View().chains[FirstIn(View().chains, IdsOfText(pubKey)).value].IsSending()
               ==> planned == StoppedAt(View().chains, pubKey, previousCounter)
      modifies this`chains, this`previousCounter
      ensures Valid()
      ensures chains == match FirstIn(old(View()).chains, IdsOfText(pubKey))
                        case None => old(chains)
                        case Some(id) => old(chains) - {id}
      ensures View() == old(View()).(chains := WithoutSending(old(View()).chains, pubKey),
                                     previousCounter := StoppedAt(old(View()).chains, pubKey, old(previousCounter)))
    {
      var found := FindChain(IdsOfText(pubKey));
      if found.Some? {
        var c := chains[found.value];
        assert c.View() == States(chains)[found.value];
        StatesWithout(chains, {found.value});
        chains := chains - {found.value};
        if c.View().IsSending() {
          previousCounter := planned;
        }
      }
    }

    /** apply_ratchet: the new key pair, root and sending chain. */
    method InstallSending(plan: RatchetPlan)
      requires Valid() && plan.sendingChain !in chains.Values
      modifies this
      ensures Valid() && chains == old(chains)[plan.pubKey := plan.sendingChain]
      ensures View() == old(View()).(root := plan.root, priv := plan.priv, pubKey := plan.pubKey,
                                     lastRemote := plan.lastRemote,
                                     chains := old(View()).chains[plan.pubKey := plan.sendingChain.View()])
    {
      StatesWith(chains, plan.pubKey, plan.sendingChain);
      ghost var after := States(chains[plan.pubKey := plan.sendingChain]);
      root := plan.root;
      priv, pubKey := plan.priv, plan.pubKey;
      lastRemote := plan.lastRemote;
      chains := chains[plan.pubKey := plan.sendingChain];
      assert States(chains) == after;
    }

    /** apply_ratchet. */
    method ApplyRatchet(plan: RatchetPlan, ghost remote: Raw, ghost seed: Priv)
      requires Valid() && PlanFor(plan, View(), remote, seed)
      requires plan.receivingChain !in chains.Values && plan.sendingChain !in chains.Values
      modifies this
      ensures Valid() && View() == AfterStep(old(View()), remote, remote.point.sk, seed)
      ensures chains.Values <= old(chains.Values) + {plan.receivingChain, plan.sendingChain}
      ensures Named(remote) in chains ==> chains[Named(remote)] in {plan.receivingChain, plan.sendingChain}
    {
      ghost var before := View();
      PlannedIsStopped(before, remote, plan.receivingChain.View());
      InstallReceiving(plan.retiredRecvIds, plan.receivingChainId, plan.receivingChain);
      ghost var received := WithReceiving(before, remote, plan.receivingChain.View());
      assert View() == before.(chains := received);
      RetireSending(plan.previousCounter);
      InstallSending(plan);
    }

    /** Only the chain under id has changed. */
    twostate lemma OneChainMoved(id: Id)
      requires old(Valid()) && id in old(chains) && unchanged(this)
      requires forall x :: x in chains && x != id ==> unchanged(chains[x])
      ensures View() == old(View()).(chains := old(View()).chains[id := chains[id].View()])
    {
      assert States(chains) == old(States(chains))[id := chains[id].View()];
    }

    /** fill_message_keys on one chain, then the removal of the key filled to. */
    method FillAndTake(id: Id, n: int) returns (r: Result<Secret>)
      requires Valid() && id in chains
      modifies chains[id]
      ensures match Taken(old(View()).chains[id], n)
              case Ok(t) => r == Ok(t.1) && View() == old(View()).(chains := old(View()).chains[id := t.0])
              case Err(x) => r == Err(x)
    {
      var c := chains[id];
      assert c.View() == View().chains[id];
      r := c.Take(n);
      OneChainMoved(id);
    }

    /** The message key the MAC is checked under, read without writing: from the planned
        chain when there is a plan, from the stored chain otherwise. */
    method PeekKey(plan: Option<RatchetPlan>, remote: Raw, n: u32) returns (r: Result<Secret>)
      requires View().WellStored()
      requires plan.Some? ==> plan.value.receivingChain.View().Behind()
      ensures match (if plan.Some? then Some(plan.value.receivingChain.View())
                     else StoredReceiving(View(), remote))
              case None => r == Err(NoReceivingChain)
              case Some(c) =>
                match Taken(c, n)
                case Ok(t) => r == Ok(t.1)
                case Err(x) => r == Err(x)
    {
      var chain;
      match plan {
        case Some(p) => chain := p.receivingChain;
        case None =>
          var found := FindChain(ChainKeyIds(remote));
          if found.None? {
            return Err(NoReceivingChain);
          }
          chain := chains[found.value];
          assert chain.View() == View().chains[found.value];
          if !chain.View().IsReceiving() {
            return Err(NoReceivingChain);
          }
      }
      var peeked := chain.Peek(n);
      match peeked {
        case Err(x) => return Err(x);
        case Ok(None) => return Err(NoMessageKey);
        case Ok(Some(key)) => return Ok(key);
      }
    }

    /** decrypt_entry up to the MAC: plan, peek, verify; nothing is written. */
    method Verify(p: Packet, us: Raw, seed: Priv) returns (r: Result<(Option<RatchetPlan>, Secret)>)
      requires View().WellStored()
      ensures match VerifiedKey(View(), p, us, seed)
              case Err(x) => r == Err(x)
              case Ok(key) => r.Ok? && r.value.1 == key
      ensures r.Ok? ==> (r.value.0.None? <==> FirstIn(View().chains, ChainKeyIds(p.msg.ephemeral)).Some?)
      ensures r.Ok? && r.value.0.Some? ==> fresh(r.value.0.value.receivingChain) && fresh(r.value.0.value.sendingChain)
      ensures r.Ok? && r.value.0.Some? ==> PlanFor(r.value.0.value, View(), p.msg.ephemeral, seed)
    {
      ghost var before := View();
      var planned := PlanRatchet(p.msg.ephemeral, p.msg.previousCounter, seed);
      assert View() == before;
      if planned.Err? {
        return Err(planned.error);
      }
      var plan := planned.value;
      var peeked := PeekKey(plan, p.msg.ephemeral, p.msg.counter);
      if peeked.Err? {
        return Err(peeked.error);
      }
      if p.tag != Mac(peeked.value, remoteIdentity, us, p.msg) {
        return Err(BadMac);
      }
      return Ok((plan, peeked.value));
    }

    /** Step the stored receiving chain of a remote key and remove the key stepped to. */
    method TakeReceived(remote: Raw, n: u32) returns (r: Result<Secret>)
      requires Valid()
      modifies chains.Values
      ensures match TakenFrom(old(View()), remote, n)
              case Ok(t) => r == Ok(t.1) && View() == t.0
              case Err(x) => r == Err(x)
    {
      var found := FindChain(ChainKeyIds(remote));
      if found.None? {
        return Err(NoReceivingChain);
      }
      var c := chains[found.value];
      assert c.View() == View().chains[found.value];
      if !c.View().IsReceiving() {
        return Err(NoReceivingChain);
      }
      r := FillAndTake(found.value, n);
    }

    /** decrypt_entry past the MAC: apply the plan, step the receiving chain, remove the key. */
    method Commit(plan: Option<RatchetPlan>, p: Packet, ghost seed: Priv) returns (r: Result<Secret>)
      requires Valid()
      requires plan.None? <==> FirstIn(View().chains, ChainKeyIds(p.msg.ephemeral)).Some?
      requires plan.Some? ==> PlanFor(plan.value, View(), p.msg.ephemeral, seed)
      requires plan.Some? ==> plan.value.receivingChain !in chains.Values && plan.value.sendingChain !in chains.Values
      modifies this, chains.Values, if plan.Some? then {plan.value.receivingChain, plan.value.sendingChain} else {}
      ensures Valid()
      ensures match Committed(old(View()), p.msg, seed)
              case Ok(t) => r == Ok(t.1) && View() == t.0
              case Err(x) => r == Err(x)
    {
      if plan.Some? {
        ApplyRatchet(plan.value, p.msg.ephemeral, seed);
      }
      r := TakeReceived(p.msg.ephemeral, p.msg.counter);
    }

    /** decrypt_entry, last part: decrypt the body; a success ends the prekey phase. */
    method Finish(key: Secret, body: Ciphertext) returns (r: Result<Plaintext>)
      modifies this`pending
      ensures match Open(key, body)
              case None => r == Err(BadPadding) && View() == old(View())
              case Some(plain) => r == Ok(plain) && View() == old(View()).(pending := None)
    {
      match Open(key, body) {
        case None => return Err(BadPadding);
        case Some(plain) =>
          pending := None;
          return Ok(plain);
      }
    }

    /** decrypt_entry past the MAC: commit, then decrypt the body. */
    method Settle(plan: Option<RatchetPlan>, key: Secret, p: Packet, ghost seed: Priv) returns (r: Result<Plaintext>)
      requires Valid()
      requires plan.None? <==> FirstIn(View().chains, ChainKeyIds(p.msg.ephemeral)).Some?
      requires plan.Some? ==> PlanFor(plan.value, View(), p.msg.ephemeral, seed)
      requires plan.Some? ==> plan.value.receivingChain !in chains.Values && plan.value.sendingChain !in chains.Values
      modifies this, chains.Values, if plan.Some? then {plan.value.receivingChain, plan.value.sendingChain} else {}
      ensures Valid()
      ensures match Committed(old(View()), p.msg, seed)
              case Err(x) => r == Err(x)
              case Ok(t) =>
                match Open(key, p.msg.body)
                case None => r == Err(BadPadding) && View() == t.0
                case Some(plain) => r == Ok(plain) && View() == t.0.(pending := None)
    {
      var taken := Commit(plan, p, seed);
      if taken.Err? {
        return Err(taken.error);
      }
      r := Finish(key, p.msg.body);
    }

    /** decrypt_entry: plan, peek, verify the MAC, and only then apply, fill and remove. */
    method DecryptEntry(p: Packet, us: Raw, seed: Priv) returns (r: Result<Plaintext>)
      requires Valid() && View().WellStored()
      modifies this, chains.Values
      ensures Valid()
      ensures match VerifiedKey(old(View()), p, us, seed)
              case Err(x) => r == Err(x) && View() == old(View())
              case Ok(key) =>
                match Committed(old(View()), p.msg, seed)
                case Err(x) => r == Err(x)
                case Ok(t) =>
                  match Open(key, p.msg.body)
                  case None => r == Err(BadPadding) && View() == t.0
                  case Some(plain) => r == Ok(plain) && View() == t.0.(pending := None)
    {
      ghost var before := View();
      var verified := Verify(p, us, seed);
      assert View() == before;
      match verified {
        case Err(x) => return Err(x);
        case Ok((plan, key)) => r := Settle(plan, key, p, seed);
      }
    }

    /** The chain encrypt uses: the one the public key names, or the only sending one. */
    method SelectSending() returns (r: Result<Id>)
      ensures r == SendingChain(View())
    {
      var named := FindChain(IdsOfText(pubKey));
      if named.Some? {
        assert View().chains[named.value] == chains[named.value].View();
        if chains[named.value].View().IsSending() {
          return Ok(named.value);
        }
      }
      var sending := set id | id in chains && chains[id].View().IsSending();
      assert sending == SendingIds(View().chains);
      if |sending| == 0 {
        return Err(NoSendingChain);
      }
      if |sending| == 1 {
        ghost var only := TheOne(sending);
        var id :| id in sending;
        return Ok(id);
      }
      return Err(AmbiguousSendingChain);
    }

    /** encrypt, the message: sealed under the new key and, until the peer has answered,
        wrapped with the prekeys of the session's X3DH. */
    method Compose(counter: int, key: Secret, plain: Plaintext, us: Raw, ourRegistrationId: u32) returns (r: Result<Outgoing>)
      ensures r == Numbered(View(), counter, key, plain, us, ourRegistrationId)
    {
      if counter >= U32 || counter < 0 {
        return Err(CounterTooWide);
      }
      var msg := WhisperMessage(WireKey(pubKey), counter, previousCounter, Sealed(key, plain));
      var packet := Packet(msg, Mac(key, us, remoteIdentity, msg));
      match pending {
        case None => return Ok(Whisper(packet));
        case Some(pk) =>
          return Ok(PreKeyWhisper(PreKeyMessage(pk.preKeyId, WireForm(pk.baseKey), us, packet,
                                                ourRegistrationId, pk.signedKeyId)));
      }
    }

    /** encrypt, past the choice of the chain: take the next key, and number the message with it. */
    method EncryptUnder(id: Id, plain: Plaintext, us: Raw, ourRegistrationId: u32) returns (r: Result<Outgoing>)
      requires Valid() && id in chains
      modifies chains[id]
      ensures var e := old(View());
              var counter := e.chains[id].counter;
              if counter >= MAX_I64 then r == Err(CounterOverflow)
              else
                match Taken(e.chains[id], counter + 1)
                case Err(x) => r == Err(x)
                case Ok(t) => r == Numbered(e, counter + 1, t.1, plain, us, ourRegistrationId)
                              && View() == e.(chains := e.chains[id := t.0])
    {
      ghost var before := View();
      var counter := chains[id].counter;
      assert counter == before.chains[id].counter;
      if counter >= MAX_I64 {
        return Err(CounterOverflow);
      }
      var taken := FillAndTake(id, counter + 1);
      match taken {
        case Err(x) => return Err(x);
        case Ok(key) =>
          r := Compose(counter + 1, key, plain, us, ourRegistrationId);
          ChainsDoNotShow(before, View(), counter + 1, key, plain, us, ourRegistrationId);
      }
    }

    /** encrypt, on the selected entry. */
    method Encrypt(plain: Plaintext, us: Raw, ourRegistrationId: u32) returns (r: Result<Outgoing>)
      requires Valid()
      modifies chains.Values
      ensures match EncryptSpec(old(View()), plain, us, ourRegistrationId)
              case Ok(t) => r == Ok(t.1) && View() == t.0
              case Err(x) => r == Err(x)
    {
      if pubKey.Unparsed? {
        return Err(BadBase64);
      }
      var selected := SelectSending();
      match selected {
        case Err(x) => return Err(x);
        case Ok(id) => r := EncryptUnder(id, plain, us, ourRegistrationId);
      }
    }
  }

  /** What is sent does not depend on the chains. */
  lemma ChainsDoNotShow(e: EntryState, e': EntryState, counter: int, key: Secret, plain: Plaintext, us: Raw, registrationId: u32)
    requires e' == e.(chains := e'.chains)
    ensures Numbered(e', counter, key, plain, us, registrationId) == Numbered(e, counter, key, plain, us, registrationId)
  {
  }

  /** The stored chain of a remote key, if it is a receiving one. */
  function StoredReceiving(e: EntryState, remote: Raw): Option<ChainState> {
    match FirstIn(e.chains, ChainKeyIds(remote))
    case None => None
    case Some(id) => if e.chains[id].IsReceiving() then Some(e.chains[id]) else None
  }

  /** After a step the lookup that follows finds the planned receiving chain, or nothing
      that can receive; it finds it exactly when the keys are apart. */
  lemma StepFindsReceiving(e: EntryState, remote: Raw, seed: Priv)
    requires FirstIn(e.chains, ChainKeyIds(remote)).None? && remote.point.Pub?
    ensures var e1 := AfterStep(e, remote, remote.point.sk, seed);
            StoredReceiving(e1, remote) ==
            if Apart(e, remote, seed) then Some(FreshChain(ChainOf(e.root, Agree(e.priv, remote.point.sk)), RECEIVING))
            else None
  {
  }

  /** The chain the first pass reads: planned, or stored. */
  function ReadChain(e: EntryState, remote: Raw): Option<ChainState> {
    if FirstIn(e.chains, ChainKeyIds(remote)).None? && remote.point.Pub?
    then Some(FreshChain(ChainOf(e.root, Agree(e.priv, remote.point.sk)), RECEIVING))
    else StoredReceiving(e, remote)
  }

  /** The first, read-only pass of decrypt_entry: the message key, once the MAC holds. */
  function VerifiedKey(e: EntryState, p: Packet, us: Raw, seed: Priv): Result<Secret> {
    match Stepped(e, p.msg.ephemeral, p.msg.previousCounter, seed)
    case Err(x) => Err(x)
    case Ok(_) =>
      match ReadChain(e, p.msg.ephemeral)
      case None => Err(NoReceivingChain)
      case Some(c) =>
        match Taken(c, p.msg.counter)
        case Err(x) => Err(x)
        case Ok(t) => if p.tag == Mac(t.1, e.remoteIdentity, us, p.msg) then Ok(t.1) else Err(BadMac)
  }

  function WithPlan(e: EntryState, remote: Raw, seed: Priv): EntryState {
    if FirstIn(e.chains, ChainKeyIds(remote)).Some? || remote.point.Bad? then e
    else AfterStep(e, remote, remote.point.sk, seed)
  }

  function TakenFrom(e: EntryState, remote: Raw, n: u32): Result<(EntryState, Secret)> {
    match FirstIn(e.chains, ChainKeyIds(remote))
    case None => Err(NoReceivingChain)
    case Some(id) =>
      if !e.chains[id].IsReceiving() then Err(NoReceivingChain)
      else
        match Taken(e.chains[id], n)
        case Err(x) => Err(x)
        case Ok((c, key)) => Ok((e.(chains := e.chains[id := c]), key))
  }

  /** The second, writing pass of decrypt_entry. */
  function Committed(e: EntryState, msg: WhisperMessage, seed: Priv): Result<(EntryState, Secret)> {
    TakenFrom(WithPlan(e, msg.ephemeral, seed), msg.ephemeral, msg.counter)
  }

  /** Reading first and writing after the MAC reaches what writing a copy reaches. */
  lemma TwoPassesAgree(e: EntryState, p: Packet, us: Raw, seed: Priv)
    ensures Authenticated(e, p, us, seed).Ok? <==> VerifiedKey(e, p, us, seed).Ok? && Apart(e, p.msg.ephemeral, seed)
    ensures Authenticated(e, p, us, seed).Ok?
            ==> && Authenticated(e, p, us, seed) == Committed(e, p.msg, seed)
                && Authenticated(e, p, us, seed).value.1 == VerifiedKey(e, p, us, seed).value
    ensures Apart(e, p.msg.ephemeral, seed) && VerifiedKey(e, p, us, seed).Err?
            ==> Authenticated(e, p, us, seed) == Err(VerifiedKey(e, p, us, seed).error)
    ensures VerifiedKey(e, p, us, seed).Ok? && !Apart(e, p.msg.ephemeral, seed)
            ==> Committed(e, p.msg, seed).Err?
  {
    if FirstIn(e.chains, ChainKeyIds(p.msg.ephemeral)).None? && p.msg.ephemeral.point.Pub? {
      StepFindsReceiving(e, p.msg.ephemeral, seed);
    }
  }

  /** The counter read before the step is the one the retired sending chain stopped at. */
  lemma PlannedIsStopped(e: EntryState, remote: Raw, receiving: ChainState)
    requires !receiving.IsSending()
    ensures var chains := WithReceiving(e, remote, receiving);
            var ours := FirstIn(chains, IdsOfText(e.pubKey));
            ours.Some? && chains[ours.value].IsSending()
            ==> StoppedAt(chains, e.pubKey, e.previousCounter) == StoppedAt(e.chains, e.pubKey, e.previousCounter)
  {
  }

  /** A step removes the chain of the last remote key under both encodings of it, and the
      chain of our own last key; and it touches no chain of any other key. */
  lemma StepRetires(e: EntryState, remote: Raw, theirs: Priv, seed: Priv, last: Raw, raw: Raw)
    requires e.lastRemote == Named(last) && raw.point != remote.point && raw.point != Pub(seed)
    ensures var after := AfterStep(e, remote, theirs, seed).chains;
            && (last.Wire? && raw.point == last.point ==> Named(raw) !in after)
            && (raw.point != last.point && (e.pubKey.Named? ==> raw.point != e.pubKey.raw.point) ==>
                  (Named(raw) in after <==> Named(raw) in e.chains)
                  && (Named(raw) in e.chains ==> after[Named(raw)] == e.chains[Named(raw)]))
            && (e.pubKey == Named(raw) ==> Named(raw) !in after)
  {
  }

  /** What decrypt_entry can do to an entry, and its naive reading, side by side: it
      succeeds on the same inputs with the same plaintext and the same entry; when the
      keys are apart it also reports the same error; and once the MAC has verified on
      keys that are apart, only the padding can fail. */
  lemma DecryptRefinesNaive(e: EntryState, p: Packet, us: Raw, seed: Priv)
    ensures var checked, written := VerifiedKey(e, p, us, seed), Committed(e, p.msg, seed);
            && (NaiveDecrypt(e, p, us, seed).Ok? <==> checked.Ok? && written.Ok? && Open(checked.value, p.msg.body).Some?)
            && (NaiveDecrypt(e, p, us, seed).Ok? ==>
                  NaiveDecrypt(e, p, us, seed)
                  == Ok((written.value.0.(pending := None), Open(checked.value, p.msg.body).value)))
            && (checked.Ok? ==> (written.Ok? <==> Apart(e, p.msg.ephemeral, seed)))
            && (Apart(e, p.msg.ephemeral, seed) && checked.Err? ==> NaiveDecrypt(e, p, us, seed) == Err(checked.error))
            && (Apart(e, p.msg.ephemeral, seed) && checked.Ok? && Open(checked.value, p.msg.body).None?
                ==> NaiveDecrypt(e, p, us, seed) == Err(BadPadding))
  {
    TwoPassesAgree(e, p, us, seed);
  }

  /** decrypt_entry as its caller sees it: the first error of the two passes and the padding,
      or the entry and the plaintext. */
  function Decrypted(e: EntryState, p: Packet, us: Raw, seed: Priv): Result<(EntryState, Plaintext)> {
    match VerifiedKey(e, p, us, seed)
    case Err(x) => Err(x)
    case Ok(key) =>
      match Committed(e, p.msg, seed)
      case Err(x) => Err(x)
      case Ok(t) =>
        match Open(key, p.msg.body)
        case None => Err(BadPadding)
        case Some(plain) => Ok((t.0.(pending := None), plain))
  }

  /** It succeeds exactly when the naive decrypt does, with the same entry and plaintext; the
      errors too are the same unless the remote key is our own or the key just drawn. */
  lemma DecryptedIsNaive(e: EntryState, p: Packet, us: Raw, seed: Priv)
    ensures Decrypted(e, p, us, seed).Ok? <==> NaiveDecrypt(e, p, us, seed).Ok?
    ensures NaiveDecrypt(e, p, us, seed).Ok? || Apart(e, p.msg.ephemeral, seed) ==>
              Decrypted(e, p, us, seed) == NaiveDecrypt(e, p, us, seed)
  {
    DecryptRefinesNaive(e, p, us, seed);
  }

  /** decrypt_whisper on the selected entry: the stored entry is read into an object,
      decrypted, and written back only on success. */
  method DecryptStored(e: EntryState, p: Packet, us: Raw, seed: Priv) returns (r: Result<(EntryState, Plaintext)>)
    requires e.WellStored()
    ensures r == Decrypted(e, p, us, seed)
    ensures r.Ok? <==> NaiveDecrypt(e, p, us, seed).Ok?
    ensures r.Ok? ==> r == NaiveDecrypt(e, p, us, seed)
  {
    DecryptedIsNaive(e, p, us, seed);
    var entry := new SessionEntry(e);
    var plain := entry.DecryptEntry(p, us, seed);
    match plain
    case Err(x) => return Err(x);
    case Ok(text) => return Ok((entry.View(), text));
  }

  /** encrypt on the selected entry. */
  method EncryptStored(e: EntryState, plain: Plaintext, us: Raw, ourRegistrationId: u32)
    returns (r: Result<(EntryState, Outgoing)>)
    ensures r == EncryptSpec(e, plain, us, ourRegistrationId)
    ensures r.Ok? && e.pending.Some? ==>
              && r.value.1.PreKeyWhisper?
              && r.value.1.pkmsg.preKeyId == e.pending.value.preKeyId
              && r.value.1.pkmsg.signedPreKeyId == e.pending.value.signedKeyId
  {
    var entry := new SessionEntry(e);
    var sent := entry.Encrypt(plain, us, ourRegistrationId);
    match sent
    case Err(x) => return Err(x);
    case Ok(out) => return Ok((entry.View(), out));
  }

  // ---- stored keys stay behind their chains ----

  lemma FilledStaysBehind(c: ChainState, n: int)
    requires c.Behind() && Filled(c, n).Ok?
    ensures Filled(c, n).value.Behind()
  {
    if n > c.counter {
      FillCloses(c, n);
      ExtendedHolds(c.store, c.key.key, c.counter, n);
      NewestPart(Extended(c.store, c.key.key, c.counter, n));
    }
  }

  lemma TakenStaysBehind(c: ChainState, n: int)
    requires c.Behind() && Taken(c, n).Ok?
    ensures Taken(c, n).value.0.Behind()
  {
    FilledStaysBehind(c, n);
  }

  lemma StepKeepsWellStored(e: EntryState, remote: Raw, theirs: Priv, seed: Priv)
    requires e.WellStored()
    ensures AfterStep(e, remote, theirs, seed).WellStored()
  {
    WithoutIsPart(e.chains, RetiredIds(e));
  }

  lemma {:induction false} WithoutIsPart<V>(m: map<Id, V>, ids: seq<Id>)
    ensures forall id :: id in Without(m, ids) ==> id in m && Without(m, ids)[id] == m[id]
  {
    if ids != [] {
      WithoutIsPart(m - {ids[0]}, ids[1..]);
    }
  }

  /** Decrypting and encrypting leave an entry as DecryptStored asks for it. */
  lemma DecryptKeepsWellStored(e: EntryState, p: Packet, us: Raw, seed: Priv)
    requires e.WellStored() && NaiveDecrypt(e, p, us, seed).Ok?
    ensures NaiveDecrypt(e, p, us, seed).value.0.WellStored()
  {
    var remote := p.msg.ephemeral;
    if FirstIn(e.chains, ChainKeyIds(remote)).None? {
      StepKeepsWellStored(e, remote, remote.point.sk, seed);
    }
    var e1 := Stepped(e, remote, p.msg.previousCounter, seed).value;
    TakenStaysBehind(e1.chains[FirstIn(e1.chains, ChainKeyIds(remote)).value], p.msg.counter);
  }

  lemma EncryptKeepsWellStored(e: EntryState, plain: Plaintext, us: Raw, registrationId: u32)
    requires e.WellStored() && EncryptSpec(e, plain, us, registrationId).Ok?
    ensures EncryptSpec(e, plain, us, registrationId).value.0.WellStored()
  {
    var c := e.chains[SendingChain(e).value];
    TakenStaysBehind(c, c.counter + 1);
  }
}
