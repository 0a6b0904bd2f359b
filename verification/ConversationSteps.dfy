/**
 Every action, honest or hostile, keeps the conversation's invariant.
 */
module ConversationSteps {
  import opened Outcomes
  import opened Keys
  import opened Chains
  import ChainRuns
  import opened Ratchet
  import opened Ladder
  import opened Conversation

  // ---- histories only grow ----

  ghost predicate Wide(h: History) {
    2 <= |h.ks| && |h.log| == |h.ks| == |h.got|
  }

  ghost predicate Grows(h: History, h': History) {
    && Wide(h) && Wide(h')
    && h.ks <= h'.ks
    && forall q :: 0 <= q < |h.ks| ==>
         h.log[q] <= h'.log[q] && h.got[q] <= h'.got[q] && Previous(h.log, q) == Previous(h'.log, q)
  }

  lemma LadderGrows(r0: Secret, h: History, h': History, q: nat)
    requires Grows(h, h') && q < |h.ks|
    ensures Root(r0, h'.ks, q) == Root(r0, h.ks, q)
    ensures q >= 1 ==> Start(r0, h'.ks, q) == Start(r0, h.ks, q)
  {
    assert h'.ks == h.ks + h'.ks[|h.ks|..];
    RootOfPrefix(r0, h.ks, h'.ks[|h.ks|..], q);
    if q >= 1 {
      StartOfPrefix(r0, h.ks, h'.ks[|h.ks|..], q);
    }
  }

  lemma GenuineGrows(s: Setup, h: History, h': History, q: nat, n: nat)
    requires Grows(h, h') && 1 <= q < |h.ks| && n < |h.log[q]|
    ensures Genuine(s, h', q, n) == Genuine(s, h, q, n)
  {
    LadderGrows(s.R0(), h, h', q);
  }

  lemma SentGrows(s: Setup, w: World, h: History, w': World, h': History, j: nat)
    requires LadderOk(s, w, h) && LadderOk(s, w', h') && Grows(h, h')
    requires j < |w.sent| == |h.sentAt| && |w'.sent| == |h'.sentAt|
    requires w.sent <= w'.sent && h.sentAt <= h'.sentAt
    requires SentItemOk(s, w, h, j)
    ensures SentItemOk(s, w', h', j)
  {
    GenuineGrows(s, h, h', h.sentAt[j], w.sent[j].packet.msg.counter);
    assert w'.sent[..j] == w.sent[..j];
  }

  lemma AcceptedGrows(s: Setup, w: World, h: History, w': World, h': History, j: nat)
    requires LadderOk(s, w, h) && LadderOk(s, w', h') && Grows(h, h')
    requires j < |w.accepted| == |h.gotAt| && |w'.accepted| == |h'.gotAt|
    requires w.accepted <= w'.accepted && h.gotAt <= h'.gotAt
    requires AcceptedItemOk(s, w, h, j)
    ensures AcceptedItemOk(s, w', h', j)
  {
  }

  lemma ReceivingGrows(c: ChainState, r0: Secret, h: History, h': History, q: nat)
    requires Grows(h, h') && 1 <= q < |h.ks| && h'.got[q] == h.got[q]
    requires ReceivingAt(c, r0, h, q)
    ensures ReceivingAt(c, r0, h', q)
  {
    LadderGrows(r0, h, h', q);
  }

  /** A side that did not act still stands where it stood. */
  lemma BystanderStays(e: EntryState, r0: Secret, id: Raw, h: History, h': History, p: nat)
    requires Grows(h, h') && p < |h.ks| && AtRung(e, r0, id, h, p)
    requires p >= 1 ==> h'.log[p] == h.log[p]
    requires p >= 2 ==> h'.got[p - 1] == h.got[p - 1]
    requires p + 1 < |h'.ks| ==> h'.got[p + 1] == {}
    ensures AtRung(e, r0, id, h', p)
  {
    LadderGrows(r0, h, h', p);
    if p >= 2 {
      ReceivingGrows(e.chains[Named(WireOf(h.ks, p - 1))], r0, h, h', p - 1);
    }
  }

  lemma SentUnderAppend(sent: seq<Emission>, m: Emission, ephemeral: Raw)
    ensures SentUnder(sent + [m], ephemeral)
         == SentUnder(sent, ephemeral) + if m.packet.msg.ephemeral == ephemeral then 1 else 0
  {
    assert (sent + [m])[..|sent|] == sent;
  }

  lemma SentUnderNone(sent: seq<Emission>, ephemeral: Raw)
    requires forall j :: 0 <= j < |sent| ==> sent[j].packet.msg.ephemeral != ephemeral
    ensures SentUnder(sent, ephemeral) == 0
  {
  }

  // ---- sending ----

  /** Taking the next key of a sending chain leaves its store empty. */
  lemma SendingTakes(c: ChainState)
    requires c.store == map[] && c.key.Live?
    ensures Taken(c, c.counter + 1) == Ok((c.(counter := c.counter + 1, key := Live(Next(c.key.key))), Msg(c.key.key)))
  {
    var one := c.store[c.counter + 1 := Msg(c.key.key)];
    assert |one| == 1;
    assert Filled(c, c.counter + 1) == Filled(OneLevel(c), c.counter + 1);
    assert one - {c.counter + 1} == map[];
  }

  function Sent(h: History, p: nat, plain: Plaintext): History
    requires p < |h.log| && |h.log[p]| < U32
  {
    h.(log := h.log[p := h.log[p] + [plain]], sentAt := h.sentAt + [p])
  }

  /** On rung 0 there is nothing to send with; on every other rung the public key names
      the one sending chain. */
  lemma SendingChainAt(e: EntryState, r0: Secret, id: Raw, h: History, p: nat)
    requires Wide(h) && p < |h.ks| && AtRung(e, r0, id, h, p)
    ensures SendingChain(e) == if p == 0 then Err(NoSendingChain) else Ok(Named(OwnRaw(h.ks, p)))
    ensures |SendingIds(e.chains)| <= 1
  {
    if p >= 1 {
      assert FirstIn(e.chains, IdsOfText(e.pubKey)) == Some(Named(OwnRaw(h.ks, p)));
      assert SendingIds(e.chains) == {Named(OwnRaw(h.ks, p))};
    } else {
      assert SendingIds(e.chains) == {};
    }
  }

  /** The sending chain of rung p yields the key of its next counter and moves on. */
  lemma SendingAdvances(r0: Secret, h: History, p: nat)
    requires Wide(h) && 1 <= p < |h.ks|
    ensures Taken(SendingAt(r0, h, p), |h.log[p]|)
         == Ok((SendingAfter(r0, h, p), MessageKey(r0, h.ks, p, |h.log[p]|)))
  {
    SendingTakes(SendingAt(r0, h, p));
  }

  function SendingAfter(r0: Secret, h: History, p: nat): ChainState
    requires 1 <= p < |h.ks| == |h.log|
  {
    ChainState(|h.log[p]|, Live(NextN(Start(r0, h.ks, p), |h.log[p]| + 1)), SENDING, map[])
  }

  /** An encrypt on the chain that is selected, when the counter still fits. */
  lemma EncryptsOnce(e: EntryState, id: Id, c: ChainState, c': ChainState, key: Secret, m: Packet, plain: Plaintext, us: Raw)
    requires e.pubKey.Named? && SendingChain(e) == Ok(id) && e.chains[id] == c
    requires -1 <= c.counter && c.counter + 1 < U32 && Taken(c, c.counter + 1) == Ok((c', key))
    requires Emitted(e, c.counter + 1, key, plain, us) == m
    ensures EncryptSpec(e, plain, us, 0) == Ok((e.(chains := e.chains[id := c']), Wrapped(e, m, us, 0)))
  {
    EncryptsWith(e, id, c, Ok((c', key)), plain, us, 0);
  }

  lemma EmitsGenuine(s: Setup, e: EntryState, h: History, p: nat, plain: Plaintext)
    requires Wide(h) && 1 <= p < |h.ks| && |h.log[p]| < U32
    requires AtRung(e, s.R0(), s.IdentityOf(Owner(p).Other()), h, p)
    ensures Emitted(e, |h.log[p]|, MessageKey(s.R0(), h.ks, p, |h.log[p]|), plain, s.IdentityOf(Owner(p)))
         == Genuine(s, Sent(h, p, plain), p, |h.log[p]|)
  {
  }

  /** Emitting is recorded by one more plaintext in the log of the rung. */
  lemma SentIsAfter(r0: Secret, h: History, p: nat, plain: Plaintext)
    requires Wide(h) && 1 <= p < |h.ks| && |h.log[p]| < U32
    ensures SendingAt(r0, Sent(h, p, plain), p) == SendingAfter(r0, h, p)
  {
  }

  /** encrypt on an entry at rung p emits the genuine next packet ... */
  lemma EncryptSucceeds(s: Setup, e: EntryState, h: History, p: nat, plain: Plaintext)
    requires Wide(h) && 1 <= p < |h.ks| && |h.log[p]| < U32
    requires AtRung(e, s.R0(), s.IdentityOf(Owner(p).Other()), h, p)
    ensures EncryptSpec(e, plain, s.IdentityOf(Owner(p)), 0)
            == Ok((e.(chains := e.chains[Named(OwnRaw(h.ks, p)) := SendingAt(s.R0(), Sent(h, p, plain), p)]),
                   Wrapped(e, Genuine(s, Sent(h, p, plain), p, |h.log[p]|), s.IdentityOf(Owner(p)), 0)))
  {
    SendingChainAt(e, s.R0(), s.IdentityOf(Owner(p).Other()), h, p);
    SentIsAfter(s.R0(), h, p, plain);
    EmitsGenuine(s, e, h, p, plain);
    EncryptsNext(s.R0(), h, p, e, Genuine(s, Sent(h, p, plain), p, |h.log[p]|), plain, s.IdentityOf(Owner(p)));
  }

  lemma EncryptsNext(r0: Secret, h: History, p: nat, e: EntryState, m: Packet, plain: Plaintext, us: Raw)
    requires Wide(h) && 1 <= p < |h.ks| && |h.log[p]| < U32
    requires e.pubKey.Named? && SendingChain(e) == Ok(Named(OwnRaw(h.ks, p))) && e.chains[Named(OwnRaw(h.ks, p))] == SendingAt(r0, h, p)
    requires Emitted(e, |h.log[p]|, MessageKey(r0, h.ks, p, |h.log[p]|), plain, us) == m
    ensures EncryptSpec(e, plain, us, 0)
         == Ok((e.(chains := e.chains[Named(OwnRaw(h.ks, p)) := SendingAfter(r0, h, p)]), Wrapped(e, m, us, 0)))
  {
    SendingAdvances(r0, h, p);
    EncryptsOnce(e, Named(OwnRaw(h.ks, p)), SendingAt(r0, h, p), SendingAfter(r0, h, p),
                 MessageKey(r0, h.ks, p, |h.log[p]|), m, plain, us);
  }

  /** ... and fails only before a recipient's first ratchet step, or with the counter
      exhausted. */
  lemma EncryptRefuses(e: EntryState, r0: Secret, id: Raw, h: History, p: nat, plain: Plaintext, us: Raw)
    requires Wide(h) && p < |h.ks| && (p >= 1 ==> |h.log[p]| == U32)
    requires AtRung(e, r0, id, h, p)
    ensures EncryptSpec(e, plain, us, 0) == Err(if p == 0 then NoSendingChain else CounterTooWide)
  {
    SendingChainAt(e, r0, id, h, p);
    if p >= 1 {
      SendingAdvances(r0, h, p);
      EncryptsWith(e, Named(OwnRaw(h.ks, p)), SendingAt(r0, h, p), Ok((SendingAfter(r0, h, p), MessageKey(r0, h.ks, p, |h.log[p]|))), plain, us, 0);
    }
  }

  lemma SendGrows(s: Setup, w: World, h: History, side: Side, plain: Plaintext)
    requires LadderOk(s, w, h)
    requires var p := h.Rung(side); p >= 1 && |h.log[p]| < U32
    ensures Grows(h, Sent(h, h.Rung(side), plain))
  {
    var p := h.Rung(side);
    var h' := Sent(h, p, plain);
    forall q | 0 <= q < |h.ks|
      ensures Previous(h.log, q) == Previous(h'.log, q)
    {
      assert q - 2 != p;
    }
  }

  lemma RungParity(s: Setup, w: World, h: History, side: Side)
    requires LadderOk(s, w, h)
    ensures Owner(h.Rung(side)) == side && h.Rung(side) < |h.ks|
  {
  }

  lemma SendKeepsLadder(s: Setup, w: World, h: History, w': World, side: Side, plain: Plaintext)
    requires LadderOk(s, w, h) && w'.next == w.next
    requires var p := h.Rung(side); 1 <= p < |h.log| && |h.log[p]| < U32
    ensures LadderOk(s, w', Sent(h, h.Rung(side), plain))
  {
  }

  lemma {:induction false} SendKeepsInv(s: Setup, w: World, h: History, side: Side, plain: Plaintext) returns (h': History)
    requires Inv(s, w, h)
    ensures Inv(s, AfterSend(s, w, side, plain), h')
    ensures Grows(h, h')
  {
    var p := h.Rung(side);
    RungParity(s, w, h, side);
    if p == 0 || |h.log[p]| == U32 {
      h' := h;
      EncryptRefuses(w.Entry(side), s.R0(), s.IdentityOf(side.Other()), h, p, plain, s.IdentityOf(side));
    } else {
      h' := Sent(h, p, plain);
      EncryptSucceeds(s, w.Entry(side), h, p, plain);
      var w' := SentWorld(s, w, h, side, plain);
      WrappingKeepsPacket(w.Entry(side), Genuine(s, h', p, |h.log[p]|), s.IdentityOf(side));
      assert AfterSend(s, w, side, plain) == w';
      SentWorldInv(s, w, h, side, plain);
    }
  }

  lemma WrappingKeepsPacket(e: EntryState, p: Packet, us: Raw)
    ensures Wrapped(e, p, us, 0).Inner() == p
  {
  }

  predicate CanSend(h: History, p: nat) {
    1 <= p < |h.log| && |h.log[p]| < U32
  }

  ghost function SentWorld(s: Setup, w: World, h: History, side: Side, plain: Plaintext): World
    requires LadderOk(s, w, h)
    requires CanSend(h, h.Rung(side))
  {
    var p, e := h.Rung(side), w.Entry(side);
    var h' := Sent(h, p, plain);
    w.With(side, e.(chains := e.chains[Named(OwnRaw(h.ks, p)) := SendingAt(s.R0(), h', p)]))
     .(sent := w.sent + [Emission(side, Genuine(s, h', p, |h.log[p]|), plain)])
  }

  lemma SentWorldLogs(s: Setup, w: World, h: History, w': World, side: Side, plain: Plaintext)
    requires LadderOk(s, w, h) && SentOk(s, w, h) && AcceptedOk(s, w, h)
    requires CanSend(h, h.Rung(side)) && Grows(h, Sent(h, h.Rung(side), plain))
    requires w' == SentWorld(s, w, h, side, plain)
    ensures var h' := Sent(h, h.Rung(side), plain);
            LadderOk(s, w', h') && SentOk(s, w', h') && AcceptedOk(s, w', h')
  {
    SendKeepsLadder(s, w, h, w', side, plain);
    SentAppends(s, w, h, w', side, plain);
    AcceptedStays(s, w, h, w', Sent(h, h.Rung(side), plain));
  }

  lemma SentWorldSender(s: Setup, w: World, h: History, side: Side, plain: Plaintext)
    requires LadderOk(s, w, h) && SideOk(s, w, h, side)
    requires CanSend(h, h.Rung(side)) && Grows(h, Sent(h, h.Rung(side), plain))
    requires LadderOk(s, SentWorld(s, w, h, side, plain), Sent(h, h.Rung(side), plain))
    ensures SideOk(s, SentWorld(s, w, h, side, plain), Sent(h, h.Rung(side), plain), side)
  {
    RungParity(s, w, h, side);
    SenderAdvances(s, w.Entry(side), h, h.Rung(side), plain);
  }

  lemma SentWorldBystander(s: Setup, w: World, h: History, side: Side, plain: Plaintext)
    requires LadderOk(s, w, h) && SideOk(s, w, h, side.Other())
    requires CanSend(h, h.Rung(side)) && Grows(h, Sent(h, h.Rung(side), plain))
    requires LadderOk(s, SentWorld(s, w, h, side, plain), Sent(h, h.Rung(side), plain))
    ensures SideOk(s, SentWorld(s, w, h, side, plain), Sent(h, h.Rung(side), plain), side.Other())
  {
    RungParity(s, w, h, side);
    assert side.Other().Other() == side;
    BystanderStays(w.Entry(side.Other()), s.R0(), s.IdentityOf(side), h, Sent(h, h.Rung(side), plain), h.Rung(side.Other()));
  }

  lemma SentWorldInv(s: Setup, w: World, h: History, side: Side, plain: Plaintext)
    requires Inv(s, w, h)
    requires CanSend(h, h.Rung(side))
    ensures Inv(s, SentWorld(s, w, h, side, plain), Sent(h, h.Rung(side), plain))
    ensures Grows(h, Sent(h, h.Rung(side), plain))
  {
    SendGrows(s, w, h, side, plain);
    SentWorldLogs(s, w, h, SentWorld(s, w, h, side, plain), side, plain);
    assert SideOk(s, w, h, side) && SideOk(s, w, h, side.Other());
    SentWorldSender(s, w, h, side, plain);
    SentWorldBystander(s, w, h, side, plain);
    InvFromSides(s, SentWorld(s, w, h, side, plain), Sent(h, h.Rung(side), plain), side);
  }

  lemma AcceptedStays(s: Setup, w: World, h: History, w': World, h': History)
    requires LadderOk(s, w, h) && LadderOk(s, w', h') && Grows(h, h')
    requires AcceptedOk(s, w, h) && w'.accepted == w.accepted && h'.gotAt == h.gotAt && h'.got == h.got
    ensures AcceptedOk(s, w', h')
  {
    forall j | 0 <= j < |w'.accepted|
      ensures AcceptedItemOk(s, w', h', j)
    {
      AcceptedGrows(s, w, h, w', h', j);
    }
    forall q, n | 0 <= q < |h'.got| && n in h'.got[q]
      ensures Logged(w', h', q, n)
    {
      assert Logged(w, h, q, n);
    }
  }

  lemma SenderAdvances(s: Setup, e: EntryState, h: History, p: nat, plain: Plaintext)
    requires Wide(h) && 1 <= p < |h.ks| && |h.log[p]| < U32
    requires Grows(h, Sent(h, p, plain))
    requires AtRung(e, s.R0(), s.IdentityOf(Owner(p).Other()), h, p)
    ensures var h' := Sent(h, p, plain);
            AtRung(e.(chains := e.chains[Named(OwnRaw(h.ks, p)) := SendingAt(s.R0(), h', p)]),
                   s.R0(), s.IdentityOf(Owner(p).Other()), h', p)
  {
    var h' := Sent(h, p, plain);
    if p >= 2 {
      ReceivingGrows(e.chains[Named(WireOf(h.ks, p - 1))], s.R0(), h, h', p - 1);
    }
  }

  lemma SentAppends(s: Setup, w: World, h: History, w': World, side: Side, plain: Plaintext)
    requires LadderOk(s, w, h) && SentOk(s, w, h)
    requires var p := h.Rung(side); p >= 1 && |h.log[p]| < U32 && Grows(h, Sent(h, p, plain))
    requires var p := h.Rung(side);
             LadderOk(s, w', Sent(h, p, plain))
             && w'.sent == w.sent + [Emission(side, Genuine(s, Sent(h, p, plain), p, |h.log[p]|), plain)]
    ensures SentOk(s, w', Sent(h, h.Rung(side), plain))
  {
    var p := h.Rung(side);
    var h' := Sent(h, p, plain);
    var m := Emission(side, Genuine(s, h', p, |h.log[p]|), plain);
    RungParity(s, w, h, side);
    forall j | 0 <= j < |w'.sent|
      ensures SentItemOk(s, w', h', j)
    {
      if j < |w.sent| {
        SentGrows(s, w, h, w', h', j);
      } else {
        assert w'.sent[..j] == w.sent;
        assert CountOk(w.sent, h, p);
      }
    }
    forall q | 1 <= q < |h'.ks|
      ensures CountOk(w'.sent, h', q)
    {
      assert CountOk(w.sent, h, q);
      SentUnderAppend(w.sent, m, WireOf(h.ks, q));
      if q != p {
        assert Differ(h.ks, if q < p then q else p, if q < p then p else q);
      }
    }
  }
}
