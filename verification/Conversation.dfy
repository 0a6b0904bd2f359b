/**
 Two parties over a hostile network.  Alice has run the X3DH initiator, Bob the matching
 recipient; from then on either may encrypt at any time, and the network may deliver
 anything to either: any packet ever emitted, in any order and any number of times, any
 rewriting of one, and any packet whose tag an attacker can compute.
 */
module Conversation {
  import opened Outcomes
  import opened Keys
  import opened Chains
  import opened Ratchet
  import opened Ladder
  import X3dh

  datatype Side = Alice | Bob
  {
    function Other(): Side { if this == Alice then Bob else Alice }
  }

  /** The X3DH key material, the attacker's private keys, and the first private key a
      random draw may give. */
  datatype Setup = Setup(ikA: Priv, ekA: Priv, ikB: Priv, spkB: Priv, opkB: Option<Priv>,
                         evil: set<Priv>, supply: Priv)
  {
    /** Distinct honest keys, the two identity-bearing ones unknown to the attacker, and
        draws that repeat none of them. */
    ghost predicate Sound() {
      && ekA != spkB && ekA != ikA && ikA != spkB
      && ikA !in evil && spkB !in evil
      && ikA < supply && ekA < supply && spkB < supply
    }

    function R0(): (r0: Secret)
      ensures r0.X3dhRoot? && |r0.shared| > 1 && r0.shared[1] == Agree(ikA, spkB)
    {
      X3dh.MasterRoot(ikA, ekA, ikB, spkB, opkB)
    }

    function IdentityOf(side: Side): Raw {
      match side
      case Alice => Wire(Pub(ikA))
      case Bob => Wire(Pub(ikB))
    }
  }

  datatype Emission = Emission(sender: Side, packet: Packet, plain: Plaintext)
  datatype Acceptance = Acceptance(reader: Side, ephemeral: Raw, counter: u32, plain: Plaintext)

  /** Both entries, everything ever sent, everything ever accepted, and the next draw. */
  datatype World = World(alice: EntryState, bob: EntryState, sent: seq<Emission>, accepted: seq<Acceptance>, next: Priv)
  {
    function Entry(side: Side): EntryState {
      match side
      case Alice => alice
      case Bob => bob
    }

    function With(side: Side, e: EntryState): World {
      match side
      case Alice => this.(alice := e)
      case Bob => this.(bob := e)
    }
  }

  datatype Action = Send(sender: Side, plain: Plaintext) | Deliver(reader: Side, packet: Packet)

  function Initial(s: Setup): World {
    World(X3dh.InitiatorEntry(s.R0(), s.ekA, s.spkB, s.IdentityOf(Bob), 0, 0,
                              if s.opkB.Some? then Some(0) else None),
          X3dh.RecipientEntry(s.R0(), s.ekA, s.spkB, Bare(Pub(s.spkB)), s.IdentityOf(Alice), 0),
          [], [], s.supply)
  }

  /** The two X3DH builders, run with one set of keys on the two sides, reach this world. */
  method Handshake(s: Setup) returns (w: World)
    ensures w == Initial(s)
  {
    var opkPub := if s.opkB.Some? then Some(Wire(Pub(s.opkB.value))) else None;
    var opkId := if s.opkB.Some? then Some(0) else None;
    var spkPub := Wire(Pub(s.spkB));
    var alice := X3dh.BuildInitial(
      X3dh.X3dhParams(s.ikA, s.IdentityOf(Alice), spkPub, X3dh.Signature(s.ikB, spkPub), opkPub, opkId,
                      s.IdentityOf(Bob), spkPub, 0, 0), s.ekA);
    var bob := X3dh.BuildRecipient(s.ikB, s.spkB, Bare(Pub(s.spkB)), s.opkB, s.IdentityOf(Alice), Bare(Pub(s.ekA)), 0);
    return World(alice.value, bob.value, [], [], s.supply);
  }

  ghost function AfterSend(s: Setup, w: World, side: Side, plain: Plaintext): World {
    match EncryptSpec(w.Entry(side), plain, s.IdentityOf(side), 0)
    case Err(_) => w
    case Ok((e, out)) => w.With(side, e).(sent := w.sent + [Emission(side, out.Inner(), plain)])
  }

  function AfterDeliver(s: Setup, w: World, side: Side, p: Packet): World {
    match NaiveDecrypt(w.Entry(side), p, s.IdentityOf(side), w.next)
    case Err(_) => w.(next := w.next + 1)
    case Ok((e, plain)) => AfterReading(w, side, e, p.msg.ephemeral, p.msg.counter, plain)
  }

  function AfterReading(w: World, side: Side, e: EntryState, ephemeral: Raw, counter: u32, plain: Plaintext): World {
    w.With(side, e).(next := w.next + 1, accepted := w.accepted + [Acceptance(side, ephemeral, counter, plain)])
  }

  ghost function After(s: Setup, w: World, a: Action): World {
    match a
    case Send(side, plain) => AfterSend(s, w, side, plain)
    case Deliver(side, p) => AfterDeliver(s, w, side, p)
  }

  /** The tags an attacker can put on a packet: arbitrary bytes, a tag seen on the network,
      or a MAC under a key that is computable from the attacker's private keys. */
  ghost predicate Producible(s: Setup, w: World, tag: Tag) {
    || tag.Noise?
    || (exists j :: 0 <= j < |w.sent| && w.sent[j].packet.tag == tag)
    || (tag.Mac? && Derives(s.evil, {}, tag.key))
  }

  ghost predicate Possible(s: Setup, w: World, a: Action) {
    a.Deliver? ==> Producible(s, w, a.packet.tag)
  }

  /** A run: what was done, and the world before the first action and after each. */
  datatype Run = Run(acts: seq<Action>, worlds: seq<World>)

  ghost predicate IsRun(s: Setup, run: Run) {
    && |run.worlds| == |run.acts| + 1
    && Begins(s, run)
    && (forall i :: 0 <= i < |run.acts| ==> Steps(s, run, i))
  }

  ghost predicate Begins(s: Setup, run: Run)
    requires |run.worlds| > 0
  {
    run.worlds[0] == Initial(s)
  }

  ghost predicate Steps(s: Setup, run: Run, i: nat)
    requires |run.worlds| == |run.acts| + 1 && i < |run.acts|
  {
    Possible(s, run.worlds[i], run.acts[i]) && run.worlds[i + 1] == After(s, run.worlds[i], run.acts[i])
  }

  // ---- the invariant ----

  /** The plaintexts of one epoch, in counter order; counters fit the wire's u32. */
  type Epoch = l: seq<Plaintext> | |l| <= U32

  /** The hidden history behind a world: the ladder keys, the plaintexts sent and the
      counters accepted in each epoch, the rung each side stands on, and the epoch of each
      emission and acceptance.  Alice owns the odd rungs, Bob the even ones. */
  datatype History = History(ks: seq<Priv>, log: seq<Epoch>, got: seq<set<int>>,
                             alice: nat, bob: nat, sentAt: seq<nat>, gotAt: seq<nat>)
  {
    function Rung(side: Side): nat {
      match side
      case Alice => alice
      case Bob => bob
    }
  }

  function Owner(epoch: nat): Side {
    if epoch % 2 == 1 then Alice else Bob
  }

  /** The map key a side's sending chain has on rung p: X3DH keys were stored unprefixed. */
  function OwnRaw(ks: seq<Priv>, p: nat): Raw
    requires p < |ks|
  {
    if p <= 1 then Bare(Pub(ks[p])) else Wire(Pub(ks[p]))
  }

  function WireOf(ks: seq<Priv>, p: nat): Raw
    requires p < |ks|
  {
    Wire(Pub(ks[p]))
  }

  function LastRemoteRaw(ks: seq<Priv>, p: nat): Raw
    requires p < |ks| && 2 <= |ks|
  {
    if p == 0 then Bare(Pub(ks[1])) else if p == 1 then Bare(Pub(ks[0])) else Wire(Pub(ks[p - 1]))
  }

  /** previous_counter as sent in epoch p. */
  function Previous(log: seq<Epoch>, p: nat): u32
    requires p < |log|
  {
    if p < 2 || |log[p - 2]| == 0 then 0 else |log[p - 2]| - 1
  }

  function SendingAt(r0: Secret, h: History, p: nat): ChainState
    requires 1 <= p < |h.ks| && |h.log| == |h.ks|
  {
    ChainState(|h.log[p]| - 1, Live(NextN(Start(r0, h.ks, p), |h.log[p]|)), SENDING, map[])
  }

  /** A receiving chain for epoch q: on the sender's chain, no further than the sender, its
      store holding the right keys of counters passed over and not yet accepted, all those
      of them among the last MAX_RETAINED counters. */
  ghost predicate ReceivingAt(c: ChainState, r0: Secret, h: History, q: nat)
    requires 1 <= q < |h.ks| && |h.log| == |h.ks| == |h.got|
  {
    && c.kind == RECEIVING
    && -1 <= c.counter < |h.log[q]|
    && c.key == Live(NextN(Start(r0, h.ks, q), c.counter + 1))
    && (forall i :: i in c.store ==> 0 <= i <= c.counter && i !in h.got[q])
    && (forall i: nat :: i in c.store ==> c.store[i] == MessageKey(r0, h.ks, q, i))
    && (forall i :: i in h.got[q] ==> 0 <= i <= c.counter)
    && |c.store| <= MAX_RETAINED
    && Complete(c, h.got[q])
  }

  /** Of the last MAX_RETAINED counters a chain has come to, each was accepted or is stored. */
  ghost predicate Complete(c: ChainState, got: set<int>) {
    forall i :: 0 <= i <= c.counter && Recent(c, i) ==> i in c.store || i in got
  }

  predicate Recent(c: ChainState, i: int) {
    c.counter - MAX_RETAINED < i
  }

  ghost predicate ChainsAt(chains: map<Id, ChainState>, r0: Secret, h: History, p: nat)
    requires p < |h.ks| && |h.log| == |h.ks| == |h.got|
  {
    && chains.Keys == (if p >= 1 then {Named(OwnRaw(h.ks, p))} else {})
                      + (if p >= 2 then {Named(WireOf(h.ks, p - 1))} else {})
    && (p >= 1 ==> chains[Named(OwnRaw(h.ks, p))] == SendingAt(r0, h, p))
    && (p >= 2 ==> ReceivingAt(chains[Named(WireOf(h.ks, p - 1))], r0, h, p - 1))
  }

  /** An entry that stands on rung p. */
  ghost predicate AtRung(e: EntryState, r0: Secret, remoteIdentity: Raw, h: History, p: nat)
    requires p < |h.ks| && 2 <= |h.ks| && |h.log| == |h.ks| == |h.got|
  {
    && e.priv == h.ks[p]
    && e.root == Root(r0, h.ks, p)
    && e.remoteIdentity == remoteIdentity
    && e.pubKey == Named(OwnRaw(h.ks, p))
    && e.lastRemote == Named(LastRemoteRaw(h.ks, p))
    && e.previousCounter == Previous(h.log, p)
    && ChainsAt(e.chains, r0, h, p)
    && (p + 1 < |h.ks| ==> h.got[p + 1] == {})
  }

  /** The packet sent with counter n in epoch q. */
  function Genuine(s: Setup, h: History, q: nat, n: nat): Packet
    requires 1 <= q < |h.ks| == |h.log| && n < |h.log[q]|
  {
    var key := MessageKey(s.R0(), h.ks, q, n);
    var msg := WhisperMessage(WireOf(h.ks, q), n, Previous(h.log, q), Sealed(key, h.log[q][n]));
    Packet(msg, Mac(key, s.IdentityOf(Owner(q)), s.IdentityOf(Owner(q).Other()), msg))
  }

  /** A packet is the one sent in epoch q with its counter. */
  predicate IsGenuine(s: Setup, h: History, q: int, m: Packet) {
    1 <= q < |h.ks| == |h.log| && m.msg.counter < |h.log[q]| && m == Genuine(s, h, q, m.msg.counter)
  }

  /** How many packets were emitted under an ephemeral key. */
  function SentUnder(sent: seq<Emission>, ephemeral: Raw): nat {
    if sent == [] then 0
    else SentUnder(sent[..|sent| - 1], ephemeral)
         + if sent[|sent| - 1].packet.msg.ephemeral == ephemeral then 1 else 0
  }

  predicate Differ(ks: seq<Priv>, i: nat, j: nat)
    requires i < |ks| && j < |ks|
  {
    ks[i] != ks[j]
  }

  ghost predicate LadderOk(s: Setup, w: World, h: History) {
    && 2 <= |h.ks| && |h.log| == |h.ks| == |h.got|
    && h.ks[0] == s.spkB && h.ks[1] == s.ekA
    && (forall i, j :: 0 <= i < j < |h.ks| ==> Differ(h.ks, i, j))
    && (forall i :: 2 <= i < |h.ks| ==> s.supply <= h.ks[i])
    && (forall i :: 0 <= i < |h.ks| ==> h.ks[i] < w.next)
    && s.supply <= w.next
    && h.alice % 2 == 1 && h.bob % 2 == 0
    && (h.alice == h.bob + 1 || h.bob == h.alice + 1)
    && |h.ks| == (if h.alice > h.bob then h.alice else h.bob) + 1
    && h.log[0] == []
  }

  ghost predicate SentOk(s: Setup, w: World, h: History)
    requires LadderOk(s, w, h)
  {
    && |h.sentAt| == |w.sent|
    && (forall j :: 0 <= j < |w.sent| ==> SentItemOk(s, w, h, j))
    && (forall q :: 1 <= q < |h.ks| ==> CountOk(w.sent, h, q))
  }

  /** Epoch q has as many emissions as plaintexts. */
  ghost predicate CountOk(sent: seq<Emission>, h: History, q: nat)
    requires q < |h.ks| == |h.log|
  {
    SentUnder(sent, WireOf(h.ks, q)) == |h.log[q]|
  }

  /** Emission j is the genuine packet of its epoch and counter, and its counter is the
      number of earlier emissions under the same key. */
  ghost predicate SentItemOk(s: Setup, w: World, h: History, j: nat)
    requires LadderOk(s, w, h) && j < |w.sent| == |h.sentAt|
  {
    var q, m := h.sentAt[j], w.sent[j];
    var n := m.packet.msg.counter;
    && 1 <= q < |h.ks| && n < |h.log[q]|
    && m == Emission(Owner(q), Genuine(s, h, q, n), h.log[q][n])
    && NthUnder(w.sent, j, WireOf(h.ks, q), n)
  }

  /** Before emission j there were n emissions under this key. */
  predicate NthUnder(sent: seq<Emission>, j: nat, ephemeral: Raw, n: nat)
    requires j <= |sent|
  {
    SentUnder(sent[..j], ephemeral) == n
  }

  ghost predicate AcceptedOk(s: Setup, w: World, h: History)
    requires LadderOk(s, w, h)
  {
    && |h.gotAt| == |w.accepted|
    && (forall j :: 0 <= j < |w.accepted| ==> AcceptedItemOk(s, w, h, j))
    && (forall i, j :: 0 <= i < j < |w.accepted| ==>
          w.accepted[i].ephemeral != w.accepted[j].ephemeral || w.accepted[i].counter != w.accepted[j].counter)
    && (forall q, n :: 0 <= q < |h.got| && n in h.got[q] ==> Logged(w, h, q, n))
  }

  /** Counter n of epoch q is among the acceptances. */
  ghost predicate Logged(w: World, h: History, q: nat, n: int)
    requires |h.gotAt| == |w.accepted|
  {
    exists j :: 0 <= j < |w.accepted| && h.gotAt[j] == q && w.accepted[j].counter == n
  }

  ghost predicate AcceptedItemOk(s: Setup, w: World, h: History, j: nat)
    requires LadderOk(s, w, h) && j < |w.accepted| == |h.gotAt|
  {
    var q, m := h.gotAt[j], w.accepted[j];
    && 1 <= q < |h.ks| && m.counter in h.got[q] && m.counter < |h.log[q]|
    && m == Acceptance(Owner(q).Other(), WireOf(h.ks, q), m.counter, h.log[q][m.counter])
  }

  ghost predicate SideOk(s: Setup, w: World, h: History, side: Side)
    requires LadderOk(s, w, h)
  {
    AtRung(w.Entry(side), s.R0(), s.IdentityOf(side.Other()), h, h.Rung(side))
  }

  ghost predicate Inv(s: Setup, w: World, h: History) {
    && LadderOk(s, w, h)
    && SideOk(s, w, h, Alice)
    && SideOk(s, w, h, Bob)
    && SentOk(s, w, h)
    && AcceptedOk(s, w, h)
  }

  /** The invariant, from its parts, whichever side is named first. */
  lemma InvFromSides(s: Setup, w: World, h: History, side: Side)
    requires LadderOk(s, w, h) && SentOk(s, w, h) && AcceptedOk(s, w, h)
    requires SideOk(s, w, h, side) && SideOk(s, w, h, side.Other())
    ensures Inv(s, w, h)
  {
  }

  // ---- initially ----

  function InitialHistory(s: Setup): History {
    History([s.spkB, s.ekA], [[], []], [{}, {}], 1, 0, [], [])
  }

  lemma InitialInv(s: Setup)
    requires s.Sound()
    ensures Inv(s, Initial(s), InitialHistory(s))
  {
    var w, h := Initial(s), InitialHistory(s);
    AgreeCommutes(s.ekA, s.spkB);
    assert Root(s.R0(), h.ks, 1) == RootOf(s.R0(), Agree(s.spkB, s.ekA));
    assert Start(s.R0(), h.ks, 1) == ChainOf(s.R0(), Agree(s.spkB, s.ekA));
  }
}
