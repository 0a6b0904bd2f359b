/**
 The ladder both parties climb: roots R0, R1, ... and the start of each epoch's chain,
 as terms over the ephemeral keys ks in the order they were introduced; and what can be
 computed from a set of known secrets.
 */
module Ladder {
  import opened Keys

  function Root(r0: Secret, ks: seq<Priv>, i: nat): Secret
    requires i < |ks|
  {
    if i == 0 then r0 else RootOf(Root(r0, ks, i - 1), Agree(ks[i - 1], ks[i]))
  }

  /** The first chain key of epoch i, whose sender introduced ks[i]. */
  function Start(r0: Secret, ks: seq<Priv>, i: nat): Secret
    requires 1 <= i < |ks|
  {
    ChainOf(Root(r0, ks, i - 1), Agree(ks[i - 1], ks[i]))
  }

  /** The message key of counter n in epoch i. */
  function MessageKey(r0: Secret, ks: seq<Priv>, i: nat, n: nat): Secret
    requires 1 <= i < |ks|
  {
    Msg(NextN(Start(r0, ks, i), n))
  }

  lemma RootOfPrefix(r0: Secret, ks: seq<Priv>, more: seq<Priv>, i: nat)
    requires i < |ks|
    ensures Root(r0, ks + more, i) == Root(r0, ks, i)
  {
    if i > 0 {
      RootOfPrefix(r0, ks, more, i - 1);
    }
  }

  lemma StartOfPrefix(r0: Secret, ks: seq<Priv>, more: seq<Priv>, i: nat)
    requires 1 <= i < |ks|
    ensures Start(r0, ks + more, i) == Start(r0, ks, i)
  {
    RootOfPrefix(r0, ks, more, i - 1);
  }

  lemma RootRungs(r0: Secret, ks: seq<Priv>, i: nat)
    requires i < |ks| && Rungs(r0) == 0
    ensures Rungs(Root(r0, ks, i)) == i
  {
    if i > 0 {
      RootRungs(r0, ks, i - 1);
    }
  }

  /** Epochs never share a chain: the depth of its root tells a chain's epoch. */
  lemma StartRungs(r0: Secret, ks: seq<Priv>, i: nat)
    requires 1 <= i < |ks| && Rungs(r0) == 0
    ensures Rungs(Start(r0, ks, i)) == i
  {
    RootRungs(r0, ks, i - 1);
  }

  lemma NextNRungs(ck: Secret, n: nat)
    ensures Rungs(NextN(ck, n)) == Rungs(ck)
  {
    if n > 0 {
      NextNRungs(ck, n - 1);
    }
  }

  // ---- what can be computed ----

  /** Everything that can be computed from some private keys and some secrets, public keys
      being public: the KDFs and X25519 can be applied but not inverted. */
  predicate Derives(privs: set<Priv>, known: set<Secret>, t: Secret) {
    t in known ||
    match t
    case Filler => true
    case Dh(a, b) => a in privs || b in privs
    case X3dhRoot(shared) => forall i :: 0 <= i < |shared| ==> Derives(privs, known, shared[i])
    case RootOf(r, d) => Derives(privs, known, r) && Derives(privs, known, d)
    case ChainOf(r, d) => Derives(privs, known, r) && Derives(privs, known, d)
    case Next(c) => Derives(privs, known, c)
    case Msg(c) => Derives(privs, known, c)
  }

  /** A later key of a chain is computable from an earlier one. */
  lemma DerivesForward(privs: set<Priv>, known: set<Secret>, ck: Secret, n: nat)
    requires Derives(privs, known, ck)
    ensures Derives(privs, known, NextN(ck, n))
  {
    if n > 0 {
      DerivesForward(privs, known, ck, n - 1);
    }
  }

  /** An earlier key is not, unless it or its start is known some other way. */
  lemma DerivesBackward(privs: set<Priv>, known: set<Secret>, ck: Secret, n: nat)
    requires !Derives(privs, known, ck)
    requires forall i: nat :: i <= n ==> NextN(ck, i) !in known
    ensures !Derives(privs, known, NextN(ck, n))
  {
    if n > 0 {
      DerivesBackward(privs, known, ck, n - 1);
    }
  }

  /** Who holds neither the initiator's identity key nor the recipient's signed prekey,
      nor a secret of the session, computes no root of the ladder. */
  lemma {:induction false} RootSecret(privs: set<Priv>, ikA: Priv, spkB: Priv, dhs: seq<Secret>, ks: seq<Priv>, i: nat)
    requires i < |ks| && ikA !in privs && spkB !in privs
    requires |dhs| > 1 && dhs[1] == Agree(ikA, spkB)
    ensures !Derives(privs, {}, Root(X3dhRoot(dhs), ks, i))
  {
    if i > 0 {
      RootSecret(privs, ikA, spkB, dhs, ks, i - 1);
    } else {
      assert !Derives(privs, {}, dhs[1]);
    }
  }
}
