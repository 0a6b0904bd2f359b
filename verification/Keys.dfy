/**
 Key material as terms.  Every primitive is an injective constructor: nothing but
 equal inputs gives equal outputs, which is the usual symbolic reading of X25519,
 HKDF and HMAC.  Private keys are named by numbers.
 */
module Keys {
  import opened Outcomes

  type Priv = nat

  /** What scalar_multiply is given: the public key of some private key, or bytes it
      refuses (wrong length, or a small-order point). */
  datatype Point = Pub(sk: Priv) | Bad(bytes: nat)

  /** A public-key byte string: 33 bytes led by 0x05, or anything else.  The two forms
      of one point are different byte strings. */
  datatype Raw = Wire(point: Point) | Bare(point: Point)

  /** A text used as a chain-map key: empty, the base64 of some bytes, or a text that
      is not base64.  Base64 is injective, so the bytes stand for their text. */
  datatype Id = Empty | Named(raw: Raw) | Unparsed(text: string)

  datatype Secret =
    | Filler                                // 32 bytes of 0xff
    | Dh(lo: Priv, hi: Priv)
    | X3dhRoot(shared: seq<Secret>)         // HKDF(shared, zeros, "WhisperText"), chunk 0
    | RootOf(root: Secret, dh: Secret)      // HKDF(dh, root, "WhisperRatchet"), chunk 0
    | ChainOf(root: Secret, dh: Secret)     // HKDF(dh, root, "WhisperRatchet"), chunk 1
    | Next(chain: Secret)                   // HMAC(chain, 0x02)
    | Msg(chain: Secret)                    // HMAC(chain, 0x01)

  /** X25519: the shared secret depends on the unordered pair of private keys only. */
  function Agree(a: Priv, b: Priv): (s: Secret)
    ensures s.Dh?
  {
    if a <= b then Dh(a, b) else Dh(b, a)
  }

  function ScalarMultiply(a: Priv, p: Point): Result<Secret> {
    match p
    case Pub(b) => Ok(Agree(a, b))
    case Bad(_) => Err(BadPublicKey)
  }

  lemma AgreeCommutes(a: Priv, b: Priv)
    ensures Agree(a, b) == Agree(b, a)
  {
  }

  lemma AgreeInjective(a: Priv, b: Priv, c: Priv)
    ensures Agree(a, b) == Agree(a, c) ==> b == c
  {
  }

  /** The chain key n steps further along the HMAC chain. */
  function NextN(ck: Secret, n: nat): Secret {
    if n == 0 then ck else Next(NextN(ck, n - 1))
  }

  lemma NextNFirst(ck: Secret, n: nat)
    ensures NextN(ck, n + 1) == NextN(Next(ck), n)
  {
    if n > 0 {
      NextNFirst(ck, n - 1);
    }
  }

  lemma NextNAdds(ck: Secret, m: nat, n: nat)
    ensures NextN(NextN(ck, m), n) == NextN(ck, m + n)
  {
    if n > 0 {
      NextNAdds(ck, m, n - 1);
    }
  }

  /** Where an HMAC chain started, and how many steps along it a key is. */
  function Origin(k: Secret): Secret {
    match k
    case Next(c) => Origin(c)
    case _ => k
  }

  function Position(k: Secret): nat {
    match k
    case Next(c) => 1 + Position(c)
    case _ => 0
  }

  lemma NextNPlace(ck: Secret, n: nat)
    ensures Origin(NextN(ck, n)) == Origin(ck)
    ensures Position(NextN(ck, n)) == n + Position(ck)
  {
    if n > 0 {
      NextNPlace(ck, n - 1);
    }
  }

  /** Two keys on HMAC chains that start at ratchet outputs are equal only at the same
      step of the same chain. */
  lemma {:induction false} NextNInjective(a: Secret, m: nat, b: Secret, n: nat)
    requires a.ChainOf? && b.ChainOf?
    requires NextN(a, m) == NextN(b, n)
    ensures a == b && m == n
  {
    NextNPlace(a, m);
    NextNPlace(b, n);
  }

  /** How many DH ratchet steps a term has behind it. */
  function Rungs(k: Secret): nat {
    match k
    case RootOf(r, _) => 1 + Rungs(r)
    case ChainOf(r, _) => 1 + Rungs(r)
    case Next(c) => Rungs(c)
    case Msg(c) => Rungs(c)
    case _ => 0
  }

  /** as_x25519 / strip_prefix / strip05: both encodings name one point. */
  function PointOf(raw: Raw): Point {
    raw.point
  }

  /** The 33-byte form encrypt puts on the wire: a 32-byte key gains the 0x05 prefix. */
  function WireForm(raw: Raw): Raw {
    match raw
    case Bare(Pub(k)) => Wire(Pub(k))
    case _ => raw
  }

  /** chain_key_ids: the map keys a chain of this public key may be stored under,
      canonical form first. */
  function ChainKeyIds(raw: Raw): (ids: seq<Id>)
    ensures |ids| >= 1
  {
    match raw
    case Wire(p) => [Named(Wire(p)), Named(Bare(p))]
    case Bare(p) => [Named(Bare(p))]
  }

  /** chain_key_ids_b64. */
  function IdsOfText(id: Id): (ids: seq<Id>)
    ensures |ids| >= 1
  {
    match id
    case Named(raw) => ChainKeyIds(raw)
    case _ => [id]
  }
}
