/**
 The three HKDF loops: derive_secrets (x3dh.rs), derive_secrets_n (ratchet.rs) and
 deriveSecrets (crypto.js), all against the blocks of RFC 5869, sections 2.2 and 2.3.
 */
module Hkdf {

  type Bytes = seq<bv8>

  datatype Error = ChunkCount | SaltLength
  datatype Result<+T> = Ok(value: T) | Err(error: Error)

  /** HMAC-SHA-256: any function of key and data that gives 32 bytes. */
  datatype Hmac = Hmac(mac: (Bytes, Bytes) -> Bytes)
  {
    ghost predicate Sized() {
      forall key, data :: |mac(key, data)| == 32
    }
  }

  /** T(0) is empty; T(i) = HMAC(PRK, T(i-1) | info | i), the index cut to one byte,
      which for the 255 blocks of the RFC is the index itself. */
  function T(h: Hmac, prk: Bytes, info: Bytes, i: nat): Bytes {
    if i == 0 then [] else h.mac(prk, T(h, prk, info, i - 1) + info + [(i % 256) as bv8])
  }

  /** The first n blocks for a salt and input keying material, with PRK = HMAC(salt, IKM). */
  function Blocks(h: Hmac, input: Bytes, salt: Bytes, info: Bytes, n: nat): (blocks: seq<Bytes>)
    ensures |blocks| == n
  {
    if n == 0 then [] else Blocks(h, input, salt, info, n - 1) + [T(h, h.mac(salt, input), info, n)]
  }

  /** Asking for fewer blocks gives the first of the same blocks. */
  lemma {:induction false} Prefix(h: Hmac, input: Bytes, salt: Bytes, info: Bytes, m: nat, n: nat)
    requires m <= n
    ensures Blocks(h, input, salt, info, m) == Blocks(h, input, salt, info, n)[..m]
  {
    if m < n {
      Prefix(h, input, salt, info, m, n - 1);
    }
  }

  lemma {:induction false} BlockAt(h: Hmac, input: Bytes, salt: Bytes, info: Bytes, n: nat, i: nat)
    requires i < n
    ensures Blocks(h, input, salt, info, n)[i] == T(h, h.mac(salt, input), info, i + 1)
  {
    if i < n - 1 {
      BlockAt(h, input, salt, info, n - 1, i);
    }
  }

  /** The three blocks the ratchet uses, written out as in RFC 5869, sections 2.2 and 2.3: the salt
      keys the extraction of the input, the first round signs no previous block, and the octets
      behind the info count 1, 2, 3. */
  lemma ThreeBlocks(h: Hmac, input: Bytes, salt: Bytes, info: Bytes)
    ensures var prk := h.mac(salt, input);
            var t1 := h.mac(prk, info + [1]);
            var t2 := h.mac(prk, t1 + info + [2]);
            Blocks(h, input, salt, info, 3) == [t1, t2, h.mac(prk, t2 + info + [3])]
  {
    var prk := h.mac(salt, input);
    BlocksGrow(h, input, salt, info, 0);
    BlocksGrow(h, input, salt, info, 1);
    BlocksGrow(h, input, salt, info, 2);
    FirstRound(h, prk, info);
    Round(h, prk, info, 2, 2);
    Round(h, prk, info, 3, 3);
  }

  lemma FirstRound(h: Hmac, prk: Bytes, info: Bytes)
    ensures T(h, prk, info, 1) == h.mac(prk, info + [1])
  {
    Round(h, prk, info, 1, 1);
    assert [] + info == info;
  }

  lemma Round(h: Hmac, prk: Bytes, info: Bytes, i: nat, octet: bv8)
    requires i >= 1 && (i % 256) as bv8 == octet
    ensures T(h, prk, info, i) == h.mac(prk, T(h, prk, info, i - 1) + info + [octet])
  {
  }

  lemma BlocksGrow(h: Hmac, input: Bytes, salt: Bytes, info: Bytes, n: nat)
    ensures Blocks(h, input, salt, info, n + 1) == Blocks(h, input, salt, info, n) + [T(h, h.mac(salt, input), info, n + 1)]
    ensures n == 0 ==> Blocks(h, input, salt, info, n) == []
  {
  }

  /** derive_secrets_n. */
  method DeriveN(h: Hmac, input: Bytes, salt: Bytes, info: Bytes, n: nat) returns (out: seq<Bytes>)
    ensures out == Blocks(h, input, salt, info, n)
  {
    var prk := h.mac(salt, input);
    out := [];
    var prev := [];
    for i := 0 to n
      invariant out == Blocks(h, input, salt, info, i) && prev == T(h, prk, info, i)
    {
      var chunk := h.mac(prk, prev + info + [((i + 1) % 256) as bv8]);
      out := out + [chunk];
      prev := chunk;
    }
  }

  /** derive_secrets: three slots filled in turn. */
  method DeriveThree(h: Hmac, input: Bytes, salt: Bytes, info: Bytes) returns (out: seq<Bytes>)
    ensures out == Blocks(h, input, salt, info, 3)
  {
    var prk := h.mac(salt, input);
    var slots := new Bytes[3](_ => []);
    var prev := [];
    for i := 0 to 3
      invariant slots[..i] == Blocks(h, input, salt, info, i) && prev == T(h, prk, info, i)
    {
      var chunk := h.mac(prk, prev + info + [(i + 1) as bv8]);
      slots[i] := chunk;
      prev := chunk;
    }
    return slots[..];
  }

  /** infoArray.set(source, offset). */
  method CopyInto(a: array<bv8>, source: Bytes, offset: nat)
    requires offset + |source| <= a.Length
    modifies a
    ensures a[..] == old(a[..offset]) + source + old(a[offset + |source|..])
  {
    for i := 0 to |source|
      invariant a[..] == old(a[..offset]) + source[..i] + old(a[offset + i..])
    {
      a[offset + i] := source[i];
    }
  }

  lemma FirstBlock(h: Hmac, input: Bytes, salt: Bytes, info: Bytes)
    ensures Blocks(h, input, salt, info, 1) == [h.mac(h.mac(salt, input), [] + info + [1])]
  {
    assert T(h, h.mac(salt, input), info, 1) == h.mac(h.mac(salt, input), [] + info + [1]);
    assert Blocks(h, input, salt, info, 0) == [];
  }

  /** One more round: the last block goes in front of the info, the index behind it. */
  method SignAgain(h: Hmac, prk: Bytes, buffer: array<bv8>, info: Bytes, last: Bytes, index: bv8) returns (block: Bytes)
    requires |last| == 32 && buffer.Length == |info| + 33 && buffer[32..buffer.Length - 1] == info
    modifies buffer
    ensures buffer[32..buffer.Length - 1] == info
    ensures block == h.mac(prk, last + info + [index])
  {
    CopyInto(buffer, last, 0);
    assert buffer[32..] == old(buffer[32..]);
    buffer[buffer.Length - 1] := index;
    assert buffer[..32] == last && buffer[32..buffer.Length - 1] == info;
    assert buffer[..] == last + info + [index];
    block := h.mac(prk, buffer[..]);
  }

  /** deriveSecrets: the previous block, info and index live in one buffer, whose first 32
      bytes are left out of the first round. */
  method DeriveJs(h: Hmac, input: Bytes, salt: Bytes, info: Bytes, chunks: int) returns (r: Result<seq<Bytes>>)
    requires h.Sized()
    ensures r == if chunks < 1 || chunks > 3 then Err(ChunkCount)
                 else if |salt| != 32 then Err(SaltLength)
                 else Ok(Blocks(h, input, salt, info, chunks))
  {
    if chunks < 1 || chunks > 3 {
      return Err(ChunkCount);
    }
    if |salt| != 32 {
      return Err(SaltLength);
    }
    var prk := h.mac(salt, input);
    var buffer := new bv8[|info| + 33](_ => 0);
    CopyInto(buffer, info, 32);
    buffer[buffer.Length - 1] := 1;
    assert buffer[32..] == [] + info + [1];
    var signed := [h.mac(prk, buffer[32..])];
    assert buffer[32..buffer.Length - 1] == info;
    FirstBlock(h, input, salt, info);
    if chunks > 1 {
      var block := SignAgain(h, prk, buffer, info, signed[|signed| - 1], 2);
      signed := signed + [block];
    }
    if chunks > 2 {
      var block := SignAgain(h, prk, buffer, info, signed[|signed| - 1], 3);
      signed := signed + [block];
    }
    return Ok(signed);
  }
}
