/**
 The hand-written CBC mode with PKCS#7 padding of ratchet.rs (NIST SP 800-38A section 6.2,
 RFC 5652 section 6.3), over any invertible block function.
 */
module Cbc {

  type Bytes = seq<bv8>
  type Block = b: Bytes | |b| == 16 witness seq(16, _ => 0)

  /** A keyed block cipher. */
  datatype Cipher = Cipher(enc: Block -> Block, dec: Block -> Block)
  {
    /** Each direction undoes the other. */
    ghost predicate Invertible() {
      forall b: Block :: dec(enc(b)) == b && enc(dec(b)) == b
    }
  }

  datatype Result<+T> = Ok(value: T) | BadLength | BadPadding

  function Xor(a: Block, b: Block): Block {
    seq(16, i requires 0 <= i < 16 => a[i] ^ b[i])
  }

  lemma XorTwice(a: Block, b: Block)
    ensures Xor(Xor(a, b), b) == a
  {
    forall i | 0 <= i < 16
      ensures (a[i] ^ b[i]) ^ b[i] == a[i]
    {
    }
  }

  // ---- blocks ----

  /** chunks(16) of a whole number of blocks. */
  function Chunks(s: Bytes): (blocks: seq<Block>)
    requires |s| % 16 == 0
    ensures s != [] ==> blocks != []
  {
    if s == [] then [] else [s[..16]] + Chunks(s[16..])
  }

  function Flat(blocks: seq<Block>): (s: Bytes)
    ensures |s| == 16 * |blocks|
  {
    if blocks == [] then [] else blocks[0] + Flat(blocks[1..])
  }

  lemma {:induction false} FlatChunks(s: Bytes)
    requires |s| % 16 == 0
    ensures Flat(Chunks(s)) == s
  {
    if s != [] {
      FlatChunks(s[16..]);
      assert Chunks(s)[1..] == Chunks(s[16..]);
      assert s == s[..16] + s[16..];
    }
  }

  lemma {:induction false} ChunksFlat(blocks: seq<Block>)
    ensures Chunks(Flat(blocks)) == blocks
  {
    if blocks != [] {
      ChunksFlat(blocks[1..]);
      var s := Flat(blocks);
      assert s[..16] == blocks[0] && s[16..] == Flat(blocks[1..]);
    }
  }

  lemma {:induction false} FlatAppend(blocks: seq<Block>, b: Block)
    ensures Flat(blocks + [b]) == Flat(blocks) + b
  {
    var all := blocks + [b];
    if blocks == [] {
      assert all[0] == b && all[1..] == [];
    } else {
      FlatAppend(blocks[1..], b);
      assert all[0] == blocks[0] && all[1..] == blocks[1..] + [b];
    }
  }

  // ---- chaining ----

  /** C_j = E(P_j xor C_(j-1)), the initialisation vector being C_0. */
  function Chain(c: Cipher, prev: Block, plain: seq<Block>): seq<Block>
    decreases |plain|
  {
    if plain == [] then []
    else
      var x := c.enc(Xor(plain[0], prev));
      [x] + Chain(c, x, plain[1..])
  }

  /** P_j = D(C_j) xor C_(j-1). */
  function Unchain(c: Cipher, prev: Block, s: seq<Block>): seq<Block>
    decreases |s|
  {
    if s == [] then [] else [Xor(c.dec(s[0]), prev)] + Unchain(c, s[0], s[1..])
  }

  lemma {:induction false} UnchainChain(c: Cipher, prev: Block, plain: seq<Block>)
    requires c.Invertible()
    ensures Unchain(c, prev, Chain(c, prev, plain)) == plain
    decreases |plain|
  {
    if plain != [] {
      var s := Chain(c, prev, plain);
      assert s[1..] == Chain(c, s[0], plain[1..]);
      UnchainChain(c, s[0], plain[1..]);
      XorTwice(plain[0], prev);
      assert plain == [plain[0]] + plain[1..];
    }
  }

  lemma {:induction false} ChainUnchain(c: Cipher, prev: Block, s: seq<Block>)
    requires c.Invertible()
    ensures Chain(c, prev, Unchain(c, prev, s)) == s
    decreases |s|
  {
    if s != [] {
      var plain := Unchain(c, prev, s);
      assert plain[1..] == Unchain(c, s[0], s[1..]);
      ChainUnchain(c, s[0], s[1..]);
      XorTwice(c.dec(s[0]), prev);
      assert s == [s[0]] + s[1..];
    }
  }

  // ---- padding ----

  function PadLength(n: nat): (k: nat)
    ensures 1 <= k <= 16 && (n + k) % 16 == 0
  {
    16 - n % 16
  }

  function Pad(plain: Bytes): (r: Bytes)
    ensures |r| % 16 == 0 && r != []
  {
    var k := PadLength(|plain|);
    plain + seq(k, _ => k as bv8)
  }

  function Unpad(s: Bytes): Result<Bytes>
    requires s != []
  {
    var pad := s[|s| - 1] as int;
    if 0 < pad <= 16 && pad <= |s| && (forall i :: |s| - pad <= i < |s| ==> s[i] == s[|s| - 1])
    then Ok(s[..|s| - pad])
    else BadPadding
  }

  lemma UnpadPad(plain: Bytes)
    ensures Unpad(Pad(plain)) == Ok(plain)
  {
    var s, k := Pad(plain), PadLength(|plain|);
    assert s[|s| - 1] == k as bv8;
    assert s[..|plain|] == plain;
  }

  lemma PadUnpad(s: Bytes)
    requires s != [] && |s| % 16 == 0 && Unpad(s).Ok?
    ensures Pad(Unpad(s).value) == s
  {
    var pad := s[|s| - 1] as int;
    var plain := Unpad(s).value;
    assert PadLength(|plain|) == pad;
    assert s[|s| - pad..] == seq(pad, _ => pad as bv8);
    assert s == plain + s[|s| - pad..];
  }

  // ---- the two operations ----

  function Encrypted(c: Cipher, iv: Block, plain: Bytes): Bytes {
    Flat(Chain(c, iv, Chunks(Pad(plain))))
  }

  function Decrypted(c: Cipher, iv: Block, s: Bytes): Result<Bytes> {
    if |s| % 16 != 0 || s == [] then BadLength
    else
      var blocks := Unchain(c, iv, Chunks(s));
      assert blocks != [];
      Unpad(Flat(blocks))
  }

  /** Decryption undoes encryption, for every plaintext, the empty one included. */
  lemma RoundTrip(c: Cipher, iv: Block, plain: Bytes)
    requires c.Invertible()
    ensures Decrypted(c, iv, Encrypted(c, iv, plain)) == Ok(plain)
  {
    var blocks := Chunks(Pad(plain));
    var s := Chain(c, iv, blocks);
    assert s != [];
    ChunksFlat(s);
    UnchainChain(c, iv, blocks);
    FlatChunks(Pad(plain));
    UnpadPad(plain);
  }

  lemma OpensToImage(c: Cipher, iv: Block, s: Bytes)
    requires c.Invertible() && Decrypted(c, iv, s).Ok?
    ensures Encrypted(c, iv, Decrypted(c, iv, s).value) == s
  {
    var blocks := Unchain(c, iv, Chunks(s));
    PadUnpad(Flat(blocks));
    ChunksFlat(blocks);
    ChainUnchain(c, iv, Chunks(s));
    FlatChunks(s);
  }

  /** What decryption accepts is exactly what encryption makes. */
  lemma AcceptsItsImage(c: Cipher, iv: Block, s: Bytes, plain: Bytes)
    requires c.Invertible()
    ensures Decrypted(c, iv, s) == Ok(plain) <==> Encrypted(c, iv, plain) == s
  {
    RoundTrip(c, iv, plain);
    if Decrypted(c, iv, s) == Ok(plain) {
      OpensToImage(c, iv, s);
    }
  }

  // ---- the loops ----

  /** block ^= prev, byte by byte. */
  method XorInto(block: Block, prev: Block) returns (out: Block)
    ensures out == Xor(block, prev)
  {
    out := block;
    for i := 0 to 16
      invariant forall j :: 0 <= j < i ==> out[j] == block[j] ^ prev[j]
      invariant forall j :: i <= j < 16 ==> out[j] == block[j]
    {
      out := out[i := out[i] ^ prev[i]];
    }
  }

  /** The chain goes on from what is done. */
  ghost predicate Enciphers(c: Cipher, iv: Block, blocks: seq<Block>, i: nat, prev: Block, done: seq<Block>)
    requires i <= |blocks|
  {
    done + Chain(c, prev, blocks[i..]) == Chain(c, iv, blocks)
  }

  lemma EnciphersOn(c: Cipher, iv: Block, blocks: seq<Block>, i: nat, prev: Block, done: seq<Block>)
    requires i < |blocks| && Enciphers(c, iv, blocks, i, prev, done)
    ensures var x := c.enc(Xor(blocks[i], prev));
            Enciphers(c, iv, blocks, i + 1, x, done + [x])
  {
    assert blocks[i..][0] == blocks[i] && blocks[i..][1..] == blocks[i + 1..];
  }

  /** aes_cbc_encrypt, past the key schedule. */
  method Encrypt(c: Cipher, iv: Block, plain: Bytes) returns (ct: Bytes)
    ensures ct == Encrypted(c, iv, plain)
  {
    var padLen := 16 - |plain| % 16;
    var padded := plain + seq(padLen, _ => padLen as bv8);
    assert padded == Pad(plain);
    var chunks := Chunks(padded);
    ct := [];
    var prev := iv;
    ghost var done: seq<Block> := [];
    for i := 0 to |chunks|
      invariant Enciphers(c, iv, chunks, i, prev, done) && ct == Flat(done)
    {
      EnciphersOn(c, iv, chunks, i, prev, done);
      var block := XorInto(chunks[i], prev);
      block := c.enc(block);
      FlatAppend(done, block);
      ct := ct + block;
      done := done + [block];
      prev := block;
    }
    assert done == Chain(c, iv, chunks);
  }

  /** The padding check that looks at every padding byte before it decides. */
  method CheckPadding(out: Bytes) returns (r: Result<Bytes>)
    requires out != []
    ensures r == Unpad(out)
  {
    var last := out[|out| - 1];
    var pad := last as int;
    var diff: bv8 := 0;
    if pad > 0 && pad <= 16 && |out| >= pad {
      for i := |out| - pad to |out|
        invariant diff == 0 <==> forall j :: |out| - pad <= j < i ==> out[j] == last
      {
        OrXor(diff, out[i], last);
        diff := diff | (out[i] ^ last);
      }
    } else {
      diff := 1;
    }
    if diff != 0 {
      return BadPadding;
    }
    return Ok(out[..|out| - pad]);
  }

  lemma OrXor(diff: bv8, a: bv8, b: bv8)
    ensures diff | (a ^ b) == 0 <==> diff == 0 && a == b
  {
  }

  ghost predicate Deciphers(c: Cipher, iv: Block, blocks: seq<Block>, i: nat, prev: Block, done: seq<Block>)
    requires i <= |blocks|
  {
    done + Unchain(c, prev, blocks[i..]) == Unchain(c, iv, blocks)
  }

  lemma DeciphersOn(c: Cipher, iv: Block, blocks: seq<Block>, i: nat, prev: Block, done: seq<Block>)
    requires i < |blocks| && Deciphers(c, iv, blocks, i, prev, done)
    ensures Deciphers(c, iv, blocks, i + 1, blocks[i], done + [Xor(c.dec(blocks[i]), prev)])
  {
    assert blocks[i..][0] == blocks[i] && blocks[i..][1..] == blocks[i + 1..];
  }

  /** aes_cbc_decrypt, past the key schedule. */
  method Decrypt(c: Cipher, iv: Block, s: Bytes) returns (r: Result<Bytes>)
    ensures r == Decrypted(c, iv, s)
  {
    if |s| % 16 != 0 || s == [] {
      return BadLength;
    }
    var chunks := Chunks(s);
    var out: Bytes := [];
    var prev := iv;
    ghost var done: seq<Block> := [];
    for i := 0 to |chunks|
      invariant Deciphers(c, iv, chunks, i, prev, done) && out == Flat(done)
    {
      DeciphersOn(c, iv, chunks, i, prev, done);
      var dec := XorInto(c.dec(chunks[i]), prev);
      FlatAppend(done, dec);
      out := out + dec;
      done := done + [dec];
      prev := chunks[i];
    }
    assert done == Unchain(c, iv, chunks) && done != [];
    r := CheckPadding(out);
  }

  // ---- the standards ----

  /** Block i of the ciphertext is the encipherment of plaintext block i, byte by byte xored with
      the ciphertext block before it, the first with the initialisation vector (NIST SP 800-38A,
      section 6.2). */
  lemma {:induction false} ChainAt(c: Cipher, iv: Block, plain: seq<Block>, i: nat)
    requires c.Invertible() && i < |plain|
    ensures |Chain(c, iv, plain)| == |plain|
    ensures var before := if i == 0 then iv else Chain(c, iv, plain)[i - 1];
            forall k :: 0 <= k < 16 ==> c.dec(Chain(c, iv, plain)[i])[k] == plain[i][k] ^ before[k]
    decreases |plain|
  {
    ChainLength(c, iv, plain);
    var x := c.enc(Xor(plain[0], iv));
    if i == 0 {
      assert c.dec(x) == Xor(plain[0], iv);
    } else {
      ChainAt(c, x, plain[1..], i - 1);
    }
  }

  lemma {:induction false} ChainLength(c: Cipher, iv: Block, plain: seq<Block>)
    ensures |Chain(c, iv, plain)| == |plain|
    decreases |plain|
  {
    if plain != [] {
      ChainLength(c, c.enc(Xor(plain[0], iv)), plain[1..]);
    }
  }

  /** Padded as RFC 5652, section 6.3, has it: the text, then one to sixteen bytes that each say
      how many there are, up to a whole number of blocks. */
  predicate IsPadded(s: Bytes, plain: Bytes) {
    && |plain| < |s| <= |plain| + 16 && |s| % 16 == 0
    && s[..|plain|] == plain
    && forall i :: |plain| <= i < |s| ==> s[i] as int == |s| - |plain|
  }

  lemma OnePadding(s: Bytes, plain: Bytes)
    requires IsPadded(s, plain)
    ensures s == Pad(plain)
  {
    var k := |s| - |plain|;
    assert PadLength(|plain|) == k;
    assert s == s[..|plain|] + s[|plain|..];
    assert s[|plain|..] == seq(k, _ => k as bv8);
  }

  lemma PadIsPadded(plain: Bytes)
    ensures IsPadded(Pad(plain), plain)
  {
    assert Pad(plain)[..|plain|] == plain;
  }

  /** There is exactly one padded form of a text, and it is what is encrypted; and a text is taken
      out of whole blocks exactly when they are its padded form. */
  lemma PaddingIsStandard(s: Bytes, plain: Bytes)
    requires s != [] && |s| % 16 == 0
    ensures Pad(plain) == s <==> IsPadded(s, plain)
    ensures Unpad(s) == Ok(plain) <==> IsPadded(s, plain)
  {
    PadIsPadded(plain);
    if IsPadded(s, plain) {
      OnePadding(s, plain);
      UnpadPad(plain);
    } else if Unpad(s) == Ok(plain) {
      PadUnpad(s);
    }
  }
}
