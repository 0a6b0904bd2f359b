/**
 The varints of proto.rs: what read_varint accepts is exactly the base-128 number that is
 written, and what write_varint writes reads back.
 */
module Varints {

  type byte = b: int | 0 <= b < 256
  type u32 = n: nat | n < 0x1_0000_0000
  type u64 = n: nat | n < 0x1_0000_0000_0000_0000

  datatype Error =
    | VarintTruncated
    | VarintTooLong
    | BytesTruncated
    | TooWide(field: nat)
    | TagOverflow
    | InvalidField
    | Fixed64Truncated
    | Fixed32Truncated
    | GroupWireType
    | UnsupportedWireType
    | WrongWireType(field: nat)
    | Required(field: nat)
    | EmptyBytes(field: nat)

  datatype Result<+T> = Ok(value: T) | Err(error: Error)
  datatype Option<+T> = None | Some(value: T)

  /** Something read from the front of some bytes, and how many bytes it took. */
  datatype Read<+T> = Read(value: T, size: nat)

  // ---- u64 bit operations ----

  function Pow2(n: nat): (p: nat)
    ensures p > 0
  {
    if n == 0 then 1 else 2 * Pow2(n - 1)
  }

  lemma Pow2Adds(m: nat, n: nat)
    ensures Pow2(m + n) == Pow2(m) * Pow2(n)
  {
    if n > 0 {
      Pow2Adds(m, n - 1);
    }
  }

  /** Shifting left in a u64 loses what passes the top. */
  function Shl(x: u64, n: nat): u64 {
    (x * Pow2(n)) % 0x1_0000_0000_0000_0000
  }

  function BitOr(a: nat, b: nat): nat {
    if a == 0 && b == 0 then 0
    else 2 * BitOr(a / 2, b / 2) + if a % 2 == 1 || b % 2 == 1 then 1 else 0
  }

  lemma BitOrZero(b: nat)
    ensures BitOr(0, b) == b
  {
    if b != 0 {
      BitOrZero(b / 2);
    }
  }

  /** An or of numbers that share no bit is their sum. */
  lemma {:induction false} BitOrAdds(a: nat, c: nat, n: nat)
    requires a < Pow2(n)
    ensures BitOr(a, c * Pow2(n)) == a + c * Pow2(n)
  {
    if n == 0 {
      BitOrZero(c);
    } else {
      var high := c * Pow2(n - 1);
      assert c * Pow2(n) == 2 * high;
      BitOrAdds(a / 2, c, n - 1);
      assert BitOr(a, 2 * high) == 2 * BitOr(a / 2, high) + a % 2;
    }
  }

  // ---- varints ----

  /** read_varint on the bytes left: place counts the bytes already taken. */
  function VarintAt(s: seq<byte>, place: nat): (r: Result<Read<nat>>)
    requires place <= 9
    ensures r.Ok? ==> 1 <= r.value.size <= |s| && r.value.size <= 10 - place
  {
    if s == [] then Err(VarintTruncated)
    else if place == 9 && s[0] > 1 then Err(VarintTooLong)
    else if s[0] < 128 then Ok(Read(s[0], 1))
    else
      match VarintAt(s[1..], place + 1)
      case Err(e) => Err(e)
      case Ok(more) => Ok(Read(s[0] % 128 + 128 * more.value, more.size + 1))
  }

  function Pow128(n: nat): (p: nat)
    ensures p > 0
  {
    if n == 0 then 1 else 128 * Pow128(n - 1)
  }

  /** The base-128 number written by the low seven bits of some bytes, least first. */
  function Base128(s: seq<byte>): nat {
    if s == [] then 0
    else Base128(s[..|s| - 1]) + (s[|s| - 1] % 128) * Pow128(|s| - 1)
  }

  lemma Scale(x: nat, n: nat)
    requires n > 0
    ensures x * Pow128(n) == 128 * (x * Pow128(n - 1))
  {
  }

  lemma {:induction false} Base128First(s: seq<byte>)
    requires |s| > 0
    ensures Base128(s) == s[0] % 128 + 128 * Base128(s[1..])
  {
    var n := |s| - 1;
    if n == 0 {
      assert s[..0] == [] && s[1..] == [];
    } else {
      Base128First(s[..n]);
      var rest := s[1..];
      assert s[..n][1..] == rest[..n - 1] && rest[n - 1] == s[n] && s[..n][0] == s[0];
      Scale(s[n] % 128, n);
      assert Base128(s) == Base128(s[..n]) + (s[n] % 128) * Pow128(n);
      assert Base128(rest) == Base128(rest[..n - 1]) + (s[n] % 128) * Pow128(n - 1);
    }
  }

  /** The bytes a varint may still have after place others: all but the last carry the
      continuation bit, there are ten in all at most, and a tenth is at most 1. */
  predicate IsVarint(s: seq<byte>, place: nat) {
    && 1 <= |s| <= 10 - place
    && (forall i :: 0 <= i < |s| - 1 ==> s[i] >= 128)
    && s[|s| - 1] < 128
    && (|s| == 10 - place ==> s[|s| - 1] <= 1)
  }

  lemma {:induction false} VarintReads(s: seq<byte>, place: nat)
    requires place <= 9 && VarintAt(s, place).Ok?
    ensures var n := VarintAt(s, place).value.size;
            IsVarint(s[..n], place) && VarintAt(s, place).value.value == Base128(s[..n])
    decreases |s|
  {
    var n := VarintAt(s, place).value.size;
    Base128First(s[..n]);
    assert s[..n][1..] == s[1..][..n - 1];
    if s[0] >= 128 {
      VarintReads(s[1..], place + 1);
      var rest := s[1..][..n - 1];
      assert forall i :: 1 <= i < n ==> s[..n][i] == rest[i - 1];
    }
  }

  lemma {:induction false} VarintAccepts(s: seq<byte>, place: nat, n: nat)
    requires place <= 9 && n <= |s| && IsVarint(s[..n], place)
    ensures VarintAt(s, place) == Ok(Read(Base128(s[..n]), n))
    decreases |s|
  {
    Base128First(s[..n]);
    var rest := s[..n][1..];
    assert rest == s[1..][..n - 1];
    if n == 1 {
      assert rest == [] && s[..n][0] == s[0];
    } else {
      assert s[..n][0] == s[0] && forall i :: 0 <= i < n - 1 ==> rest[i] == s[..n][i + 1];
      VarintAccepts(s[1..], place + 1, n - 1);
    }
  }

  /** read_varint accepts exactly the varints, and returns exactly the number written. */
  lemma VarintIff(s: seq<byte>, v: nat, n: nat)
    ensures VarintAt(s, 0) == Ok(Read(v, n)) <==> n <= |s| && IsVarint(s[..n], 0) && v == Base128(s[..n])
  {
    if VarintAt(s, 0).Ok? {
      VarintReads(s, 0);
    }
    if n <= |s| && IsVarint(s[..n], 0) {
      VarintAccepts(s, 0, n);
    }
  }

  /** What is read fits what is left of a u64. */
  lemma {:induction false} VarintFits(s: seq<byte>, place: nat)
    requires place <= 9 && VarintAt(s, place).Ok?
    ensures VarintAt(s, place).value.value < 2 * Pow128(9 - place)
    decreases |s|
  {
    if s[0] >= 128 {
      VarintFits(s[1..], place + 1);
    } else if place < 9 {
      assert Pow128(9 - place) >= 128;
    }
  }

  lemma Pow128IsPow2(n: nat)
    ensures Pow128(n) == Pow2(7 * n)
  {
    if n > 0 {
      Pow128IsPow2(n - 1);
      var m := 7 * n;
      assert Pow2(m) == 2 * Pow2(m - 1) && Pow2(m - 1) == 2 * Pow2(m - 2) && Pow2(m - 2) == 2 * Pow2(m - 3);
      assert Pow2(m - 3) == 2 * Pow2(m - 4) && Pow2(m - 4) == 2 * Pow2(m - 5);
      assert Pow2(m - 5) == 2 * Pow2(m - 6) && Pow2(m - 6) == 2 * Pow2(m - 7);
    }
  }

  lemma SumFits(result: nat, low: nat, place: nat)
    requires place <= 9 && result < Pow128(place) && low < 128 && (place == 9 ==> low <= 1)
    ensures result + low * Pow128(place) < 0x1_0000_0000_0000_0000
    ensures place < 9 ==> result + low * Pow128(place) < Pow128(place + 1)
  {
    AtMost(low, if place == 9 then 1 else 127, Pow128(place));
    Pow128Values();
  }

  /** The shift drops nothing ... */
  lemma ShiftExact(low: nat, place: nat)
    requires place <= 9 && low < 128 && (place == 9 ==> low <= 1)
    ensures Shl(low, 7 * place) == low * Pow128(place)
  {
    SumFits(0, low, place);
    Pow128IsPow2(place);
    ShiftOf(low, 7 * place, Pow128(place));
  }

  lemma ShiftOf(x: u64, n: nat, p: nat)
    requires p == Pow2(n) && x * p < 0x1_0000_0000_0000_0000
    ensures Shl(x, n) == x * p
  {
  }

  /** ... and the or adds. */
  lemma OrExact(result: nat, low: nat, place: nat)
    requires result < Pow128(place)
    ensures BitOr(result, low * Pow128(place)) == result + low * Pow128(place)
  {
    Pow128IsPow2(place);
    BitOrAdds(result, low, 7 * place);
  }

  lemma AtMost(low: nat, high: nat, p: nat)
    requires low <= high
    ensures low * p <= high * p
  {
  }

  lemma Pow128Values()
    ensures Pow128(9) == 0x8000_0000_0000_0000
    ensures forall n: nat :: n <= 8 ==> Pow128(n) * 128 <= 0x8000_0000_0000_0000
  {
    assert Pow128(1) == 128 && Pow128(2) == 0x4000 && Pow128(3) == 0x20_0000 && Pow128(4) == 0x1000_0000;
    assert Pow128(5) == 128 * Pow128(4) && Pow128(6) == 128 * Pow128(5) && Pow128(7) == 128 * Pow128(6);
    assert Pow128(8) == 128 * Pow128(7) && Pow128(9) == 128 * Pow128(8);
  }

  /** A varint read up to next, result so far, gives what a read from pos gives. */
  ghost predicate Resumes(bytes: seq<byte>, pos: nat, next: nat, result: nat)
    requires pos <= next <= |bytes| && next - pos <= 9
  {
    match VarintAt(bytes[next..], next - pos)
    case Ok(v) => VarintAt(bytes[pos..], 0) == Ok(Read(result + v.value * Pow128(next - pos), v.size + (next - pos)))
    case Err(e) => VarintAt(bytes[pos..], 0) == Err(e)
  }

  lemma ResumesOn(bytes: seq<byte>, pos: nat, next: nat, result: nat)
    requires pos <= next < |bytes| && next - pos <= 8 && Resumes(bytes, pos, next, result) && bytes[next] >= 128
    ensures Resumes(bytes, pos, next + 1, result + (bytes[next] % 128) * Pow128(next - pos))
  {
    var s, place, low := bytes[next..], next - pos, bytes[next] % 128;
    assert s[0] == bytes[next] && s[1..] == bytes[next + 1..];
    if VarintAt(s[1..], place + 1).Ok? {
      var w := VarintAt(s[1..], place + 1).value.value;
      Distributes(low, w, Pow128(place));
    }
  }

  lemma Distributes(low: nat, w: nat, p: nat)
    ensures (low + 128 * w) * p == low * p + w * (128 * p)
  {
  }

  lemma ResumesLast(bytes: seq<byte>, pos: nat, next: nat, result: nat)
    requires pos <= next < |bytes| && next - pos <= 9 && Resumes(bytes, pos, next, result)
    requires bytes[next] < 128 && (next - pos == 9 ==> bytes[next] <= 1)
    ensures VarintAt(bytes[pos..], 0) == Ok(Read(result + (bytes[next] % 128) * Pow128(next - pos), next + 1 - pos))
  {
    assert bytes[next..][0] == bytes[next] && bytes[next] % 128 == bytes[next];
  }

  lemma ResumesNot(bytes: seq<byte>, pos: nat, next: nat, result: nat)
    requires pos <= next <= |bytes| && next - pos <= 9 && Resumes(bytes, pos, next, result)
    requires next < |bytes| ==> next - pos == 9 && bytes[next] > 1
    ensures VarintAt(bytes[pos..], 0) == Err(if next == |bytes| then VarintTruncated else VarintTooLong)
  {
    if next < |bytes| {
      assert bytes[next..][0] == bytes[next];
    }
  }

  /** The loop stands at next, with result read so far. */
  ghost predicate Midway(bytes: seq<byte>, pos: nat, next: nat, result: nat)
    requires pos <= next <= |bytes| && next - pos <= 9
  {
    result < Pow128(next - pos) && Resumes(bytes, pos, next, result)
  }

  lemma Begins(bytes: seq<byte>, pos: nat)
    requires pos <= |bytes|
    ensures Midway(bytes, pos, pos, 0)
  {
    assert Pow128(0) == 1;
  }

  lemma RoundAdds(result: nat, low: nat, place: nat)
    requires place <= 9 && result < Pow128(place) && low < 128 && (place == 9 ==> low <= 1)
    ensures BitOr(result, Shl(low, 7 * place)) == result + low * Pow128(place) < 0x1_0000_0000_0000_0000
    ensures place < 9 ==> result + low * Pow128(place) < Pow128(place + 1)
  {
    ShiftExact(low, place);
    OrExact(result, low, place);
    SumFits(result, low, place);
  }

  function WithByte(result: u64, b: byte, shift: nat): nat {
    BitOr(result, Shl(b % 128, shift))
  }

  /** One round of the loop. */
  lemma Round(bytes: seq<byte>, pos: nat, next: nat, result: u64)
    requires pos <= next < |bytes| && next - pos <= 9 && Midway(bytes, pos, next, result)
    requires next - pos == 9 ==> bytes[next] <= 1
    ensures WithByte(result, bytes[next], 7 * (next - pos)) < 0x1_0000_0000_0000_0000
    ensures bytes[next] < 128 ==>
              VarintAt(bytes[pos..], 0) == Ok(Read(WithByte(result, bytes[next], 7 * (next - pos)), next + 1 - pos))
    ensures bytes[next] >= 128 ==>
              next - pos <= 8 && Midway(bytes, pos, next + 1, WithByte(result, bytes[next], 7 * (next - pos)))
  {
    RoundAdds(result, bytes[next] % 128, next - pos);
    if bytes[next] < 128 {
      ResumesLast(bytes, pos, next, result);
    } else {
      ResumesOn(bytes, pos, next, result);
    }
  }

  /** read_varint. */
  method ReadVarint(bytes: seq<byte>, pos: nat) returns (r: Result<u64>, next: nat)
    requires pos <= |bytes|
    ensures pos <= next <= |bytes|
    ensures r.Ok? ==> VarintAt(bytes[pos..], 0) == Ok(Read(r.value, next - pos))
    ensures r.Err? ==> VarintAt(bytes[pos..], 0) == Err(r.error)
  {
    var result: u64 := 0;
    var shift := 0;
    next := pos;
    Begins(bytes, pos);
    while true
      invariant pos <= next <= |bytes| && shift == 7 * (next - pos) && next - pos <= 9
      invariant Midway(bytes, pos, next, result)
      decreases |bytes| - next
    {
      if next >= |bytes| {
        ResumesNot(bytes, pos, next, result);
        return Err(VarintTruncated), next;
      }
      var b := bytes[next];
      next := next + 1;
      if shift >= 63 && b > 1 {
        ResumesNot(bytes, pos, next - 1, result);
        return Err(VarintTooLong), next;
      }
      Round(bytes, pos, next - 1, result);
      result := WithByte(result, b, shift);
      if b < 128 {
        return Ok(result), next;
      }
      shift := shift + 7;
    }
  }

  // ---- writing ----

  function VarintBytes(v: nat): (s: seq<byte>)
    ensures |s| >= 1
  {
    if v < 128 then [v] else [v % 128 + 128] + VarintBytes(v / 128)
  }

  /** write_varint. */
  method WriteVarint(buf: seq<byte>, value: u64) returns (out: seq<byte>)
    ensures out == buf + VarintBytes(value)
  {
    out := buf;
    var v := value;
    while true
      invariant out + VarintBytes(v) == buf + VarintBytes(value)
      decreases v
    {
      var low := v % 128;
      var rest := v / 128;
      if rest == 0 {
        return out + [low];
      }
      assert out + [low + 128] + VarintBytes(rest) == out + VarintBytes(v);
      out := out + [low + 128];
      v := rest;
    }
  }

  lemma {:induction false} ReadsBack(v: nat, place: nat, rest: seq<byte>)
    requires place <= 9 && v < 2 * Pow128(9 - place)
    ensures VarintAt(VarintBytes(v) + rest, place) == Ok(Read(v, |VarintBytes(v)|))
    decreases v
  {
    var s := VarintBytes(v) + rest;
    assert Pow128(0) == 1;
    if v >= 128 {
      assert s[1..] == VarintBytes(v / 128) + rest;
      ReadsBack(v / 128, place + 1, rest);
    }
  }

  /** Every u64 reads back, whatever follows. */
  lemma VarintRoundTrip(v: u64, rest: seq<byte>)
    ensures VarintAt(VarintBytes(v) + rest, 0) == Ok(Read(v, |VarintBytes(v)|))
  {
    Pow128Values();
    ReadsBack(v, 0, rest);
  }

  /** What follows a varint does not change what is read. */
  lemma {:induction false} VarintThen(s: seq<byte>, place: nat, rest: seq<byte>)
    requires place <= 9 && VarintAt(s, place).Ok?
    ensures VarintAt(s + rest, place) == VarintAt(s, place)
    decreases |s|
  {
    if s[0] >= 128 {
      assert (s + rest)[1..] == s[1..] + rest;
      VarintThen(s[1..], place + 1, rest);
    }
  }

  /** read_varint is not injective: one number has longer spellings. */
  lemma NotCanonical()
    ensures VarintAt([0x80, 0x00], 0) == Ok(Read(0, 2)) && VarintBytes(0) == [0]
  {
    assert [0x80, 0x00][1..] == [0x00];
  }
}
