/** Octets, big-endian integers and the small sequence facts the other modules share. */
module Bytes {
  type byte = x: int | 0 <= x < 256
  type bytes = seq<byte>

  datatype Option<+T> = None | Some(value: T)
  datatype Result<+T, +E> = Ok(value: T) | Err(error: E)

  const U32_LIMIT := 0x1_0000_0000
  const U64_MAX := 0xFFFF_FFFF_FFFF_FFFF

  function Min(a: nat, b: nat): nat {
    if a < b then a else b
  }

  /** `u32::to_be_bytes`. */
  function Be32(n: nat): (b: bytes)
    requires n < U32_LIMIT
    ensures |b| == 4
  {
    [n / 0x100_0000, n / 0x1_0000 % 256, n / 256 % 256, n % 256]
  }

  /** `u32::from_be_bytes`. */
  function FromBe32(b: bytes): (n: nat)
    requires |b| == 4
    ensures n < U32_LIMIT
  {
    (b[0] as int) * 0x100_0000 + (b[1] as int) * 0x1_0000 + (b[2] as int) * 256 + b[3]
  }

  lemma Be32RoundTrip(n: nat)
    requires n < U32_LIMIT
    ensures FromBe32(Be32(n)) == n
  {
    var hi, mid, low := n / 0x100_0000, n / 0x1_0000, n / 256;
    assert low == n / 256 && n == low * 256 + n % 256;
    assert mid == low / 256 && low == mid * 256 + low % 256;
    assert hi == mid / 256 && mid == hi * 256 + mid % 256;
  }

  lemma FromBe32RoundTrip(b: bytes)
    requires |b| == 4
    ensures Be32(FromBe32(b)) == b
  {
    var n := FromBe32(b);
    var w: int, x: int, y: int, z: int := b[0], b[1], b[2], b[3];
    assert n / 256 == w * 0x1_0000 + x * 256 + y;
    assert n / 0x1_0000 == w * 256 + x;
    assert n / 0x100_0000 == w;
  }

  /** `u64::to_be_bytes`. */
  function Be64(n: nat): (b: bytes)
    requires n <= U64_MAX
    ensures |b| == 8
  {
    Be32(n / U32_LIMIT) + Be32(n % U32_LIMIT)
  }

  lemma Be64Injective(m: nat, n: nat)
    requires m <= U64_MAX && n <= U64_MAX
    requires Be64(m) == Be64(n)
    ensures m == n
  {
    assert Be32(m / U32_LIMIT) == Be64(m)[..4] == Be32(n / U32_LIMIT);
    assert Be32(m % U32_LIMIT) == Be64(m)[4..] == Be32(n % U32_LIMIT);
    Be32RoundTrip(m / U32_LIMIT);
    Be32RoundTrip(n / U32_LIMIT);
    Be32RoundTrip(m % U32_LIMIT);
    Be32RoundTrip(n % U32_LIMIT);
  }

  /** Concatenation of a list of byte strings. */
  function Concat(parts: seq<bytes>): (all: bytes) {
    if parts == [] then [] else parts[0] + Concat(parts[1..])
  }

  lemma {:induction false} ConcatAppend(a: seq<bytes>, b: seq<bytes>)
    ensures Concat(a + b) == Concat(a) + Concat(b)
  {
    if a == [] {
      assert a + b == b;
    } else {
      ConcatAppend(a[1..], b);
      assert (a + b)[0] == a[0] && (a + b)[1..] == a[1..] + b;
      var head, rest, tail := a[0], Concat(a[1..]), Concat(b);
      assert Concat(a + b) == head + (rest + tail);
      assert head + (rest + tail) == (head + rest) + tail;
    }
  }

  lemma ConcatSnoc(a: seq<bytes>, last: bytes)
    ensures Concat(a + [last]) == Concat(a) + last
  {
    ConcatAppend(a, [last]);
    assert [last][1..] == [];
  }
}
