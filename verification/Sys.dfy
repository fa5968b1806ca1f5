/** Wire-level vocabulary of the binder interface: bytes, little-endian words,
    object tags and the 24-byte object record. */
module Sys {

  type byte = x: int | 0 <= x < 0x100
  type u32 = x: int | 0 <= x < 0x1_0000_0000
  type u64 = x: int | 0 <= x < 0x1_0000_0000_0000_0000

  datatype Option<+T> = None | Some(value: T)

  /* ---------------------------------------------------------------- words */

  function Pow256(width: nat): (p: nat)
    ensures p >= 1
  {
    if width == 0 then 1 else 256 * Pow256(width - 1)
  }

  /** Byte `i` of `n`, least significant first. */
  function Digit(n: nat, i: nat): byte
    decreases i
  {
    if i == 0 then n % 256 else Digit(n / 256, i - 1)
  }

  /** `n` as `width` little-endian bytes; higher digits are cut off. */
  function Le(n: nat, width: nat): (bs: seq<byte>)
    ensures |bs| == width
  {
    seq(width, i requires 0 <= i < width => Digit(n, i))
  }

  function FromLe(bs: seq<byte>): (n: nat)
    ensures n < Pow256(|bs|)
  {
    if bs == [] then 0 else bs[0] + 256 * FromLe(bs[1..])
  }

  lemma {:induction false} LeRoundTrip(n: nat, width: nat)
    requires n < Pow256(width)
    ensures FromLe(Le(n, width)) == n
    decreases width
  {
    if width == 0 {
    } else {
      assert Le(n, width)[1..] == Le(n / 256, width - 1);
      LeRoundTrip(n / 256, width - 1);
    }
  }

  lemma {:induction false} LeOfFromLe(bs: seq<byte>)
    ensures Le(FromLe(bs), |bs|) == bs
  {
    if bs == [] {
    } else {
      LeOfFromLe(bs[1..]);
      var n := FromLe(bs);
      assert n % 256 == bs[0] && n / 256 == FromLe(bs[1..]);
      assert Le(n, |bs|) == [bs[0]] + Le(n / 256, |bs| - 1);
    }
  }

  lemma Shifted(p: nat, n: nat)
    ensures 256 * p * n == 256 * (p * n)
  {
  }

  lemma {:induction false} FromLeConcat(low: seq<byte>, high: seq<byte>)
    ensures FromLe(low + high) == FromLe(low) + Pow256(|low|) * FromLe(high)
  {
    if low == [] {
      assert low + high == high;
    } else {
      FromLeConcat(low[1..], high);
      assert (low + high)[1..] == low[1..] + high;
      Shifted(Pow256(|low| - 1), FromLe(high));
    }
  }

  lemma WidthFacts()
    ensures Pow256(4) == 0x1_0000_0000
    ensures Pow256(8) == 0x1_0000_0000_0000_0000
  {
    assert Pow256(1) == 256;
    assert Pow256(2) == 0x1_0000;
    assert Pow256(3) == 0x100_0000;
    assert Pow256(4) == 0x1_0000_0000;
    assert Pow256(5) == 0x100_0000_0000;
    assert Pow256(6) == 0x1_0000_0000_0000;
    assert Pow256(7) == 0x100_0000_0000_0000;
  }

  /** A word's bytes, the least significant first. */
  lemma WordBytes(a: byte, b: byte, c: byte, d: byte)
    ensures var n := a + 0x100 * b + 0x1_0000 * c + 0x100_0000 * d;
            FromLe([a, b, c, d]) == n && Le(n, 4) == [a, b, c, d]
  {
    assert FromLe([d]) == d;
    assert [c, d][1..] == [d] && FromLe([c, d]) == c + 256 * FromLe([d]);
    assert [b, c, d][1..] == [c, d] && FromLe([b, c, d]) == b + 256 * FromLe([c, d]);
    assert [a, b, c, d][1..] == [b, c, d] && FromLe([a, b, c, d]) == a + 256 * FromLe([b, c, d]);
    LeOfFromLe([a, b, c, d]);
  }

  /* ---------------------------------------------------------- object tags */

  /** Four tag characters, the first in the most significant byte. */
  function PackChars(c1: byte, c2: byte, c3: byte, c4: byte): u32 {
    c1 * 0x100_0000 + c2 * 0x1_0000 + c3 * 0x100 + c4
  }

  const TYPE_LARGE: byte := 0x85
  const BINDER: u32 := PackChars(0x73, 0x62, 0x2a, TYPE_LARGE)      // "sb*"
  const WEAK_BINDER: u32 := PackChars(0x77, 0x62, 0x2a, TYPE_LARGE) // "wb*"
  const HANDLE: u32 := PackChars(0x73, 0x68, 0x2a, TYPE_LARGE)      // "sh*"
  const WEAK_HANDLE: u32 := PackChars(0x77, 0x68, 0x2a, TYPE_LARGE) // "wh*"
  const FD: u32 := PackChars(0x66, 0x64, 0x2a, TYPE_LARGE)          // "fd*"
  const FDA: u32 := PackChars(0x66, 0x64, 0x61, TYPE_LARGE)         // "fda"
  const PTR: u32 := PackChars(0x70, 0x74, 0x2a, TYPE_LARGE)         // "pt*"

  /** The tags as words. */
  lemma Tags()
    ensures BINDER == 0x7362_2a85 && WEAK_BINDER == 0x7762_2a85
    ensures HANDLE == 0x7368_2a85 && WEAK_HANDLE == 0x7768_2a85
    ensures FD == 0x6664_2a85 && FDA == 0x6664_6185 && PTR == 0x7074_2a85
  {
  }

  const ACCEPTS_FDS: u32 := 0x100

  /* --------------------------------------------------- the object records */

  const HEADER_SIZE: nat := 4
  const SLOT_SIZE: nat := 24

  /** The 8-byte union: a pointer fills both halves, a handle or a descriptor
      only the low one, and the high one is then whatever the memory held. */
  datatype Union = Union(low: u32, high: u32)

  function ToUnion(n: u64): Union {
    Union(n % 0x1_0000_0000, n / 0x1_0000_0000)
  }

  function FromUnion(u: Union): u64 {
    u.low + 0x1_0000_0000 * u.high
  }

  /** `FlatBinderObject` and `BinderFdObject` share one C layout: a tag word, a
      flag word, the union and an 8-byte cookie. */
  datatype Slot = Slot(tag: u32, flags: u32, data: Union, cookie: u64)

  function EncodeUnion(u: Union): (bs: seq<byte>)
    ensures |bs| == 8
  {
    Le(u.low, 4) + Le(u.high, 4)
  }

  function EncodeSlot(s: Slot): (bs: seq<byte>)
    ensures |bs| == SLOT_SIZE
  {
    Le(s.tag, 4) + Le(s.flags, 4) + EncodeUnion(s.data) + Le(s.cookie, 8)
  }

  function DecodeSlot(bs: seq<byte>): Slot
    requires |bs| == SLOT_SIZE
  {
    WidthFacts();
    Slot(FromLe(bs[..4]), FromLe(bs[4..8]), Union(FromLe(bs[8..12]), FromLe(bs[12..16])), FromLe(bs[16..24]))
  }

  lemma SlotRoundTrip(s: Slot)
    ensures DecodeSlot(EncodeSlot(s)) == s
  {
    WidthFacts();
    var bs := EncodeSlot(s);
    assert bs[..4] == Le(s.tag, 4);
    assert bs[4..8] == Le(s.flags, 4);
    assert bs[8..12] == Le(s.data.low, 4);
    assert bs[12..16] == Le(s.data.high, 4);
    assert bs[16..24] == Le(s.cookie, 8);
    LeRoundTrip(s.tag, 4);
    LeRoundTrip(s.flags, 4);
    LeRoundTrip(s.data.low, 4);
    LeRoundTrip(s.data.high, 4);
    LeRoundTrip(s.cookie, 8);
  }

  /** Truncation to 32 bits. */
  function Low(n: nat): u32 {
    n % 0x1_0000_0000
  }

  /** Identifier of a locally owned object. */
  datatype ObjectId = ObjectId(id: u64, cookie: u64)
}
