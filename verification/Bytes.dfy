/** Fixed-width unsigned integers as bytes, in both byte orders. */
module Bytes {
  import opened Common

  function Pow256(k: nat): (p: nat)
    ensures p > 0
  {
    if k == 0 then 1 else 256 * Pow256(k - 1)
  }

  lemma Widths()
    ensures Pow256(1) == 0x100 && Pow256(2) == 0x1_0000
    ensures Pow256(4) == 0x1_0000_0000
    ensures Pow256(8) == 0x1_0000_0000_0000_0000
  {
    assert Pow256(2) == 256 * Pow256(1);
    assert Pow256(3) == 256 * Pow256(2);
    assert Pow256(4) == 256 * Pow256(3);
    assert Pow256(5) == 256 * Pow256(4);
    assert Pow256(6) == 256 * Pow256(5);
    assert Pow256(7) == 256 * Pow256(6);
  }

  function FromBE(s: seq<u8>): (n: nat)
    ensures n < Pow256(|s|)
  {
    if s == [] then 0 else 256 * FromBE(s[..|s| - 1]) + s[|s| - 1]
  }

  function ToBE(n: nat, k: nat): (s: seq<u8>)
    ensures |s| == k
  {
    if k == 0 then [] else ToBE(n / 256, k - 1) + [n % 256]
  }

  function FromLE(s: seq<u8>): (n: nat)
    ensures n < Pow256(|s|)
  {
    if s == [] then 0 else s[0] + 256 * FromLE(s[1..])
  }

  function ToLE(n: nat, k: nat): (s: seq<u8>)
    ensures |s| == k
  {
    if k == 0 then [] else [n % 256] + ToLE(n / 256, k - 1)
  }

  lemma {:induction false} BERoundTrip(n: nat, k: nat)
    requires n < Pow256(k)
    ensures FromBE(ToBE(n, k)) == n
  {
    if k == 0 {
    } else {
      BERoundTrip(n / 256, k - 1);
      assert ToBE(n, k)[..k - 1] == ToBE(n / 256, k - 1);
    }
  }

  lemma {:induction false} LERoundTrip(n: nat, k: nat)
    requires n < Pow256(k)
    ensures FromLE(ToLE(n, k)) == n
  {
    if k == 0 {
    } else {
      LERoundTrip(n / 256, k - 1);
      assert ToLE(n, k)[1..] == ToLE(n / 256, k - 1);
    }
  }

  function U16BE(s: seq<u8>, at: nat): u16
    requires at + 2 <= |s|
  {
    Widths();
    FromBE(s[at..at + 2])
  }

  function U32BE(s: seq<u8>, at: nat): u32
    requires at + 4 <= |s|
  {
    Widths();
    FromBE(s[at..at + 4])
  }

  function U64BE(s: seq<u8>, at: nat): u64
    requires at + 8 <= |s|
  {
    Widths();
    FromBE(s[at..at + 8])
  }

  function U16LE(s: seq<u8>, at: nat): u16
    requires at + 2 <= |s|
  {
    Widths();
    FromLE(s[at..at + 2])
  }

  function U32LE(s: seq<u8>, at: nat): u32
    requires at + 4 <= |s|
  {
    Widths();
    FromLE(s[at..at + 4])
  }

  function U64LE(s: seq<u8>, at: nat): u64
    requires at + 8 <= |s|
  {
    Widths();
    FromLE(s[at..at + 8])
  }

  /** The big-endian number in the `width` bytes from `at` on. */
  function Word(data: seq<u8>, at: nat, width: nat): nat
    requires at + width <= |data|
    decreases width
  {
    if width == 0 then 0 else data[at] * Pow256(width - 1) + Word(data, at + 1, width - 1)
  }

  /** The little-endian number there. */
  function WordLE(data: seq<u8>, at: nat, width: nat): nat
    requires at + width <= |data|
    decreases width
  {
    if width == 0 then 0 else WordLE(data, at, width - 1) + data[at + width - 1] * Pow256(width - 1)
  }

  lemma {:induction false} WordPush(data: seq<u8>, at: nat, width: nat)
    requires at + width + 1 <= |data|
    ensures Word(data, at, width + 1) == 256 * Word(data, at, width) + data[at + width]
    decreases width
  {
    if width == 0 {
      assert Word(data, at, 1) == data[at] * Pow256(0) + Word(data, at + 1, 0);
    } else {
      WordPush(data, at + 1, width - 1);
      var b, p := data[at], Pow256(width - 1);
      assert Pow256(width) == 256 * p;
      assert b * (256 * p) == 256 * (b * p);
    }
  }

  lemma {:induction false} BigEndian(data: seq<u8>, at: nat, width: nat)
    requires at + width <= |data|
    ensures FromBE(data[at..at + width]) == Word(data, at, width)
  {
    if width == 0 {
    } else {
      BigEndian(data, at, width - 1);
      WordPush(data, at, width - 1);
      assert data[at..at + width][..width - 1] == data[at..at + width - 1];
    }
  }

  lemma {:induction false} WordLEPush(data: seq<u8>, at: nat, width: nat)
    requires at + width + 1 <= |data|
    ensures WordLE(data, at, width + 1) == data[at] + 256 * WordLE(data, at + 1, width)
    decreases width
  {
    if width == 0 {
      assert WordLE(data, at, 1) == WordLE(data, at, 0) + data[at] * Pow256(0);
    } else {
      WordLEPush(data, at, width - 1);
      var b, p := data[at + width], Pow256(width - 1);
      assert Pow256(width) == 256 * p;
      assert b * (256 * p) == 256 * (b * p);
    }
  }

  lemma {:induction false} LittleEndian(data: seq<u8>, at: nat, width: nat)
    requires at + width <= |data|
    ensures FromLE(data[at..at + width]) == WordLE(data, at, width)
    decreases width
  {
    if width == 0 {
    } else {
      LittleEndian(data, at + 1, width - 1);
      WordLEPush(data, at, width - 1);
      assert data[at..at + width][1..] == data[at + 1..at + width];
    }
  }

  lemma U16Word(s: seq<u8>, at: nat)
    requires at + 2 <= |s|
    ensures U16BE(s, at) == Word(s, at, 2)
  {
    BigEndian(s, at, 2);
  }

  lemma U32Word(s: seq<u8>, at: nat)
    requires at + 4 <= |s|
    ensures U32BE(s, at) == Word(s, at, 4)
  {
    BigEndian(s, at, 4);
  }

  lemma U64Word(s: seq<u8>, at: nat)
    requires at + 8 <= |s|
    ensures U64BE(s, at) == Word(s, at, 8)
  {
    BigEndian(s, at, 8);
  }

  lemma U16WordLE(s: seq<u8>, at: nat)
    requires at + 2 <= |s|
    ensures U16LE(s, at) == WordLE(s, at, 2)
  {
    LittleEndian(s, at, 2);
  }

  lemma U32WordLE(s: seq<u8>, at: nat)
    requires at + 4 <= |s|
    ensures U32LE(s, at) == WordLE(s, at, 4)
  {
    LittleEndian(s, at, 4);
  }

  lemma U64WordLE(s: seq<u8>, at: nat)
    requires at + 8 <= |s|
    ensures U64LE(s, at) == WordLE(s, at, 8)
  {
    LittleEndian(s, at, 8);
  }
}
