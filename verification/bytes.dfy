/**
 * Byte strings as the ledger and the web front end handle them: the AVM's
 * `itob`/`btoi`, algosdk's `encodeUint64`/`decodeUint64`, JavaScript's
 * `slice` and indexing on `Uint8Array`, and the text encodings the pages use.
 */
module Bytes {
  import opened Wrappers

  type byte = b: int | 0 <= b < 256

  /** The AVM's only integer type. */
  type u64 = n: int | 0 <= n < 0x1_0000_0000_0000_0000

  const U64_LIMIT: nat := 0x1_0000_0000_0000_0000

  /** JavaScript's Number.MAX_SAFE_INTEGER, the bound of algosdk's 'safe' decoding mode. */
  const MAX_SAFE_INTEGER: nat := 0x1F_FFFF_FFFF_FFFF

  function Pow256(w: nat): (r: nat)
    ensures r >= 1
  {
    if w == 0 then 1 else 256 * Pow256(w - 1)
  }

  /** Big-endian encoding of `n` in `w` bytes; the bits above 8*w are dropped. */
  function ToBE(n: nat, w: nat): (r: seq<byte>)
    ensures |r| == w
  {
    if w == 0 then [] else ToBE(n / 256, w - 1) + [n % 256]
  }

  /** Big-endian value of a byte string; a short string reads as if padded with leading zeros. */
  function FromBE(bs: seq<byte>): (r: nat)
    ensures r < Pow256(|bs|)
  {
    if bs == [] then 0
    else
      var init := bs[..|bs| - 1];
      var v := FromBE(init);
      assert v <= Pow256(|init|) - 1;
      assert v * 256 <= Pow256(|init|) * 256 - 256;
      v * 256 + bs[|bs| - 1]
  }

  /** Division by a positive modulus is determined by any decomposition n == m*q + k with 0 <= k < m. */
  lemma DivModUnique(n: int, m: int, q: int, k: int)
    requires m > 0 && 0 <= k < m && n == m * q + k
    ensures n / m == q && n % m == k
  {
    var q', k' := n / m, n % m;
    assert m * (q - q') == k' - k;
    if q' > q {
      MulGrows(m, q' - q);
      assert false;
    } else if q' < q {
      MulGrows(m, q - q');
      assert false;
    }
  }

  lemma MulGrows(m: int, d: int)
    requires m > 0 && d >= 1
    ensures m * d >= m
  {
  }

  /** Reassembling a remainder modulo 256*p from the low byte and the remainder of the rest. */
  lemma ModCombine(n: nat, p: nat)
    requires p >= 1
    ensures ((n / 256) % p) * 256 + n % 256 == n % (256 * p)
  {
    var q := n / 256;
    var a, b := q / p, q % p;
    assert q == p * a + b;
    assert n == 256 * q + n % 256;
    assert n == (256 * p) * a + (256 * b + n % 256);
    assert 256 * b + n % 256 < 256 * p by {
      assert b <= p - 1;
      assert 256 * b <= 256 * p - 256;
    }
    DivModUnique(n, 256 * p, a, 256 * b + n % 256);
  }

  lemma {:induction false} FromToBE(n: nat, w: nat)
    ensures FromBE(ToBE(n, w)) == n % Pow256(w)
  {
    if w > 0 {
      var init := ToBE(n / 256, w - 1);
      var bs := init + [n % 256];
      assert bs[..|bs| - 1] == init;
      FromToBE(n / 256, w - 1);
      ModCombine(n, Pow256(w - 1));
      assert FromBE(bs) == ((n / 256) % Pow256(w - 1)) * 256 + n % 256;
    }
  }

  lemma {:induction false} ToFromBE(bs: seq<byte>)
    ensures ToBE(FromBE(bs), |bs|) == bs
  {
    if bs != [] {
      var init := bs[..|bs| - 1];
      var last := bs[|bs| - 1];
      var v := FromBE(bs);
      assert v == FromBE(init) * 256 + last;
      DivModUnique(v, 256, FromBE(init), last);
      ToFromBE(init);
      assert bs == init + [last];
    }
  }

  /** `Itob` (AVM) and `encodeUint64` (algosdk): the 8-byte big-endian form of a uint64. */
  function Itob(n: u64): (r: seq<byte>)
    ensures |r| == 8 && FromBE(r) == n
  {
    FromToBE(n, 8);
    assert Pow256(8) == U64_LIMIT;
    ToBE(n, 8)
  }

  /** The 2-byte big-endian form of a 16-bit length (ABI string and byte-array prefixes). */
  function Be16(n: nat): (r: seq<byte>)
    requires n < 0x1_0000
    ensures |r| == 2 && FromBE(r) == n
    ensures r == [n / 256, n % 256]
  {
    FromToBE(n, 2);
    assert Pow256(2) == 0x1_0000;
    ToBE(n, 2)
  }

  /** Distinct integers have distinct 8-byte encodings, so keys built from them never collide. */
  lemma ItobInjective(a: u64, b: u64)
    requires Itob(a) == Itob(b)
    ensures a == b
  {
    assert FromBE(Itob(a)) == a && FromBE(Itob(b)) == b;
  }

  /** Every 8-byte string is the encoding of exactly one uint64. */
  lemma ItobOnto(bs: seq<byte>)
    requires |bs| == 8
    ensures FromBE(bs) < U64_LIMIT && Itob(FromBE(bs)) == bs
  {
    assert Pow256(8) == U64_LIMIT;
    ToFromBE(bs);
  }

  /** The AVM's `btoi`, which fails on more than 8 bytes. */
  function Btoi(bs: seq<byte>): (r: Option<u64>)
    ensures r.Some? <==> |bs| <= 8
    ensures |bs| == 8 ==> r == Some(FromBE(bs)) && Itob(r.value) == bs
  {
    if |bs| <= 8 then
      assert Pow256(8) == U64_LIMIT;
      PowMonotone(|bs|, 8);
      if |bs| == 8 then ItobOnto(bs); Some(FromBE(bs)) else Some(FromBE(bs))
    else None
  }

  lemma {:induction false} PowMonotone(a: nat, b: nat)
    requires a <= b
    ensures Pow256(a) <= Pow256(b)
  {
    if a < b { PowMonotone(a, b - 1); }
  }

  /**
   * algosdk's `decodeUint64(data, 'safe')`: it throws on an empty input, on
   * more than 8 bytes, and on a value above Number.MAX_SAFE_INTEGER; a
   * shorter input is read as if left-padded with zeros.
   */
  function DecodeUint64Safe(data: seq<byte>): (r: Option<nat>)
    ensures r.Some? <==> 1 <= |data| <= 8 && FromBE(data) <= MAX_SAFE_INTEGER
    ensures r.Some? ==> r.value == FromBE(data)
  {
    if |data| == 0 || |data| > 8 then None
    else if FromBE(data) > MAX_SAFE_INTEGER then None
    else Some(FromBE(data))
  }

  /** JavaScript's normalisation of a `slice` position against a length. */
  function JsIndex(len: nat, i: int): (r: nat)
    ensures r <= len
    ensures 0 <= i <= len ==> r == i
    ensures i < 0 && len + i >= 0 ==> r == len + i
  {
    if i < 0 then (if len + i < 0 then 0 else len + i)
    else if i > len then len
    else i
  }

  /** `s.slice(start, end)`: negative positions count from the end, all positions are clamped. */
  function JsSlice<T>(s: seq<T>, start: int, end: int): (r: seq<T>)
    ensures |r| <= |s|
    ensures 0 <= start <= end <= |s| ==> r == s[start..end]
  {
    var from, to := JsIndex(|s|, start), JsIndex(|s|, end);
    if from < to then s[from..to] else []
  }

  /** `s.slice(start)`. */
  function JsSliceFrom<T>(s: seq<T>, start: int): (r: seq<T>)
    ensures |r| <= |s|
    ensures 0 <= start <= |s| ==> r == s[start..]
  {
    JsSlice(s, start, |s|)
  }

  /** `v[i]` on a Uint8Array: `undefined` (None) past the end. */
  function At(v: seq<byte>, i: nat): (r: Option<byte>)
    ensures r.Some? <==> i < |v|
    ensures i < |v| ==> r.value == v[i]
  {
    if i < |v| then Some(v[i]) else None
  }

  /** `TextEncoder.encode` of one character: its UTF-8 form. */
  function Utf8Char(c: char): (r: seq<byte>)
    ensures 1 <= |r| <= 4
    ensures |r| == 1 <==> (c as int) < 0x80
    ensures (c as int) < 0x80 ==> r == [c as int]
  {
    var n := c as int;
    if n < 0x80 then [n]
    else if n < 0x800 then [0xC0 + n / 0x40, 0x80 + n % 0x40]
    else if n < 0x10000 then [0xE0 + n / 0x1000, 0x80 + (n / 0x40) % 0x40, 0x80 + n % 0x40]
    else [0xF0 + (n / 0x40000) % 8, 0x80 + (n / 0x1000) % 0x40, 0x80 + (n / 0x40) % 0x40, 0x80 + n % 0x40]
  }

  /** `TextEncoder.encode`: UTF-8, character by character. */
  function Utf8(s: string): (r: seq<byte>)
    ensures |r| >= |s|
  {
    if s == [] then [] else Utf8Char(s[0]) + Utf8(s[1..])
  }

  /** An ASCII string encodes to its character codes, one byte each. */
  lemma {:induction false} Utf8Ascii(s: string)
    requires forall i :: 0 <= i < |s| ==> (s[i] as int) < 0x80
    ensures |Utf8(s)| == |s|
    ensures forall i :: 0 <= i < |s| ==> Utf8(s)[i] == s[i] as int
  {
    if s != [] {
      Utf8Ascii(s[1..]);
    }
  }

  /** The UTF-16 code units of a character (what `split('')` and `charCodeAt` see). */
  function Utf16Units(c: char): (r: seq<nat>)
    ensures 1 <= |r| <= 2
    ensures forall i :: 0 <= i < |r| ==> r[i] < 0x10000
  {
    var n := c as int;
    if n < 0x10000 then [n]
    else [0xD800 + ((n - 0x10000) / 0x400) % 0x400, 0xDC00 + (n - 0x10000) % 0x400]
  }

  /** Characters that JavaScript's `String.prototype.trim` removes (WhiteSpace and LineTerminator). */
  predicate IsJsWhitespace(c: char) {
    || c == '\t' || c == '\n' || c == '\U{000B}' || c == '\U{000C}' || c == '\r' || c == ' '
    || c == '\U{00A0}' || c == '\U{1680}' || ('\U{2000}' <= c <= '\U{200A}')
    || c == '\U{2028}' || c == '\U{2029}' || c == '\U{202F}' || c == '\U{205F}'
    || c == '\U{3000}' || c == '\U{FEFF}'
  }

  /** `s.trim()` is empty exactly when every character is whitespace. */
  predicate IsBlank(s: string) {
    forall i :: 0 <= i < |s| ==> IsJsWhitespace(s[i])
  }
}
