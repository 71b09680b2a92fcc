/**
 * Hex strings, byte sequences and 32-byte big-endian words: the byte-level
 * vocabulary of call data.  `Arrayify` is the model of ethers'
 * `utils.arrayify` on a string argument, `WordToNat`/`NatToWord` are the
 * uint256 ABI word encoding.
 */
module Bytes {
  import opened Wrappers
  import opened Arith

  type byte = x: int | 0 <= x < 256

  const WORD_SIZE: nat := 32

  predicate IsHexDigit(c: char) {
    ('0' <= c <= '9') || ('a' <= c <= 'f') || ('A' <= c <= 'F')
  }

  predicate AllHexDigits(h: string) {
    forall i :: 0 <= i < |h| ==> IsHexDigit(h[i])
  }

  function HexValue(c: char): (v: nat)
    requires IsHexDigit(c)
    ensures v < 16
  {
    if '0' <= c <= '9' then c as int - '0' as int
    else if 'a' <= c <= 'f' then c as int - 'a' as int + 10
    else c as int - 'A' as int + 10
  }

  /** The lower-case hex digit of a nibble. */
  function HexDigit(v: nat): (c: char)
    requires v < 16
    ensures IsHexDigit(c) && HexValue(c) == v
  {
    if v < 10 then ('0' as int + v) as char else ('a' as int + v - 10) as char
  }

  /** The byte spelled by the hex digit pair at position 2k, 2k+1 of `h`. */
  function PairAt(h: string, k: nat): byte
    requires 2 * k + 1 < |h| && IsHexDigit(h[2 * k]) && IsHexDigit(h[2 * k + 1])
  {
    16 * HexValue(h[2 * k]) + HexValue(h[2 * k + 1])
  }

  /** Decodes hex digit pairs (no prefix) into bytes; fails on odd length or a non-hex character. */
  function DecodeHex(h: string): (r: Option<seq<byte>>)
    ensures r.Some? <==> |h| % 2 == 0 && AllHexDigits(h)
    ensures r.Some? ==> |r.value| == |h| / 2
    ensures r.Some? ==> forall k :: 0 <= k < |r.value| ==> r.value[k] == PairAt(h, k)
    decreases |h|
  {
    if |h| == 0 then Some([])
    else if |h| == 1 || !IsHexDigit(h[0]) || !IsHexDigit(h[1]) then None
    else
      var t := h[2..];
      AllHexTail(h);
      match DecodeHex(t)
      case None => None
      case Some(rest) =>
        var r := [PairAt(h, 0)] + rest;
        PairAtTail(h);
        Some(r)
  }

  /** A string with two leading hex digits is all hex exactly when the rest is. */
  lemma AllHexTail(h: string)
    requires |h| >= 2 && IsHexDigit(h[0]) && IsHexDigit(h[1])
    ensures AllHexDigits(h) <==> AllHexDigits(h[2..])
  {
    var t := h[2..];
    assert forall i :: 0 <= i < |t| ==> t[i] == h[i + 2];
    if AllHexDigits(t) {
      forall i | 0 <= i < |h| ensures IsHexDigit(h[i]) {
        if i >= 2 { assert h[i] == t[i - 2]; }
      }
    }
  }

  /** Dropping the first digit pair shifts every later pair down by one. */
  lemma PairAtTail(h: string)
    requires |h| >= 2 && AllHexDigits(h)
    ensures AllHexDigits(h[2..])
    ensures forall k :: 1 <= k < |h| / 2 ==> PairAt(h[2..], k - 1) == PairAt(h, k)
  {
    var t := h[2..];
    assert forall i :: 0 <= i < |t| ==> t[i] == h[i + 2];
  }

  /** ethers' `arrayify` on a string: it must be `0x` followed by an even number of hex digits. */
  function Arrayify(s: string): (r: Option<seq<byte>>)
    ensures r.Some? <==> |s| >= 2 && s[0] == '0' && s[1] == 'x' && DecodeHex(s[2..]).Some?
    ensures r.Some? ==> r == DecodeHex(s[2..])
  {
    if |s| >= 2 && s[0] == '0' && s[1] == 'x' then DecodeHex(s[2..]) else None
  }

  /** Lower-case hex digits of a byte sequence, two per byte. */
  function EncodeHex(b: seq<byte>): (h: string)
    ensures |h| == 2 * |b|
  {
    if b == [] then "" else [HexDigit(b[0] / 16), HexDigit(b[0] % 16)] + EncodeHex(b[1..])
  }

  lemma {:induction false} DecodeEncodeHex(b: seq<byte>)
    ensures DecodeHex(EncodeHex(b)) == Some(b)
  {
    if b != [] {
      DecodeEncodeHex(b[1..]);
      var h := EncodeHex(b);
      assert h[2..] == EncodeHex(b[1..]);
      assert PairAt(h, 0) == b[0];
      assert b == [b[0]] + b[1..];
    }
  }

  /** A joined string is all hex exactly when both parts are. */
  lemma AllHexAppend(a: string, b: string)
    ensures AllHexDigits(a + b) <==> AllHexDigits(a) && AllHexDigits(b)
  {
    var ab := a + b;
    if AllHexDigits(a) && AllHexDigits(b) {
      forall i | 0 <= i < |ab| ensures IsHexDigit(ab[i]) {
        if i < |a| { assert ab[i] == a[i]; } else { assert ab[i] == b[i - |a|]; }
      }
    }
    if AllHexDigits(ab) {
      forall i | 0 <= i < |a| ensures IsHexDigit(a[i]) { assert ab[i] == a[i]; }
      forall i | 0 <= i < |b| ensures IsHexDigit(b[i]) { assert ab[|a| + i] == b[i]; }
    }
  }

  /** Hex digits of 2k characters followed by anything decode piecewise. */
  lemma DecodeHexAppend(a: string, b: string)
    requires |a| % 2 == 0
    ensures DecodeHex(a + b).Some? <==> DecodeHex(a).Some? && DecodeHex(b).Some?
    ensures DecodeHex(a + b).Some? ==> DecodeHex(a + b).value == DecodeHex(a).value + DecodeHex(b).value
  {
    var ab := a + b;
    AllHexAppend(a, b);
    if DecodeHex(ab).Some? {
      var x, y, z := DecodeHex(a).value, DecodeHex(b).value, DecodeHex(ab).value;
      forall k | 0 <= k < |z| ensures z[k] == (x + y)[k] {
        PairAtAppend(a, b, k);
      }
    }
  }

  lemma PairAtAppend(a: string, b: string, k: nat)
    requires |a| % 2 == 0 && AllHexDigits(a) && AllHexDigits(b) && 2 * k + 1 < |a| + |b|
    ensures AllHexDigits(a + b)
    ensures k < |a| / 2 ==> PairAt(a + b, k) == PairAt(a, k)
    ensures k >= |a| / 2 ==> PairAt(a + b, k) == PairAt(b, k - |a| / 2)
  {
    AllHexAppend(a, b);
    var ab := a + b;
    if k < |a| / 2 {
      assert ab[2 * k] == a[2 * k] && ab[2 * k + 1] == a[2 * k + 1];
    } else {
      var j := k - |a| / 2;
      assert ab[2 * k] == b[2 * j] && ab[2 * k + 1] == b[2 * j + 1];
    }
  }


  /** 256^k */
  function Pow256(k: nat): (p: nat)
    ensures p >= 1
  {
    if k == 0 then 1 else 256 * Pow256(k - 1)
  }

  const TWO_256: nat := Pow256(WORD_SIZE)

  /** Big-endian unsigned value of a byte sequence. */
  function WordToNat(w: seq<byte>): nat
    decreases |w|
  {
    if |w| == 0 then 0 else WordToNat(w[..|w| - 1]) * 256 + w[|w| - 1]
  }

  /** The `len`-byte big-endian encoding of `n`, keeping the low `len` bytes (a uint cast). */
  function NatToBytes(n: nat, len: nat): (r: seq<byte>)
    ensures |r| == len
  {
    if len == 0 then [] else NatToBytes(n / 256, len - 1) + [n % 256]
  }

  /** The ABI encoding of a uint256. */
  function NatToWord(n: nat): (w: seq<byte>)
    ensures |w| == WORD_SIZE
  {
    NatToBytes(n, WORD_SIZE)
  }

  lemma DivModStep(n: nat, m: nat)
    requires m >= 1
    ensures ((n / 256) % m) * 256 + n % 256 == n % (256 * m)
  {
    var q, r := n / 256, n % 256;
    var k, s := q / m, q % m;
    assert n == 256 * q + r;
    assert q == m * k + s;
    assert n == (256 * m) * k + (256 * s + r);
    assert 0 <= 256 * s + r < 256 * m;
    ModUnique(n, 256 * m, k, 256 * s + r);
  }

  lemma {:induction false} WordOfBytes(n: nat, len: nat)
    ensures WordToNat(NatToBytes(n, len)) == n % Pow256(len)
  {
    if len > 0 {
      var s := NatToBytes(n / 256, len - 1);
      var t := s + [n % 256];
      assert t[..|t| - 1] == s;
      WordOfBytes(n / 256, len - 1);
      DivModStep(n, Pow256(len - 1));
    }
  }

  lemma {:induction false} WordToNatBound(w: seq<byte>)
    ensures WordToNat(w) < Pow256(|w|)
    decreases |w|
  {
    if |w| > 0 {
      WordToNatBound(w[..|w| - 1]);
    }
  }

  lemma {:induction false} BytesOfWord(w: seq<byte>)
    ensures NatToBytes(WordToNat(w), |w|) == w
    decreases |w|
  {
    if |w| > 0 {
      var p := w[..|w| - 1];
      var n := WordToNat(w);
      ModUnique(n, 256, WordToNat(p), w[|w| - 1]);
      BytesOfWord(p);
      assert w == p + [w[|w| - 1]];
    }
  }

  /** A uint256 survives the word encoding. */
  lemma WordRoundTrip(n: nat)
    requires n < TWO_256
    ensures WordToNat(NatToWord(n)) == n
  {
    WordOfBytes(n, WORD_SIZE);
    ModUnique(n, TWO_256, 0, n);
  }

  /** A 32-byte word is the encoding of its value. */
  lemma NatToWordOfWord(w: seq<byte>)
    requires |w| == WORD_SIZE
    ensures WordToNat(w) < TWO_256 && NatToWord(WordToNat(w)) == w
  {
    WordToNatBound(w);
    BytesOfWord(w);
  }
}
