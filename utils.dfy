/**
 * The `utils` helpers of nostr_dht.js: lowercase hex encoding of byte buffers
 * (`bufferToHex`) and random alphanumeric identifiers (`generateRandomId`).
 */
module Utils {
  import opened Wrappers

  /** An element of a `Uint8Array`. */
  type byte = x: int | 0 <= x < 256

  /** A character `Number.prototype.toString(16)` can produce. */
  predicate IsHexChar(c: char) {
    '0' <= c <= '9' || 'a' <= c <= 'f'
  }

  predicate IsLowerHex(s: string) {
    forall i :: 0 <= i < |s| ==> IsHexChar(s[i])
  }

  /** The digit `toString(16)` writes for a value below 16. */
  function HexDigit(d: nat): (c: char)
    requires d < 16
    ensures IsHexChar(c)
  {
    if d < 10 then ('0' as int + d) as char else ('a' as int + d - 10) as char
  }

  /** The value of a hex digit: the inverse of HexDigit. */
  function HexValue(c: char): (d: nat)
    requires IsHexChar(c)
    ensures d < 16 && HexDigit(d) == c
  {
    if c <= '9' then c as int - '0' as int else c as int - 'a' as int + 10
  }

  /** The number a string of hex digits denotes, most significant digit first. */
  function HexNumber(s: string): nat
    requires IsLowerHex(s)
  {
    if s == [] then 0 else 16 * HexNumber(s[..|s| - 1]) + HexValue(s[|s| - 1])
  }

  /**
   * `n.toString(16)` for a non-negative integer: the hex digits that denote n,
   * without leading zeros (so "0" for zero).
   */
  function ToRadix16(n: nat): (s: string)
    ensures IsLowerHex(s) && HexNumber(s) == n
    ensures |s| >= 1 && (n > 0 ==> s[0] != '0')
    ensures n < 16 <==> |s| == 1
    ensures n < 256 ==> |s| <= 2
  {
    if n < 16 then [HexDigit(n)]
    else
      var s := ToRadix16(n / 16) + [HexDigit(n % 16)];
      assert s[..|s| - 1] == ToRadix16(n / 16);
      s
  }

  /** `s.padStart(width, fill)` with a one-character fill. */
  function PadStart(s: string, width: nat, fill: char): (r: string)
    ensures |r| == if |s| < width then width else |s|
    ensures r[|r| - |s|..] == s
    ensures forall i :: 0 <= i < |r| - |s| ==> r[i] == fill
  {
    if |s| < width then seq(width - |s|, _ => fill) + s else s
  }

  /** The two-digit lowercase hex form of a byte, high digit first. */
  function ByteToHex(c: byte): (r: string)
    ensures |r| == 2 && IsLowerHex(r)
    ensures 16 * HexValue(r[0]) + HexValue(r[1]) == c
  {
    [HexDigit(c / 16), HexDigit(c % 16)]
  }

  /** One step of the `bufferToHex` reduction, `c.toString(16).padStart(2, '0')`, is ByteToHex(c). */
  lemma ByteToHexIsPaddedRadix16(c: byte)
    ensures PadStart(ToRadix16(c), 2, '0') == ByteToHex(c)
  {
    if c < 16 {
      assert ToRadix16(c) == [HexDigit(c)];
      assert PadStart([HexDigit(c)], 2, '0') == ['0', HexDigit(c)];
    } else {
      assert ToRadix16(c / 16) == [HexDigit(c / 16)];
      assert ToRadix16(c) == [HexDigit(c / 16), HexDigit(c % 16)];
    }
  }

  /**
   * `utils.bufferToHex`: the left-to-right reduction that appends the two-digit
   * lowercase hex form of each byte.
   */
  function BufferToHex(buffer: seq<byte>): (r: string)
    ensures |r| == 2 * |buffer| && IsLowerHex(r)
  {
    if buffer == [] then "" else BufferToHex(buffer[..|buffer| - 1]) + ByteToHex(buffer[|buffer| - 1])
  }

  /** Reading a lowercase hex string back as bytes, two digits per byte. */
  function HexToBuffer(s: string): Option<seq<byte>>
  {
    if |s| == 0 then Some([])
    else if |s| == 1 || !IsHexChar(s[0]) || !IsHexChar(s[1]) then None
    else
      match HexToBuffer(s[2..])
      case None => None
      case Some(rest) => Some([16 * HexValue(s[0]) + HexValue(s[1])] + rest)
  }

  /** The hex form of a buffer is the hex form of its first byte followed by that of the rest. */
  lemma {:induction false} BufferToHexCons(buffer: seq<byte>)
    requires buffer != []
    ensures BufferToHex(buffer) == ByteToHex(buffer[0]) + BufferToHex(buffer[1..])
    decreases |buffer|
  {
    if |buffer| > 1 {
      var init, tail := buffer[..|buffer| - 1], buffer[1..];
      var last := ByteToHex(buffer[|buffer| - 1]);
      BufferToHexCons(init);
      assert init[1..] == tail[..|tail| - 1];
      calc {
        BufferToHex(buffer);
        BufferToHex(init) + last;
        (ByteToHex(buffer[0]) + BufferToHex(init[1..])) + last;
        ByteToHex(buffer[0]) + (BufferToHex(tail[..|tail| - 1]) + last);
        ByteToHex(buffer[0]) + BufferToHex(tail);
      }
    } else {
      assert buffer[..0] == [] && buffer[1..] == [];
    }
  }

  /** Decoding the hex form of a buffer gives the buffer back. */
  lemma {:induction false} BufferToHexRoundTrip(buffer: seq<byte>)
    ensures HexToBuffer(BufferToHex(buffer)) == Some(buffer)
  {
    if buffer != [] {
      BufferToHexCons(buffer);
      var s := BufferToHex(buffer);
      assert s[2..] == BufferToHex(buffer[1..]);
      BufferToHexRoundTrip(buffer[1..]);
      assert buffer == [buffer[0]] + buffer[1..];
    }
  }

  /** Distinct buffers have distinct hex forms. */
  lemma BufferToHexInjective(a: seq<byte>, b: seq<byte>)
    requires BufferToHex(a) == BufferToHex(b)
    ensures a == b
  {
    BufferToHexRoundTrip(a);
    BufferToHexRoundTrip(b);
  }

  // ---------------------------------------------------------------------------
  // generateRandomId

  /** The character set of `generateRandomId`: digits, then each letter in upper and lower case
      (one string literal in the source, written here in pieces of ten). */
  const CharSet: string :=
    "0123456789" + "AaBbCcDdEe" + "FfGgHhIiJj" + "KkLlMmNnOo" + "PpQqRrSsTt" + "UuVvWwXxYy" + "Zz"

  predicate IsAlphanumeric(c: char) {
    '0' <= c <= '9' || 'A' <= c <= 'Z' || 'a' <= c <= 'z'
  }

  /** The character set holds 62 characters, and they are exactly the ASCII letters and digits. */
  lemma CharSetIsAlphanumerics(c: char)
    ensures |CharSet| == 62
    ensures c in CharSet <==> IsAlphanumeric(c)
  {
    assert c in "0123456789" <==> '0' <= c <= '9';
    assert c in "AaBbCcDdEe" <==> 'A' <= c <= 'E' || 'a' <= c <= 'e';
    assert c in "FfGgHhIiJj" <==> 'F' <= c <= 'J' || 'f' <= c <= 'j';
    assert c in "KkLlMmNnOo" <==> 'K' <= c <= 'O' || 'k' <= c <= 'o';
    assert c in "PpQqRrSsTt" <==> 'P' <= c <= 'T' || 'p' <= c <= 't';
    assert c in "UuVvWwXxYy" <==> 'U' <= c <= 'Y' || 'u' <= c <= 'y';
  }

  /** `Math.floor(r * charSet.length)` for a draw r of `Math.random()`, which lies in [0, 1). */
  function PickIndex(r: real): (k: nat)
    requires 0.0 <= r < 1.0
    ensures k < |CharSet|
    ensures k as real <= r * 62.0 < k as real + 1.0
  {
    (r * 62.0).Floor
  }

  /**
   * `utils.generateRandomId(n)`: fills an array of n slots, slot i with the
   * character at `Math.floor(random[i] * 62)`, and joins it. `random` holds the
   * successive results of `Math.random()`, one per slot.
   */
  method GenerateRandomId(n: nat, random: seq<real>) returns (id: string)
    requires |random| == n
    requires forall i :: 0 <= i < n ==> 0.0 <= random[i] < 1.0
    ensures |id| == n
    ensures forall i :: 0 <= i < n ==> id[i] == CharSet[PickIndex(random[i])]
    ensures forall i :: 0 <= i < n ==> IsAlphanumeric(id[i])
  {
    var randomId := new char[n];
    for i := 0 to randomId.Length
      invariant forall j :: 0 <= j < i ==> randomId[j] == CharSet[PickIndex(random[j])]
    {
      randomId[i] := CharSet[PickIndex(random[i])];
    }
    id := randomId[..];
    forall i | 0 <= i < n
      ensures IsAlphanumeric(id[i])
    {
      CharSetIsAlphanumerics(id[i]);
    }
  }
}
