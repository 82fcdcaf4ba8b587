/**
 * Go strings as the injector sees them. A key name arrives through JSON
 * decoding, so it is always valid UTF-8: its runes are a Dafny `string` (a
 * sequence of Unicode scalar values) and its Go bytes are their UTF-8
 * encoding. `len(key)` is `|Bytes(key)|`, `key[0]` is `Bytes(key)[0]` and
 * `len([]rune(key))` is `|key|`.
 */
module GoString {
  import opened Win32

  predicate IsAscii(c: char) {
    c as int < 0x80
  }

  /** The UTF-8 encoding of one rune. */
  function RuneBytes(c: char): (r: seq<byte>)
    ensures 1 <= |r| <= 4
    ensures |r| == 1 <==> IsAscii(c)
    ensures IsAscii(c) ==> r[0] as int == c as int
  {
    var n := c as int;
    if n < 0x80 then [n as byte]
    else if n < 0x800 then [(0xC0 + n / 0x40) as byte, (0x80 + n % 0x40) as byte]
    else if n < 0x1_0000 then
      [(0xE0 + n / 0x1000) as byte, (0x80 + n / 0x40 % 0x40) as byte, (0x80 + n % 0x40) as byte]
    else
      [(0xF0 + n / 0x4_0000) as byte, (0x80 + n / 0x1000 % 0x40) as byte,
       (0x80 + n / 0x40 % 0x40) as byte, (0x80 + n % 0x40) as byte]
  }

  /** The number of bytes UTF-8 needs for one rune. */
  function RuneLength(c: char): (n: nat)
    ensures n == |RuneBytes(c)|
  {
    if c as int < 0x80 then 1 else if c as int < 0x800 then 2 else if c as int < 0x1_0000 then 3 else 4
  }

  /** The bytes of a Go string holding these runes. */
  function Bytes(s: string): (r: seq<byte>)
    ensures |r| >= |s|
    ensures s != [] ==> r[0] == RuneBytes(s[0])[0]
  {
    if s == [] then [] else RuneBytes(s[0]) + Bytes(s[1..])
  }

  /** Go's `len(s)`: the number of bytes. */
  function ByteLength(s: string): (n: nat)
    ensures n == |Bytes(s)|
  {
    if s == [] then 0 else RuneLength(s[0]) + ByteLength(s[1..])
  }

  /** Go's `s[0]`: the first byte. */
  function FirstByte(s: string): (b: byte)
    requires s != []
    ensures b == Bytes(s)[0]
  {
    RuneBytes(s[0])[0]
  }

  /** Some rune of `s` lies outside ASCII. */
  predicate HasNonAscii(s: string) {
    exists i :: 0 <= i < |s| && !IsAscii(s[i])
  }

  /**
   * A string has as many bytes as runes exactly when it is all ASCII; otherwise
   * it has strictly more bytes.
   */
  lemma {:induction false} ByteCount(s: string)
    ensures ByteLength(s) >= |s|
    ensures ByteLength(s) != |s| <==> HasNonAscii(s)
  {
    if s != [] {
      ByteCount(s[1..]);
      assert HasNonAscii(s) <==> !IsAscii(s[0]) || HasNonAscii(s[1..]) by {
        if HasNonAscii(s[1..]) {
          var i :| 0 <= i < |s[1..]| && !IsAscii(s[1..][i]);
          assert !IsAscii(s[i + 1]);
        }
        if HasNonAscii(s) && IsAscii(s[0]) {
          var i :| 0 <= i < |s| && !IsAscii(s[i]);
          assert i > 0 && !IsAscii(s[1..][i - 1]);
        }
      }
    }
  }

  /** `len(key) == 1` holds exactly for a single ASCII rune, and then `key[0]` is that rune. */
  lemma SingleByte(s: string)
    ensures ByteLength(s) == 1 <==> |s| == 1 && IsAscii(s[0])
    ensures ByteLength(s) == 1 ==> FirstByte(s) as int == s[0] as int
  {
    if s != [] {
      ByteCount(s[1..]);
    }
  }

  /**
   * The byte length of an ASCII string is its rune count; any other string has
   * at least two bytes and more bytes than runes. For one rune, being non-ASCII
   * is the rune's own property (SingleByte then gives `len(key) == 1`).
   */
  lemma ByteLengthCases(s: string)
    ensures !HasNonAscii(s) ==> ByteLength(s) == |s|
    ensures HasNonAscii(s) ==> ByteLength(s) > |s| && ByteLength(s) >= 2
    ensures |s| == 1 ==> (HasNonAscii(s) <==> !IsAscii(s[0]))
  {
    ByteCount(s);
    if |s| == 1 && IsAscii(s[0]) {
      assert !HasNonAscii(s);
    }
  }

  /**
   * The part of Go's strings.ToUpper that the named-key lookup can observe:
   * ASCII letters, and the two non-ASCII runes whose upper case is ASCII
   * (U+017F LATIN SMALL LETTER LONG S and U+0131 LATIN SMALL LETTER DOTLESS I).
   * Every other rune is kept: Go maps it to a non-ASCII rune or to itself, and
   * either way the result cannot equal an ASCII table name.
   */
  function UpperRune(c: char): (u: char)
    ensures !('a' <= u <= 'z')
    ensures IsAscii(c) ==> IsAscii(u)
    ensures IsAscii(u) && !IsAscii(c) ==> c == '\U{017F}' || c == '\U{0131}'
  {
    if 'a' <= c <= 'z' then (c as int - 0x20) as char
    else if c == '\U{017F}' then 'S'
    else if c == '\U{0131}' then 'I'
    else c
  }

  /** strings.ToUpper, rune by rune. */
  function ToUpper(s: string): (u: string)
    ensures |u| == |s|
  {
    if s == [] then [] else [UpperRune(s[0])] + ToUpper(s[1..])
  }

  /** Each rune of the result is the upper case of the rune in the same place. */
  lemma {:induction false} ToUpperPointwise(s: string)
    ensures forall i :: 0 <= i < |s| ==> ToUpper(s)[i] == UpperRune(s[i])
  {
    if s != [] {
      ToUpperPointwise(s[1..]);
      assert forall i :: 1 <= i < |s| ==> ToUpper(s)[i] == ToUpper(s[1..])[i - 1];
    }
  }
}
