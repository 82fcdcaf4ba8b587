/**
 * genRandom of main.go: the random socket path, one character of a
 * 64-character alphabet per random byte.
 *
 * The random bytes are a parameter: crypto/rand is not part of this model.
 */
module Token {
  import opened Win32

  const Digits: string := "0123456789"
  const Upper: string := "ABCDEFGHIJKLMNOPQRSTUVWXYZ"
  const Lower: string := "abcdefghijklmnopqrstuvwxyz"
  /** The alphabet, in the source's order: digits, upper case, lower case, '-' and '_'. */
  const Letters: string := Digits + Upper + Lower + "-_"

  /** The position of a character in the alphabet, or -1 for any other character. */
  function LetterIndex(c: char): (i: int)
    ensures -1 <= i < 64
  {
    if '0' <= c <= '9' then c as int - '0' as int
    else if 'A' <= c <= 'Z' then c as int - 'A' as int + 10
    else if 'a' <= c <= 'z' then c as int - 'a' as int + 36
    else if c == '-' then 62
    else if c == '_' then 63
    else -1
  }

  lemma DigitsAscending()
    ensures forall i :: 0 <= i < 10 ==> Digits[i] == ('0' as int + i) as char
  {
  }

  lemma UpperAscending()
    ensures forall i :: 0 <= i < 26 ==> Upper[i] == ('A' as int + i) as char
  {
  }

  lemma LowerAscending()
    ensures forall i :: 0 <= i < 26 ==> Lower[i] == ('a' as int + i) as char
  {
  }

  /**
   * The alphabet has 64 characters and LetterIndex inverts indexing into it;
   * so its characters are pairwise distinct and `% 64` picks each of them for
   * exactly the bytes of one residue class.
   */
  lemma AlphabetDecodes()
    ensures |Letters| == 64
    ensures forall i :: 0 <= i < 64 ==> LetterIndex(Letters[i]) == i
  {
    DigitsAscending();
    UpperAscending();
    LowerAscending();
  }

  /** Distinct residues give distinct characters. */
  lemma AlphabetDistinct(i: int, j: int)
    requires 0 <= i < 64 && 0 <= j < 64
    ensures Letters[i] == Letters[j] <==> i == j
  {
    AlphabetDecodes();
  }

  /**
   * genRandom: character i of the token is the letter at `r[i] % 64`, where
   * `r` holds the n bytes read from the random source. Reading the token back
   * recovers every residue, so no two residue sequences give the same token.
   */
  method GenRandom(n: nat, r: seq<byte>) returns (s: string)
    requires |r| == n
    ensures |s| == n
    ensures forall i :: 0 <= i < n ==> s[i] == Letters[r[i] as int % 64]
    ensures forall i :: 0 <= i < n ==> s[i] in Letters
    ensures forall i :: 0 <= i < n ==> LetterIndex(s[i]) == r[i] as int % 64
  {
    AlphabetDecodes();
    var b := new char[n];
    for i := 0 to n
      invariant forall j :: 0 <= j < i ==> b[j] == Letters[r[j] as int % 64]
    {
      b[i] := Letters[r[i] as int % |Letters|];
    }
    s := b[..];
  }
}
