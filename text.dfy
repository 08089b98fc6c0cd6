/** String helpers the handler relies on from Go's `strings` package. */
module Text {

  const CRLF: string := "\r\n"

  /** The chunks written one after another. */
  function Concat(chunks: seq<string>): string
  {
    if chunks == [] then "" else chunks[0] + Concat(chunks[1..])
  }

  lemma {:induction false} ConcatAppend(a: seq<string>, b: seq<string>)
    ensures Concat(a + b) == Concat(a) + Concat(b)
  {
    if a == [] {
      assert a + b == b;
    } else {
      assert (a + b)[1..] == a[1..] + b;
      ConcatAppend(a[1..], b);
    }
  }

  /** `strings.Join`: the elements with `sep` between neighbours. */
  function Join(xs: seq<string>, sep: string): string
  {
    if xs == [] then ""
    else if |xs| == 1 then xs[0]
    else xs[0] + sep + Join(xs[1..], sep)
  }

  /** Joining a longer list puts one more separator before the new last element. */
  lemma {:induction false} JoinAppend(xs: seq<string>, x: string, sep: string)
    requires xs != []
    ensures Join(xs + [x], sep) == Join(xs, sep) + sep + x
  {
    if |xs| == 1 {
      assert xs + [x] == [xs[0], x];
    } else {
      assert (xs + [x])[1..] == xs[1..] + [x];
      JoinAppend(xs[1..], x, sep);
    }
  }

  /** Position of the first occurrence of `c` in `s`. */
  function FirstIndex(s: string, c: char): (i: nat)
    requires c in s
    ensures i < |s| && s[i] == c && c !in s[..i]
  {
    if s[0] == c then 0
    else
      var k := FirstIndex(s[1..], c);
      assert s[..k + 1] == [s[0]] + s[1..][..k];
      k + 1
  }

  /** `strings.Replace(s, string(c), with, 1)`: only the first `c` is replaced. */
  function ReplaceFirst(s: string, c: char, with: string): (r: string)
    ensures c !in s ==> r == s
    ensures c in s ==> r == s[..FirstIndex(s, c)] + with + s[FirstIndex(s, c) + 1..]
  {
    if s == [] then []
    else if s[0] == c then with + s[1..]
    else
      var rest := ReplaceFirst(s[1..], c, with);
      assert c in s ==> c in s[1..] && FirstIndex(s, c) == FirstIndex(s[1..], c) + 1;
      assert s == [s[0]] + s[1..];
      [s[0]] + rest
  }

  /**
   * Go's `unicode.ToUpper` restricted to what decides equality with an
   * upper-case ASCII word: ASCII letters, and the two non-ASCII runes whose
   * upper case is ASCII (dotless i U+0131 becomes I, long s U+017F becomes S).
   * Every other rune is left alone here; Go maps some of them to other
   * non-ASCII runes, which never equal an ASCII letter either way.
   */
  function UpperChar(c: char): char
  {
    if 'a' <= c <= 'z' then (c as int - 32) as char
    else if c == '\U{0131}' then 'I'
    else if c == '\U{017F}' then 'S'
    else c
  }

  /** `strings.ToUpper`, rune by rune. */
  function Upper(s: string): (r: string)
    ensures |r| == |s|
    ensures forall i :: 0 <= i < |s| ==> r[i] == UpperChar(s[i])
  {
    if s == [] then [] else [UpperChar(s[0])] + Upper(s[1..])
  }

  predicate IsUpperAsciiWord(t: string)
  {
    forall i :: 0 <= i < |t| ==> 'A' <= t[i] <= 'Z'
  }

  /** `c` is one of the spellings of the upper-case ASCII letter `u`. */
  predicate SpellsLetter(c: char, u: char)
    requires 'A' <= u <= 'Z'
  {
    c == u || c == (u as int + 32) as char
    || (u == 'I' && c == '\U{0131}') || (u == 'S' && c == '\U{017F}')
  }

  /** `s` spells the upper-case ASCII word `t` in any mixture of cases. */
  predicate SpellsIgnoringCase(s: string, t: string)
    requires IsUpperAsciiWord(t)
  {
    |s| == |t| && forall i :: 0 <= i < |s| ==> SpellsLetter(s[i], t[i])
  }

  /** Comparing `Upper(s)` with an upper-case word is a case-insensitive match. */
  lemma UpperMatchesIgnoringCase(s: string, t: string)
    requires IsUpperAsciiWord(t)
    ensures Upper(s) == t <==> SpellsIgnoringCase(s, t)
  {
    if SpellsIgnoringCase(s, t) {
      forall i | 0 <= i < |s|
        ensures Upper(s)[i] == t[i]
      {
        assert SpellsLetter(s[i], t[i]);
      }
    }
  }
}
