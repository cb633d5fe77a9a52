/** The two string operations the scripts use: upper-casing and `str.replace` of one character. */
module Text {

  function UpperChar(c: char): (u: char)
    ensures 'a' <= c <= 'z' ==> u as int == c as int - 32
    ensures !('a' <= c <= 'z') ==> u == c
    ensures !('a' <= u <= 'z')
  {
    if 'a' <= c <= 'z' then (c as int - 32) as char else c
  }

  /** `str.upper()` on the ASCII letters; every other character is left alone. */
  function Upper(s: string): (r: string)
    ensures |r| == |s|
    ensures forall i :: 0 <= i < |s| ==> r[i] == UpperChar(s[i])
  {
    if s == [] then [] else [UpperChar(s[0])] + Upper(s[1..])
  }

  lemma UpperIdempotent(s: string)
    ensures Upper(Upper(s)) == Upper(s)
  {
    assert forall i :: 0 <= i < |s| ==> UpperChar(UpperChar(s[i])) == UpperChar(s[i]);
  }

  /** `s.replace(a, b)` for single characters `a` and `b`. */
  function Replace(s: string, a: char, b: char): (r: string)
    ensures |r| == |s|
    ensures forall i :: 0 <= i < |s| ==> r[i] == if s[i] == a then b else s[i]
  {
    if s == [] then [] else [if s[0] == a then b else s[0]] + Replace(s[1..], a, b)
  }

  /**
    The separator swap of `format_valor`, `.replace(",", "X").replace(".", ",")
    .replace("X", ".")`: it turns the thousands commas and the decimal point of
    `f"{v:,.2f}"` into the Brazilian dots and comma.
   */
  function SwapSeparators(s: string): string {
    Replace(Replace(Replace(s, ',', 'X'), '.', ','), 'X', '.')
  }

  /** On text without an 'X' (every formatted amount), the swap exchanges ',' and '.' and keeps every other character. */
  lemma SwapSeparatorsPerChar(s: string)
    requires 'X' !in s
    ensures |SwapSeparators(s)| == |s|
    ensures forall i :: 0 <= i < |s| ==>
              SwapSeparators(s)[i] == if s[i] == ',' then '.' else if s[i] == '.' then ',' else s[i]
  {
    var a := Replace(s, ',', 'X');
    var b := Replace(a, '.', ',');
    forall i | 0 <= i < |s|
      ensures SwapSeparators(s)[i] == if s[i] == ',' then '.' else if s[i] == '.' then ',' else s[i]
    {
      assert s[i] != 'X';
      assert a[i] == if s[i] == ',' then 'X' else s[i];
      assert b[i] == if a[i] == '.' then ',' else a[i];
    }
  }

  /** Swapping twice gives the text back. */
  lemma SwapSeparatorsInvolution(s: string)
    requires 'X' !in s
    ensures SwapSeparators(SwapSeparators(s)) == s
  {
    var t := SwapSeparators(s);
    SwapSeparatorsPerChar(s);
    assert forall i :: 0 <= i < |t| ==> t[i] != 'X';
    SwapSeparatorsPerChar(t);
  }
}
