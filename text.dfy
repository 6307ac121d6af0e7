/** Character classes and string operations that the source gets from JavaScript regular
    expressions and `String` methods. */
module Text {
  import opened Seqs

  /** `\d` (and `[0-9]`) outside Unicode mode: the ASCII digits. */
  predicate IsDigit(c: char) {
    '0' <= c <= '9'
  }

  /** `\s`: ECMAScript's WhiteSpace and LineTerminator code points. `String.prototype.trim`
      removes exactly the same set. */
  predicate IsSpace(c: char) {
    || c == '\t' || c == '\n' || c == '\U{000B}' || c == '\U{000C}' || c == '\r' || c == ' '
    || c == '\U{00A0}' || c == '\U{1680}' || ('\U{2000}' <= c <= '\U{200A}')
    || c == '\U{2028}' || c == '\U{2029}' || c == '\U{202F}' || c == '\U{205F}'
    || c == '\U{3000}' || c == '\U{FEFF}'
  }

  predicate IsNotSpace(c: char) {
    !IsSpace(c)
  }

  predicate AllDigits(s: string) {
    forall i :: 0 <= i < |s| ==> IsDigit(s[i])
  }

  predicate NoSpaces(s: string) {
    forall i :: 0 <= i < |s| ==> !IsSpace(s[i])
  }

  /** The numeric value of an ASCII digit (`parseInt` of a one-digit string). */
  function DigitValue(c: char): (d: nat)
    requires IsDigit(c)
    ensures d <= 9
  {
    c as int - '0' as int
  }

  /** `s.replace(/\s/g, "")`. */
  function RemoveSpaces(s: string): (r: string)
    ensures NoSpaces(r)
  {
    Filter(s, IsNotSpace)
  }

  /** `s.replace(/\D/g, "")`. */
  function KeepDigits(s: string): (r: string)
    ensures AllDigits(r)
  {
    Filter(s, IsDigit)
  }

  /** Keeping the digits of a concatenation keeps those of each part. */
  lemma KeepDigitsConcat(a: string, b: string)
    ensures KeepDigits(a + b) == KeepDigits(a) + KeepDigits(b)
  {
    FilterConcat(a, b, IsDigit);
  }

  /** Deleting spaces from a concatenation deletes them from each part. */
  lemma RemoveSpacesConcat(a: string, b: string)
    ensures RemoveSpaces(a + b) == RemoveSpaces(a) + RemoveSpaces(b)
  {
    FilterConcat(a, b, IsNotSpace);
  }

  /** A string without spaces is left as it is. */
  lemma RemoveSpacesNoSpaces(s: string)
    requires NoSpaces(s)
    ensures RemoveSpaces(s) == s
  {
    FilterAllPass(s, IsNotSpace);
  }

  /** A string of digits is left as it is by KeepDigits. */
  lemma KeepDigitsAllDigits(s: string)
    requires AllDigits(s)
    ensures KeepDigits(s) == s
  {
    FilterAllPass(s, IsDigit);
  }

  /** Digits are not whitespace. */
  lemma DigitsHaveNoSpaces(s: string)
    requires AllDigits(s)
    ensures NoSpaces(s)
  {
  }

  /** A string made only of spaces disappears entirely. */
  lemma {:induction false} RemoveSpacesAllSpaces(s: string)
    requires forall i :: 0 <= i < |s| ==> IsSpace(s[i])
    ensures RemoveSpaces(s) == ""
  {
    if s != [] {
      RemoveSpacesAllSpaces(s[1..]);
    }
  }

  /** Every character is whitespace. */
  predicate AllSpaces(s: string) {
    forall i :: 0 <= i < |s| ==> IsSpace(s[i])
  }

  /** `s.trimStart()`. */
  function TrimStart(s: string): (r: string)
    ensures |r| <= |s| && r == s[|s| - |r|..]
    ensures r == [] || !IsSpace(r[0])
  {
    if s != [] && IsSpace(s[0]) then TrimStart(s[1..]) else s
  }

  /** `s.trimEnd()`. */
  function TrimEnd(s: string): (r: string)
    ensures |r| <= |s| && r == s[..|r|]
    ensures r == [] || !IsSpace(r[|r| - 1])
  {
    if s != [] && IsSpace(s[|s| - 1]) then TrimEnd(s[..|s| - 1]) else s
  }

  /** `trimStart` removes nothing but whitespace: everything before the result is whitespace. */
  lemma {:induction false} TrimStartRemovesOnlySpaces(s: string)
    ensures AllSpaces(s[..|s| - |TrimStart(s)|])
  {
    if s != [] && IsSpace(s[0]) {
      TrimStartRemovesOnlySpaces(s[1..]);
      var n := |s| - |TrimStart(s)|;
      assert s[..n] == [s[0]] + s[1..][..n - 1];
    }
  }

  /** `trimEnd` removes nothing but whitespace: everything after the result is whitespace. */
  lemma {:induction false} TrimEndRemovesOnlySpaces(s: string)
    ensures AllSpaces(s[|TrimEnd(s)|..])
  {
    if s != [] && IsSpace(s[|s| - 1]) {
      TrimEndRemovesOnlySpaces(s[..|s| - 1]);
      var n := |TrimEnd(s)|;
      assert s[n..] == s[..|s| - 1][n..] + [s[|s| - 1]];
    }
  }

  /** `s.trim()`. */
  function Trim(s: string): string {
    TrimEnd(TrimStart(s))
  }

  /** `!s.trim()`: the trimmed string is empty, so falsy. */
  predicate IsBlank(s: string) {
    Trim(s) == ""
  }

  /** A string is blank exactly when every character of it is a space. */
  lemma BlankIffAllSpaces(s: string)
    ensures IsBlank(s) <==> forall i :: 0 <= i < |s| ==> IsSpace(s[i])
  {
    TrimStartAllSpaces(s);
    var t := TrimStart(s);
    if t != [] {
      TrimEndAllSpaces(t);
      assert !IsSpace(t[0]);
      assert t[0] == s[|s| - |t|];
    }
  }

  lemma {:induction false} TrimStartAllSpaces(s: string)
    ensures TrimStart(s) == "" <==> forall i :: 0 <= i < |s| ==> IsSpace(s[i])
  {
    if s != [] {
      TrimStartAllSpaces(s[1..]);
      if IsSpace(s[0]) {
        assert forall i :: 1 <= i < |s| ==> s[i] == s[1..][i - 1];
      }
    }
  }

  lemma {:induction false} TrimEndAllSpaces(s: string)
    ensures TrimEnd(s) == "" <==> forall i :: 0 <= i < |s| ==> IsSpace(s[i])
  {
    if s != [] {
      TrimEndAllSpaces(s[..|s| - 1]);
      if IsSpace(s[|s| - 1]) {
        assert forall i :: 0 <= i < |s| - 1 ==> s[i] == s[..|s| - 1][i];
      }
    }
  }

  /** `c.toUpperCase()`. The ASCII letters, and the non-ASCII characters whose upper case is made
      of ASCII letters only (sharp s, dotless i, long s and the Latin ligatures U+FB00 to U+FB06),
      get their JavaScript upper case; every other character is kept as it is. */
  function UpperChar(c: char): string {
    if 'a' <= c <= 'z' then [(c as int - 32) as char]
    else if c == '\U{00DF}' then "SS"
    else if c == '\U{0131}' then "I"
    else if c == '\U{017F}' then "S"
    else if c == '\U{FB00}' then "FF"
    else if c == '\U{FB01}' then "FI"
    else if c == '\U{FB02}' then "FL"
    else if c == '\U{FB03}' then "FFI"
    else if c == '\U{FB04}' then "FFL"
    else if c == '\U{FB05}' || c == '\U{FB06}' then "ST"
    else [c]
  }

  /** `s.toUpperCase()`, character by character as UpperChar describes. */
  function ToUpper(s: string): string {
    if s == [] then "" else UpperChar(s[0]) + ToUpper(s[1..])
  }

  /** `[A-Z\s]`. */
  predicate IsUpperOrSpace(c: char) {
    ('A' <= c <= 'Z') || IsSpace(c)
  }

  /** Upper-casing a string that is already made of upper-case letters and spaces changes nothing. */
  lemma {:induction false} ToUpperKeepsUpper(s: string)
    requires forall i :: 0 <= i < |s| ==> IsUpperOrSpace(s[i])
    ensures ToUpper(s) == s
  {
    if s != [] {
      ToUpperKeepsUpper(s[1..]);
      assert s == [s[0]] + s[1..];
    }
  }
}
