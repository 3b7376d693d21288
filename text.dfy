/**
 * String primitives the storefront relies on: ASCII case mapping (`toLowerCase`,
 * `toUpperCase`), the JavaScript regular-expression class `\s`, `\d`, substring
 * search (`includes`) and deletion of characters (`replace(/x/g, '')`).
 */
module Text {

  predicate IsAsciiUpper(c: char) { 'A' <= c <= 'Z' }

  predicate IsAsciiLower(c: char) { 'a' <= c <= 'z' }

  /** `toLowerCase` on one character, restricted to ASCII letters. */
  function ToLower(c: char): (r: char)
    ensures !IsAsciiUpper(r)
    ensures IsAsciiUpper(c) || r == c
    ensures (r == c) == !IsAsciiUpper(c)
  {
    if IsAsciiUpper(c) then (c as int + 32) as char else c
  }

  /** `toUpperCase` on one character, restricted to ASCII letters. */
  function ToUpper(c: char): (r: char)
    ensures !IsAsciiLower(r)
    ensures (r == c) == !IsAsciiLower(c)
    ensures r == ' ' <==> c == ' '
  {
    if IsAsciiLower(c) then (c as int - 32) as char else c
  }

  /** `s.toLowerCase()`: the same length, each character lowered. */
  function LowerStr(s: string): (r: string)
    ensures |r| == |s|
    ensures forall i :: 0 <= i < |s| ==> r[i] == ToLower(s[i])
  {
    seq(|s|, i requires 0 <= i < |s| => ToLower(s[i]))
  }

  /** A string `toLowerCase` leaves alone. */
  predicate IsLowerCase(s: string) {
    forall i :: 0 <= i < |s| ==> !IsAsciiUpper(s[i])
  }

  lemma LowerStrFixes(s: string)
    ensures IsLowerCase(s) <==> LowerStr(s) == s
  {
    if LowerStr(s) == s {
      forall i | 0 <= i < |s| ensures !IsAsciiUpper(s[i]) {
        assert LowerStr(s)[i] == s[i];
      }
    }
  }

  lemma LowerStrIdempotent(s: string)
    ensures LowerStr(LowerStr(s)) == LowerStr(s)
  {
    LowerStrFixes(LowerStr(s));
  }

  /** The characters JavaScript's `\s` matches (WhiteSpace and LineTerminator). */
  predicate IsJsSpace(c: char) {
    || c == ' ' || c == '\t' || c == '\n' || c == '\r'
    || c == '\U{000B}' || c == '\U{000C}' || c == '\U{00A0}' || c == '\U{1680}'
    || ('\U{2000}' <= c <= '\U{200A}')
    || c == '\U{2028}' || c == '\U{2029}' || c == '\U{202F}' || c == '\U{205F}'
    || c == '\U{3000}' || c == '\U{FEFF}'
  }

  /** JavaScript's `\d`: the ASCII digits only. */
  predicate IsDigit(c: char) { '0' <= c <= '9' }

  predicate AllDigits(s: string) {
    forall i :: 0 <= i < |s| ==> IsDigit(s[i])
  }

  predicate NoSpace(s: string) {
    forall i :: 0 <= i < |s| ==> !IsJsSpace(s[i])
  }

  /** `s.replace(/\s/g, '')`. */
  function RemoveSpaces(s: string): (r: string)
    ensures |r| <= |s|
    ensures NoSpace(r)
    ensures forall c :: c in r ==> c in s
  {
    if s == [] then []
    else if IsJsSpace(s[0]) then RemoveSpaces(s[1..])
    else [s[0]] + RemoveSpaces(s[1..])
  }

  lemma {:induction false} RemoveSpacesKeepsSpaceFree(s: string)
    requires NoSpace(s)
    ensures RemoveSpaces(s) == s
  {
    if s != [] {
      assert !IsJsSpace(s[0]);
      RemoveSpacesKeepsSpaceFree(s[1..]);
      assert s == [s[0]] + s[1..];
    }
  }

  /** Whitespace removal works piecewise. */
  lemma {:induction false} RemoveSpacesAppend(a: string, b: string)
    ensures RemoveSpaces(a + b) == RemoveSpaces(a) + RemoveSpaces(b)
  {
    if a != [] {
      assert (a + b)[0] == a[0] && (a + b)[1..] == a[1..] + b;
      RemoveSpacesAppend(a[1..], b);
    } else {
      assert a + b == b;
    }
  }

  /** A digit is not whitespace, so a digit string is space-free. */
  lemma DigitsHaveNoSpace(s: string)
    requires AllDigits(s)
    ensures NoSpace(s)
  {
  }

  /** A concatenation is space-free exactly when both parts are. */
  lemma NoSpaceAppend(a: string, b: string)
    ensures NoSpace(a + b) <==> NoSpace(a) && NoSpace(b)
  {
    if NoSpace(a + b) {
      forall k | 0 <= k < |a| ensures !IsJsSpace(a[k]) {
        assert a[k] == (a + b)[k];
      }
      forall k | 0 <= k < |b| ensures !IsJsSpace(b[k]) {
        assert b[k] == (a + b)[|a| + k];
      }
    }
  }

  /** `s.replace(/c/g, '')`: every occurrence of `c` deleted. */
  function RemoveChar(s: string, c: char): (r: string)
    ensures c !in r
    ensures |r| <= |s|
    ensures c !in s ==> r == s
    ensures forall d :: d != c ==> multiset(r)[d] == multiset(s)[d]
  {
    if s == [] then []
    else
      assert s == [s[0]] + s[1..];
      if s[0] == c then RemoveChar(s[1..], c)
      else [s[0]] + RemoveChar(s[1..], c)
  }

  /** Deleting a character distributes over concatenation. */
  lemma {:induction false} RemoveCharAppend(a: string, b: string, c: char)
    ensures RemoveChar(a + b, c) == RemoveChar(a, c) + RemoveChar(b, c)
  {
    if a == [] {
      assert a + b == b;
    } else {
      assert (a + b)[0] == a[0] && (a + b)[1..] == a[1..] + b;
      RemoveCharAppend(a[1..], b, c);
    }
  }

  /** `sub` occurs in `s` starting at index `i`. */
  predicate OccursAt(s: string, sub: string, i: int) {
    0 <= i && i + |sub| <= |s| && s[i..i + |sub|] == sub
  }

  /** `s.includes(sub)`. */
  predicate Contains(s: string, sub: string) {
    exists i | 0 <= i <= |s| - |sub| :: OccursAt(s, sub, i)
  }
}
