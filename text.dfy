/**
 * The handful of Python `str` operations the outreach engine relies on:
 * `isdigit`, `lower`, `strip`, `in`, `startswith`, `endswith`, `split('\n')`
 * and slicing `s[:n]`. All of them are modelled on ASCII; Python applies the
 * Unicode versions of these rules.
 */
module Text {

  /** `c.isdigit()` restricted to ASCII digits. */
  predicate IsDigit(c: char) {
    '0' <= c <= '9'
  }

  /**
   * The ASCII characters `str.isspace()` accepts and `str.strip()` removes:
   * space, tab, newline, carriage return, vertical tab, form feed and the four
   * separators U+001C to U+001F.
   */
  predicate IsSpace(c: char) {
    c == ' ' || c == '\t' || c == '\n' || c == '\r' || c == '\U{000B}' || c == '\U{000C}'
    || ('\U{001C}' <= c <= '\U{001F}')
  }

  function LowerChar(c: char): char {
    if 'A' <= c <= 'Z' then (c as int - 'A' as int + 'a' as int) as char else c
  }

  /** `s.lower()`: every upper-case ASCII letter becomes lower case, nothing else moves. */
  function Lower(s: string): (r: string)
    ensures |r| == |s|
    ensures forall i :: 0 <= i < |s| ==> r[i] == LowerChar(s[i])
  {
    seq(|s|, i requires 0 <= i < |s| => LowerChar(s[i]))
  }

  lemma LowerIdempotent(s: string)
    ensures Lower(Lower(s)) == Lower(s)
  {
  }

  predicate StartsWith(s: string, prefix: string) {
    |prefix| <= |s| && s[..|prefix|] == prefix
  }

  predicate EndsWith(s: string, suffix: string) {
    |suffix| <= |s| && s[|s| - |suffix|..] == suffix
  }

  /** Python's `sub in s`: `sub` starts at some position of `s`. */
  predicate Contains(s: string, sub: string)
    decreases |s|
  {
    StartsWith(s, sub) || (|s| > 0 && Contains(s[1..], sub))
  }

  /** `sub` starting at position `k` of `s` is enough for `sub in s`. */
  lemma {:induction false} ContainsAt(s: string, sub: string, k: nat)
    requires k <= |s| && StartsWith(s[k..], sub)
    ensures Contains(s, sub)
    decreases k
  {
    if k == 0 {
      assert s[0..] == s;
    } else {
      assert s[1..][k - 1..] == s[k..];
      ContainsAt(s[1..], sub, k - 1);
    }
  }

  /** A string without the first character of `sub` does not contain `sub`. */
  lemma {:induction false} LacksFirstChar(s: string, sub: string)
    requires |sub| > 0 && sub[0] !in s
    ensures !Contains(s, sub)
    decreases |s|
  {
    if |s| > 0 {
      if |sub| <= |s| {
        assert s[..|sub|][0] == s[0];
      }
      assert forall c :: c in s[1..] ==> c in s;
      LacksFirstChar(s[1..], sub);
    }
  }

  /** `s[:n]` for a non-negative `n`. */
  function Take(s: string, n: nat): (r: string)
    ensures |r| <= n && StartsWith(s, r)
    ensures |s| <= n ==> r == s
  {
    if |s| <= n then s else s[..n]
  }

  /** Number of ASCII digits in `s`. */
  function DigitCount(s: string): (n: nat)
    ensures n <= |s|
  {
    if |s| == 0 then 0 else (if IsDigit(s[0]) then 1 else 0) + DigitCount(s[1..])
  }

  function TrimLeft(s: string): (r: string)
    ensures |r| <= |s| && r == s[|s| - |r|..]
    ensures r == [] || !IsSpace(r[0])
    ensures forall i :: 0 <= i < |s| - |r| ==> IsSpace(s[i])
  {
    if |s| > 0 && IsSpace(s[0]) then TrimLeft(s[1..]) else s
  }

  function TrimRight(s: string): (r: string)
    ensures |r| <= |s| && r == s[..|r|]
    ensures r == [] || !IsSpace(r[|r| - 1])
    ensures forall i :: |r| <= i < |s| ==> IsSpace(s[i])
  {
    if |s| > 0 && IsSpace(s[|s| - 1]) then TrimRight(s[..|s| - 1]) else s
  }

  /** `r` is the slice of `s` starting at `k`, and only whitespace lies outside it. */
  predicate StrippedAt(s: string, r: string, k: int) {
    0 <= k <= |s| - |r| && r == s[k..k + |r|]
    && (forall i :: 0 <= i < k ==> IsSpace(s[i]))
    && (forall i :: k + |r| <= i < |s| ==> IsSpace(s[i]))
  }

  /**
   * `s.strip()`: the longest slice of `s` that neither starts nor ends with
   * whitespace, obtained by removing only whitespace from both ends.
   */
  function Strip(s: string): (r: string)
    ensures |r| <= |s|
    ensures r == [] || (!IsSpace(r[0]) && !IsSpace(r[|r| - 1]))
    ensures exists k :: StrippedAt(s, r, k)
  {
    var l := TrimLeft(s);
    var r := TrimRight(l);
    assert r == s[|s| - |l|..][..|r|];
    var k := |s| - |l|;
    assert r == s[k..k + |r|];
    assert StrippedAt(s, r, k);
    r
  }

  lemma {:induction false} TrimLeftNoSpace(s: string)
    requires s == [] || !IsSpace(s[0])
    ensures TrimLeft(s) == s
  {
  }

  lemma {:induction false} TrimRightNoSpace(s: string)
    requires s == [] || !IsSpace(s[|s| - 1])
    ensures TrimRight(s) == s
  {
  }

  /** Stripping twice changes nothing more than stripping once. */
  lemma StripIdempotent(s: string)
    ensures Strip(Strip(s)) == Strip(s)
  {
    var r := Strip(s);
    TrimLeftNoSpace(r);
    TrimRightNoSpace(r);
  }

  /** `''.join(c for c in s if c.isdigit() or c == '+')`. */
  function KeepDigitsAndPlus(s: string): (r: string)
    ensures |r| <= |s|
    ensures forall i :: 0 <= i < |r| ==> IsDigit(r[i]) || r[i] == '+'
  {
    if |s| == 0 then []
    else (if IsDigit(s[0]) || s[0] == '+' then [s[0]] else []) + KeepDigitsAndPlus(s[1..])
  }

  /** `s.replace('+', '')`. */
  function WithoutPlus(s: string): (r: string)
    ensures |r| <= |s|
    ensures forall i :: 0 <= i < |r| ==> r[i] != '+'
  {
    if |s| == 0 then [] else (if s[0] == '+' then [] else [s[0]]) + WithoutPlus(s[1..])
  }

  /**
   * The length the engine compares with its minimum is exactly the number of
   * digits of the raw phone string: stripping everything but digits and `+`
   * and then removing the `+` signs leaves the digits.
   */
  lemma {:induction false} CleanedLengthIsDigitCount(s: string)
    ensures |WithoutPlus(KeepDigitsAndPlus(s))| == DigitCount(s)
    ensures DigitCount(KeepDigitsAndPlus(s)) == DigitCount(s)
  {
    if |s| > 0 {
      CleanedLengthIsDigitCount(s[1..]);
      var head := if IsDigit(s[0]) || s[0] == '+' then [s[0]] else [];
      assert KeepDigitsAndPlus(s) == head + KeepDigitsAndPlus(s[1..]);
      var t := head + KeepDigitsAndPlus(s[1..]);
      if head == [] {
        assert t == KeepDigitsAndPlus(s[1..]);
      } else {
        assert t[0] == s[0] && t[1..] == KeepDigitsAndPlus(s[1..]);
      }
    }
  }

  /** Number of occurrences of `c` in `s`. */
  function Occurrences(s: string, c: char): nat {
    if |s| == 0 then 0 else (if s[0] == c then 1 else 0) + Occurrences(s[1..], c)
  }

  /** `s.split(sep)` for a one-character separator: never an empty list, no piece holds `sep`. */
  function Split(s: string, sep: char): (r: seq<string>)
    ensures |r| == Occurrences(s, sep) + 1
    ensures forall i :: 0 <= i < |r| ==> sep !in r[i]
  {
    if |s| == 0 then [""]
    else
      var rest := Split(s[1..], sep);
      if s[0] == sep then [""] + rest else [[s[0]] + rest[0]] + rest[1..]
  }

  /** `sep.join(parts)`. */
  function Join(parts: seq<string>, sep: char): string {
    if |parts| == 0 then ""
    else if |parts| == 1 then parts[0]
    else parts[0] + [sep] + Join(parts[1..], sep)
  }

  /** Splitting loses nothing: joining the pieces with the separator gives `s` back. */
  lemma {:induction false} JoinSplit(s: string, sep: char)
    ensures Join(Split(s, sep), sep) == s
  {
    if |s| > 0 {
      var rest := Split(s[1..], sep);
      JoinSplit(s[1..], sep);
      if s[0] == sep {
        assert Split(s, sep) == [""] + rest;
        assert ([""] + rest)[1..] == rest;
        assert s == [s[0]] + s[1..];
      } else {
        var r := [[s[0]] + rest[0]] + rest[1..];
        assert Split(s, sep) == r;
        if |rest| == 1 {
          assert Join(r, sep) == [s[0]] + rest[0];
          assert s == [s[0]] + s[1..];
        } else {
          assert r[1..] == rest[1..];
          assert Join(r, sep) == [s[0]] + rest[0] + [sep] + Join(rest[1..], sep);
          assert Join(rest, sep) == rest[0] + [sep] + Join(rest[1..], sep);
          assert s == [s[0]] + s[1..];
        }
      }
    }
  }
}
