/**
 * The two ECMAScript string operations the scaffolders apply to prompt answers:
 * `String.prototype.trim` and `String.prototype.toLowerCase`.
 */
module JsStrings {

  /** WhiteSpace and LineTerminator code points of ECMAScript, the characters `trim` removes. */
  predicate IsWhitespace(c: char) {
    || c == '\t' || c == '\n' || c == '\U{B}' || c == '\U{C}' || c == '\r' || c == ' '
    || c == '\U{A0}' || c == '\U{1680}' || ('\U{2000}' <= c <= '\U{200A}')
    || c == '\U{2028}' || c == '\U{2029}' || c == '\U{202F}' || c == '\U{205F}'
    || c == '\U{3000}' || c == '\U{FEFF}'
  }

  /** Every character of `s` is whitespace (this includes the empty string). */
  predicate AllWhitespace(s: string) {
    forall i | 0 <= i < |s| :: IsWhitespace(s[i])
  }

  /** Drops leading whitespace. */
  function TrimStart(s: string): (r: string)
    ensures |r| <= |s| && r == s[|s| - |r|..]
    ensures r != [] ==> !IsWhitespace(r[0])
    ensures AllWhitespace(s[..|s| - |r|])
  {
    if s != [] && IsWhitespace(s[0]) then
      var r := TrimStart(s[1..]);
      assert s[1..][..|s| - 1 - |r|] == s[1..|s| - |r|];
      r
    else s
  }

  /** Drops trailing whitespace. */
  function TrimEnd(s: string): (r: string)
    ensures |r| <= |s| && r == s[..|r|]
    ensures r != [] ==> !IsWhitespace(r[|r| - 1])
    ensures AllWhitespace(s[|r|..])
  {
    if s != [] && IsWhitespace(s[|s| - 1]) then
      var r := TrimEnd(s[..|s| - 1]);
      assert s[..|s| - 1][|r|..] == s[|r|..|s| - 1];
      r
    else s
  }

  /** `s.trim()`: the longest infix of `s` that neither starts nor ends with whitespace. */
  function Trim(s: string): (r: string)
    ensures r != [] ==> !IsWhitespace(r[0]) && !IsWhitespace(r[|r| - 1])
  {
    TrimEnd(TrimStart(s))
  }

  /** The `!name.trim()` test: trimming leaves nothing exactly when every character is whitespace. */
  lemma {:induction false} TrimEmptyIffAllWhitespace(s: string)
    ensures Trim(s) == "" <==> AllWhitespace(s)
  {
    var t := TrimStart(s);
    if t == [] {
      assert s[..|s|] == s;
    } else {
      assert !IsWhitespace(s[|s| - |t|]);
    }
  }

  /** ASCII upper-case letters map to lower case; every other character is kept. */
  function LowerChar(c: char): char {
    if 'A' <= c <= 'Z' then (c as int + 32) as char else c
  }

  /** `s.toLowerCase()`, on the ASCII letters (see README for why this is exact where it matters). */
  function Lower(s: string): (r: string)
    ensures |r| == |s|
    ensures forall i | 0 <= i < |s| :: r[i] == LowerChar(s[i])
  {
    if s == [] then [] else [LowerChar(s[0])] + Lower(s[1..])
  }

  predicate IsLowerAsciiLetter(c: char) {
    'a' <= c <= 'z'
  }

  /** `s` spells `t` when ASCII case is ignored. */
  predicate EqualsIgnoringCase(s: string, t: string)
    requires forall i | 0 <= i < |t| :: IsLowerAsciiLetter(t[i])
  {
    |s| == |t| && forall i | 0 <= i < |s| :: s[i] == t[i] || s[i] as int == t[i] as int - 32
  }

  /** Lower-casing `s` yields the lower-case word `t` exactly when `s` spells `t` in any mix of cases. */
  lemma {:induction false} LowerMatches(s: string, t: string)
    requires forall i | 0 <= i < |t| :: IsLowerAsciiLetter(t[i])
    ensures Lower(s) == t <==> EqualsIgnoringCase(s, t)
  {
    if s != [] && |s| == |t| {
      LowerMatches(s[1..], t[1..]);
      assert Lower(s) == [LowerChar(s[0])] + Lower(s[1..]);
      if Lower(s) == t {
        assert LowerChar(s[0]) == t[0];
        assert Lower(s[1..]) == t[1..];
        forall i | 0 <= i < |s| ensures s[i] == t[i] || s[i] as int == t[i] as int - 32 {
          if i > 0 { assert s[1..][i - 1] == s[i] && t[1..][i - 1] == t[i]; }
        }
      }
      if EqualsIgnoringCase(s, t) {
        assert EqualsIgnoringCase(s[1..], t[1..]) by {
          forall i | 0 <= i < |s| - 1 ensures s[1..][i] == t[1..][i] || s[1..][i] as int == t[1..][i] as int - 32 {
            assert s[1..][i] == s[i + 1] && t[1..][i] == t[i + 1];
          }
        }
        assert t == [t[0]] + t[1..];
      }
    }
  }

  /** The yes/no test of both scaffolders: `answer.toLowerCase() === letter` holds only for the letter in either case. */
  lemma LowerIsLetter(answer: string, letter: char)
    requires IsLowerAsciiLetter(letter)
    ensures Lower(answer) == [letter] <==> answer == [letter] || answer == [(letter as int - 32) as char]
  {
    LowerMatches(answer, [letter]);
    if EqualsIgnoringCase(answer, [letter]) {
      assert answer == [answer[0]];
    }
  }
}
