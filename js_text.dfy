/**
 * JavaScript string behaviour the pages and routes rely on: the `Option` of a
 * value that may be absent, and `String.prototype.trim`, which every page uses
 * to decide whether an input is blank.
 */
module JsText {

  datatype Option<+T> = None | Some(value: T)

  /** The code points `trim` removes: ECMAScript WhiteSpace and LineTerminator. */
  predicate IsWhitespace(c: char) {
    || c == '\U{0009}' || c == '\U{000A}' || c == '\U{000B}' || c == '\U{000C}'
    || c == '\U{000D}' || c == ' ' || c == '\U{00A0}' || c == '\U{1680}'
    || ('\U{2000}' <= c <= '\U{200A}')
    || c == '\U{2028}' || c == '\U{2029}' || c == '\U{202F}' || c == '\U{205F}'
    || c == '\U{3000}' || c == '\U{FEFF}'
  }

  /** `s.trim()` is falsy exactly when every character of `s` is whitespace. */
  predicate IsBlank(s: string) {
    forall i :: 0 <= i < |s| ==> IsWhitespace(s[i])
  }

  /** Neither end of `s` is whitespace. */
  predicate IsTrimmed(s: string) {
    s == [] || (!IsWhitespace(s[0]) && !IsWhitespace(s[|s| - 1]))
  }

  /**
   * `s.trim()`: whitespace is dropped from either end until neither end is
   * whitespace. The result is empty exactly when `s` is blank.
   */
  function Trim(s: string): (r: string)
    ensures |r| <= |s| && IsTrimmed(r)
    ensures r == [] <==> IsBlank(s)
  {
    if s != [] && IsWhitespace(s[0]) then Trim(s[1..])
    else if s != [] && IsWhitespace(s[|s| - 1]) then Trim(s[..|s| - 1])
    else s
  }

  /** How many leading characters `trim` drops. */
  function TrimmedLead(s: string): (k: nat)
    ensures k + |Trim(s)| <= |s|
  {
    if s != [] && IsWhitespace(s[0]) then 1 + TrimmedLead(s[1..])
    else if s != [] && IsWhitespace(s[|s| - 1]) then TrimmedLead(s[..|s| - 1])
    else 0
  }

  /** Each kept character is the one of `s` past the dropped lead. */
  lemma {:induction false} TrimKeepsCharacters(s: string)
    ensures forall j :: 0 <= j < |Trim(s)| ==> Trim(s)[j] == s[TrimmedLead(s) + j]
  {
    var r, k := Trim(s), TrimmedLead(s);
    if s != [] && IsWhitespace(s[0]) {
      var t := s[1..];
      TrimKeepsCharacters(t);
      assert r == Trim(t) && k == 1 + TrimmedLead(t);
      forall j | 0 <= j < |r|
        ensures r[j] == s[k + j]
      {
        assert s[k + j] == t[TrimmedLead(t) + j];
      }
    } else if s != [] && IsWhitespace(s[|s| - 1]) {
      var t := s[..|s| - 1];
      TrimKeepsCharacters(t);
      assert r == Trim(t) && k == TrimmedLead(t);
      forall j | 0 <= j < |r|
        ensures r[j] == s[k + j]
      {
        assert s[k + j] == t[TrimmedLead(t) + j];
      }
    }
  }

  /** The dropped lead is whitespace. */
  lemma {:induction false} TrimDropsBlankLead(s: string)
    ensures IsBlank(s[..TrimmedLead(s)])
  {
    var k := TrimmedLead(s);
    if s != [] && IsWhitespace(s[0]) {
      TrimDropsBlankLead(s[1..]);
      assert s[..k] == [s[0]] + s[1..][..k - 1];
    } else if s != [] && IsWhitespace(s[|s| - 1]) {
      TrimDropsBlankLead(s[..|s| - 1]);
      assert s[..|s| - 1][..k] == s[..k];
    }
  }

  /** The dropped tail is whitespace. */
  lemma {:induction false} TrimDropsBlankTail(s: string)
    ensures IsBlank(s[TrimmedLead(s) + |Trim(s)|..])
  {
    var r, k := Trim(s), TrimmedLead(s);
    if s != [] && IsWhitespace(s[0]) {
      TrimDropsBlankTail(s[1..]);
      assert s[k + |r|..] == s[1..][k - 1 + |r|..];
    } else if s != [] && IsWhitespace(s[|s| - 1]) {
      TrimDropsBlankTail(s[..|s| - 1]);
      assert s[k + |r|..] == s[..|s| - 1][k + |r|..] + [s[|s| - 1]];
    }
  }

  /** A string matching a slice of `s` character by character is that slice. */
  lemma MatchesSlice(s: string, r: string, k: nat)
    requires k + |r| <= |s|
    requires forall j :: 0 <= j < |r| ==> r[j] == s[k + j]
    ensures r == s[k..k + |r|]
  {
  }

  /**
   * What `trim` keeps is the slice of `s` between a blank prefix and a blank
   * suffix.
   */
  lemma TrimIsInnerSlice(s: string)
    ensures Trim(s) == s[TrimmedLead(s)..TrimmedLead(s) + |Trim(s)|]
    ensures IsBlank(s[..TrimmedLead(s)]) && IsBlank(s[TrimmedLead(s) + |Trim(s)|..])
  {
    TrimKeepsCharacters(s);
    TrimDropsBlankLead(s);
    TrimDropsBlankTail(s);
    MatchesSlice(s, Trim(s), TrimmedLead(s));
  }

  /** `!s.trim()`: the test every page makes before acting on an input. */
  function TrimsToEmpty(s: string): (b: bool)
    ensures b <==> IsBlank(s)
  {
    Trim(s) == []
  }

  /** A string with no whitespace at either end is its own trim, so `trim` is idempotent. */
  lemma TrimFixesTrimmed(s: string)
    ensures IsTrimmed(s) <==> Trim(s) == s
    ensures Trim(Trim(s)) == Trim(s)
  {
  }
}
