/**
 * Character classes and string operations that the front-end uses through
 * JavaScript built-ins: `\s`, `\d`, `String.prototype.trim`, `split(" ")`,
 * `toUpperCase` and the `||` fallback on strings.
 */
module Text {
  import opened Wrappers

  /** ECMAScript white space and line terminators: what `\s` matches and what `trim` removes. */
  predicate IsSpace(c: char) {
    || c == '\t' || c == '\n' || c == '\U{000B}' || c == '\U{000C}' || c == '\r'
    || c == ' ' || c == '\U{00A0}' || c == '\U{1680}' || ('\U{2000}' <= c <= '\U{200A}')
    || c == '\U{2028}' || c == '\U{2029}' || c == '\U{202F}' || c == '\U{205F}'
    || c == '\U{3000}' || c == '\U{FEFF}'
  }

  /** What `\d` matches: the ASCII digits only. */
  predicate IsDigit(c: char) {
    '0' <= c <= '9'
  }

  predicate AllDigits(s: string) {
    forall i :: 0 <= i < |s| ==> IsDigit(s[i])
  }

  /** JavaScript truthiness of a possibly absent string. */
  predicate Truthy(s: Option<string>) {
    s.Some? && s.value != ""
  }

  /** `a || fallback` where `a` is a possibly absent string. */
  function OrElse(a: Option<string>, fallback: string): (r: string)
    ensures Truthy(a) ==> r == a.value
    ensures !Truthy(a) ==> r == fallback
    ensures r == "" ==> fallback == ""
  {
    if Truthy(a) then a.value else fallback
  }

  // ---------------------------------------------------------------------------
  // s.replace(/\D/g, "")
  // ---------------------------------------------------------------------------

  /** The digits of `s`, in order: `s.replace(/\D/g, "")`. */
  function DigitsOnly(s: string): (r: string)
    ensures AllDigits(r)
    ensures |r| <= |s|
    ensures AllDigits(s) ==> r == s
  {
    if s == [] then []
    else (if IsDigit(s[0]) then [s[0]] else []) + DigitsOnly(s[1..])
  }

  lemma {:induction false} DigitsOnlyAppend(a: string, b: string)
    ensures DigitsOnly(a + b) == DigitsOnly(a) + DigitsOnly(b)
  {
    if a == [] {
      assert a + b == b;
    } else {
      var ab := a + b;
      assert ab[0] == a[0] && ab[1..] == a[1..] + b;
      var head := if IsDigit(a[0]) then [a[0]] else [];
      assert DigitsOnly(ab) == head + DigitsOnly(a[1..] + b);
      DigitsOnlyAppend(a[1..], b);
    }
  }

  /** A non-digit between two strings contributes nothing to the digits of the whole. */
  lemma DigitsOnlySkip(a: string, c: char, b: string)
    requires !IsDigit(c)
    ensures DigitsOnly(a + [c] + b) == DigitsOnly(a) + DigitsOnly(b)
  {
    DigitsOnlyAppend(a + [c], b);
    DigitsOnlyAppend(a, [c]);
    assert [c][1..] == [];
    assert DigitsOnly([c]) == [] + DigitsOnly([]);
  }

  /** A leading non-digit contributes nothing. */
  lemma DigitsOnlyDropNonDigit(c: char, s: string)
    requires !IsDigit(c)
    ensures DigitsOnly([c] + s) == DigitsOnly(s)
  {
    var cs := [c] + s;
    assert cs[0] == c && cs[1..] == s;
  }

  /** A leading run of digits is kept as it is. */
  lemma DigitsOnlyKeepDigits(p: string, s: string)
    requires AllDigits(p)
    ensures DigitsOnly(p + s) == p + DigitsOnly(s)
  {
    DigitsOnlyAppend(p, s);
  }

  /** A string without any digit contributes nothing to the digit count. */
  lemma {:induction false} DigitsOnlyOfNonDigits(s: string)
    requires forall i :: 0 <= i < |s| ==> !IsDigit(s[i])
    ensures DigitsOnly(s) == []
  {
    if s != [] {
      DigitsOnlyOfNonDigits(s[1..]);
    }
  }

  /** Stripping twice is stripping once. */
  lemma DigitsOnlyIdempotent(s: string)
    ensures DigitsOnly(DigitsOnly(s)) == DigitsOnly(s)
  {
  }

  // ---------------------------------------------------------------------------
  // String.prototype.trim
  // ---------------------------------------------------------------------------

  function TrimStart(s: string): (r: string)
    ensures |r| <= |s| && r == s[|s| - |r|..]
    ensures r == [] || !IsSpace(r[0])
    ensures forall i :: 0 <= i < |s| - |r| ==> IsSpace(s[i])
  {
    if s == [] || !IsSpace(s[0]) then s else TrimStart(s[1..])
  }

  function TrimEnd(s: string): (r: string)
    ensures |r| <= |s| && r == s[..|r|]
    ensures r == [] || !IsSpace(r[|r| - 1])
    ensures forall i :: |r| <= i < |s| ==> IsSpace(s[i])
  {
    if s == [] || !IsSpace(s[|s| - 1]) then s else TrimEnd(s[..|s| - 1])
  }

  /** `s.trim()`: the longest infix of `s` that starts and ends with a non-space character. */
  function Trim(s: string): (r: string)
    ensures |r| <= |s|
    ensures r == [] || (!IsSpace(r[0]) && !IsSpace(r[|r| - 1]))
    ensures r == [] <==> forall i :: 0 <= i < |s| ==> IsSpace(s[i])
    ensures exists i :: SpacedAt(s, i, r)
  {
    var t := TrimStart(s);
    var r := TrimEnd(t);
    assert r != [] ==> r[0] == t[0];
    assert r == [] ==> t == [];
    CutBothEnds(s, t, r);
    r
  }

  /** Cutting white space off the front and then off the back leaves a spaced infix. */
  lemma CutBothEnds(s: string, t: string, r: string)
    requires |t| <= |s| && t == s[|s| - |t|..]
    requires forall k :: 0 <= k < |s| - |t| ==> IsSpace(s[k])
    requires |r| <= |t| && r == t[..|r|]
    requires forall k :: |r| <= k < |t| ==> IsSpace(t[k])
    ensures SpacedAt(s, |s| - |t|, r)
  {
    var i := |s| - |t|;
    forall k | 0 <= k < |t| ensures t[k] == s[i + k] { }
    assert r == s[i..i + |r|];
  }

  /** `r` occurs in `s` at `i` with only white space before and after it. */
  predicate SpacedAt(s: string, i: int, r: string) {
    && 0 <= i && i + |r| <= |s| && r == s[i..i + |r|]
    && (forall k :: 0 <= k < i ==> IsSpace(s[k]))
    && (forall k :: i + |r| <= k < |s| ==> IsSpace(s[k]))
  }

  /** Neither starts nor ends with white space. */
  predicate Unpadded(s: string) {
    s == [] || (!IsSpace(s[0]) && !IsSpace(s[|s| - 1]))
  }

  /** White space before a string that does not start with white space is what `trimStart` removes. */
  lemma {:induction false} TrimStartPadding(p: string, v: string)
    requires forall k :: 0 <= k < |p| ==> IsSpace(p[k])
    requires v == [] || !IsSpace(v[0])
    ensures TrimStart(p + v) == v
  {
    if p == [] {
      assert p + v == v;
    } else {
      assert (p + v)[0] == p[0] && (p + v)[1..] == p[1..] + v;
      TrimStartPadding(p[1..], v);
    }
  }

  /** White space after a string that does not end with white space is what `trimEnd` removes. */
  lemma {:induction false} TrimEndPadding(v: string, q: string)
    requires forall k :: 0 <= k < |q| ==> IsSpace(q[k])
    requires v == [] || !IsSpace(v[|v| - 1])
    ensures TrimEnd(v + q) == v
  {
    if q == [] {
      assert v + q == v;
    } else {
      var vq := v + q;
      assert vq[|vq| - 1] == q[|q| - 1];
      assert vq[..|vq| - 1] == v + q[..|q| - 1];
      TrimEndPadding(v, q[..|q| - 1]);
    }
  }

  /** Trimming white space around a string that neither starts nor ends with white space gives that string. */
  lemma TrimPadded(p: string, v: string, q: string)
    requires forall k :: 0 <= k < |p| ==> IsSpace(p[k])
    requires forall k :: 0 <= k < |q| ==> IsSpace(q[k])
    requires Unpadded(v)
    ensures Trim(p + v + q) == v
  {
    var s := p + v + q;
    if v == [] {
      assert forall k :: 0 <= k < |s| ==> IsSpace(s[k]) by {
        forall k | 0 <= k < |s| ensures IsSpace(s[k]) {
          if k < |p| { assert s[k] == p[k]; } else { assert s[k] == q[k - |p|]; }
        }
      }
    } else {
      assert s == p + (v + q);
      TrimStartPadding(p, v + q);
      TrimEndPadding(v, q);
    }
  }

  /** Trimming a trimmed string changes nothing. */
  lemma TrimIdempotent(s: string)
    ensures Trim(Trim(s)) == Trim(s)
  {
    var r := Trim(s);
    assert TrimStart(r) == r;
    assert TrimEnd(r) == r;
  }

  // ---------------------------------------------------------------------------
  // split(" "), join, toUpperCase
  // ---------------------------------------------------------------------------

  /** `s.split(sep)` for a one-character separator: the pieces between separators, empty ones kept. */
  function Split(s: string, sep: char): (parts: seq<string>)
    ensures |parts| >= 1
    ensures forall k :: 0 <= k < |parts| ==> sep !in parts[k]
  {
    if s == [] then [[]]
    else
      var rest := Split(s[1..], sep);
      if s[0] == sep then [[]] + rest
      else [[s[0]] + rest[0]] + rest[1..]
  }

  /** `parts.join(sep)` */
  function Join(parts: seq<string>, sep: char): string
    requires |parts| >= 1
  {
    if |parts| == 1 then parts[0] else parts[0] + [sep] + Join(parts[1..], sep)
  }

  /** Splitting and joining with the same separator gives the string back. */
  lemma {:induction false} JoinSplit(s: string, sep: char)
    ensures Join(Split(s, sep), sep) == s
  {
    if s != [] {
      var rest := Split(s[1..], sep);
      JoinSplit(s[1..], sep);
      if s[0] == sep {
        assert Split(s, sep)[1..] == rest;
      } else {
        var parts := Split(s, sep);
        if |rest| == 1 {
          assert parts == [[s[0]] + rest[0]];
        } else {
          assert parts[1..] == rest[1..];
          assert Join(rest, sep) == rest[0] + [sep] + Join(rest[1..], sep);
        }
      }
    }
  }

  /** A separator-free first word is the first piece, and the pieces of the rest follow it. */
  lemma {:induction false} SplitFirstWord(a: string, rest: string, sep: char)
    requires sep !in a
    ensures Split(a + [sep] + rest, sep) == [a] + Split(rest, sep)
  {
    if a == [] {
      assert [] + [sep] + rest == [sep] + rest;
      assert ([sep] + rest)[1..] == rest;
    } else {
      assert (a + [sep] + rest)[1..] == a[1..] + [sep] + rest;
      SplitFirstWord(a[1..], rest, sep);
      assert [a[0]] + a[1..] == a;
    }
  }

  lemma {:induction false} SplitWord(a: string, sep: char)
    requires sep !in a
    ensures Split(a, sep) == [a]
  {
    if a != [] {
      SplitWord(a[1..], sep);
      assert [a[0]] + a[1..] == a;
    }
  }

  /**
   * `toUpperCase` on one character, for the letters whose upper case is one
   * character of its own: ASCII and Latin-1, with 'µ' going to Greek 'Μ' and
   * 'ÿ' to 'Ÿ'.
   */
  function UpperChar(c: char): (u: char)
    ensures 'a' <= c <= 'z' ==> u == (c as int - 32) as char && 'A' <= u <= 'Z'
    ensures '\U{00E0}' <= c <= '\U{00FE}' && c != '\U{00F7}' ==> u == (c as int - 32) as char
    ensures c == '\U{00B5}' ==> u == '\U{039C}'
    ensures c == '\U{00FF}' ==> u == '\U{0178}'
    ensures !('a' <= c <= 'z') && !('\U{00E0}' <= c <= '\U{00FF}' && c != '\U{00F7}') && c != '\U{00B5}' ==> u == c
  {
    if 'a' <= c <= 'z' || ('\U{00E0}' <= c <= '\U{00FE}' && c != '\U{00F7}') then (c as int - 32) as char
    else if c == '\U{00B5}' then '\U{039C}'
    else if c == '\U{00FF}' then '\U{0178}'
    else c
  }

  /** `s.toUpperCase()` character by character. */
  function Upper(s: string): (r: string)
    ensures |r| == |s|
    ensures forall i :: 0 <= i < |s| ==> r[i] == UpperChar(s[i])
  {
    if s == [] then [] else [UpperChar(s[0])] + Upper(s[1..])
  }
}
