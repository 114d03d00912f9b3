/**
  The handful of Python `str` operations the chatbot relies on, written over
  `seq<char>`: `lower()`, `capitalize()`, `strip() == ""`, the substring
  test `p in s`, `startswith` and `replace`. `Upper` is not used by the
  chatbot; it exists only to state that the weather classifier ignores
  letter case. Case mapping is the ASCII one; every literal the chatbot
  compares against is ASCII.
 */
module Text {

  /** `c.lower()` for ASCII letters; every other character is left alone. */
  function LowerChar(c: char): char {
    if 'A' <= c <= 'Z' then (c as int + 32) as char else c
  }

  /** `c.upper()` for ASCII letters; every other character is left alone. */
  function UpperChar(c: char): char {
    if 'a' <= c <= 'z' then (c as int - 32) as char else c
  }

  /** `s.lower()`: maps every character through `LowerChar`. */
  function Lower(s: string): (r: string)
    ensures |r| == |s|
    ensures forall i :: 0 <= i < |s| ==> r[i] == LowerChar(s[i])
  {
    seq(|s|, i requires 0 <= i < |s| => LowerChar(s[i]))
  }

  /** `s.upper()`: maps every character through `UpperChar`. */
  function Upper(s: string): (r: string)
    ensures |r| == |s|
    ensures forall i :: 0 <= i < |s| ==> r[i] == UpperChar(s[i])
  {
    seq(|s|, i requires 0 <= i < |s| => UpperChar(s[i]))
  }

  /** Lower-casing twice is lower-casing once. */
  lemma LowerIdempotent(s: string)
    ensures Lower(Lower(s)) == Lower(s)
  {
  }

  /** Lower-casing forgets whether the text was upper-cased first. */
  lemma LowerOfUpper(s: string)
    ensures Lower(Upper(s)) == Lower(s)
  {
    assert forall i :: 0 <= i < |s| ==> LowerChar(UpperChar(s[i])) == LowerChar(s[i]);
  }

  /** `s.capitalize()`: first character upper-cased, the rest lower-cased. */
  function Capitalize(s: string): (r: string)
    ensures |r| == |s|
    ensures |s| > 0 ==> r[0] == UpperChar(s[0]) && r[1..] == Lower(s[1..])
  {
    if s == [] then [] else [UpperChar(s[0])] + Lower(s[1..])
  }

  /** Capitalizing an already capitalized text changes nothing. */
  lemma CapitalizeIdempotent(s: string)
    ensures Capitalize(Capitalize(s)) == Capitalize(s)
  {
    if s != [] {
      var c := Capitalize(s);
      assert UpperChar(UpperChar(s[0])) == UpperChar(s[0]);
      LowerIdempotent(s[1..]);
      assert c[1..] == Lower(s[1..]);
    }
  }

  /** The characters for which Python's `str.isspace()` holds. */
  predicate IsSpace(c: char) {
    || c == ' ' || c == '\t' || c == '\n' || c == '\r'
    || c == '\U{000B}' || c == '\U{000C}'
    || '\U{001C}' <= c <= '\U{001F}'
    || c == '\U{0085}' || c == '\U{00A0}' || c == '\U{1680}'
    || '\U{2000}' <= c <= '\U{200A}'
    || c == '\U{2028}' || c == '\U{2029}' || c == '\U{202F}'
    || c == '\U{205F}' || c == '\U{3000}'
  }

  /** `not s or s.strip() == ""`: the text is empty or only whitespace. */
  predicate IsBlank(s: string) {
    forall i :: 0 <= i < |s| ==> IsSpace(s[i])
  }

  /** `p` occurs in `s` starting at index `i`. */
  predicate OccursAt(s: string, p: string, i: nat) {
    i + |p| <= |s| && s[i..i + |p|] == p
  }

  /** Python's `p in s`; the empty string occurs in every string. */
  predicate Contains(s: string, p: string) {
    exists i: nat :: i <= |s| && OccursAt(s, p, i)
  }

  /** `s.startswith(p)`. */
  predicate StartsWith(s: string, p: string) {
    |p| <= |s| && s[..|p|] == p
  }

  lemma EmptyOccursEverywhere(s: string)
    ensures Contains(s, "")
  {
    assert OccursAt(s, "", 0);
  }

  /** An occurrence in either part is an occurrence in the concatenation. */
  lemma ContainsConcat(s: string, t: string, p: string)
    requires Contains(s, p) || Contains(t, p)
    ensures Contains(s + t, p)
  {
    if Contains(s, p) {
      var i: nat :| i <= |s| && OccursAt(s, p, i);
      assert (s + t)[i..i + |p|] == s[i..i + |p|];
      assert OccursAt(s + t, p, i);
    } else {
      var i: nat :| i <= |t| && OccursAt(t, p, i);
      assert (s + t)[|s| + i..|s| + i + |p|] == t[i..i + |p|];
      assert OccursAt(s + t, p, |s| + i);
    }
  }

  /** A single character occurs as a substring exactly when it is an element. */
  lemma ContainsChar(s: string, c: char)
    ensures Contains(s, [c]) <==> c in s
  {
    if c in s {
      var i :| 0 <= i < |s| && s[i] == c;
      assert OccursAt(s, [c], i);
    }
    if Contains(s, [c]) {
      var i: nat :| i <= |s| && OccursAt(s, [c], i);
      assert s[i] == s[i..i + 1][0];
    }
  }

  /**
    Python's `s.replace(p, q)` for a non-empty `p`: scans left to right and
    replaces every non-overlapping occurrence of `p` by `q`.
   */
  function ReplaceAll(s: string, p: string, q: string): string
    requires |p| > 0
    decreases |s|
  {
    if |s| < |p| then s
    else if s[..|p|] == p then q + ReplaceAll(s[|p|..], p, q)
    else [s[0]] + ReplaceAll(s[1..], p, q)
  }

  /** A character outside the pattern survives the replacement. */
  lemma {:induction false} ReplaceAllKeeps(s: string, p: string, q: string, c: char)
    requires |p| > 0
    requires c in s && c !in p
    ensures c in ReplaceAll(s, p, q)
    decreases |s|
  {
    if |s| >= |p| {
      if s[..|p|] == p {
        var i :| 0 <= i < |s| && s[i] == c;
        assert s[|p|..][i - |p|] == c;
        ReplaceAllKeeps(s[|p|..], p, q, c);
      } else if s[0] != c {
        assert c in s[1..] by {
          var i :| 0 <= i < |s| && s[i] == c;
          assert s[1..][i - 1] == c;
        }
        ReplaceAllKeeps(s[1..], p, q, c);
      }
    }
  }

  /** Replacing a pattern that does not occur changes nothing. */
  lemma {:induction false} ReplaceAllAbsent(s: string, p: string, q: string)
    requires |p| > 0
    requires !Contains(s, p)
    ensures ReplaceAll(s, p, q) == s
  {
    if |s| >= |p| {
      assert !OccursAt(s, p, 0);
      if Contains(s[1..], p) {
        var i: nat :| i <= |s[1..]| && OccursAt(s[1..], p, i);
        assert s[1..][i..i + |p|] == s[i + 1..i + 1 + |p|];
        assert OccursAt(s, p, i + 1);
      }
      ReplaceAllAbsent(s[1..], p, q);
      assert [s[0]] + s[1..] == s;
    }
  }

  /** A text that starts with the pattern starts with the replacement afterwards. */
  lemma ReplaceAllLeading(s: string, p: string, q: string)
    requires |p| > 0
    requires StartsWith(s, p)
    ensures StartsWith(ReplaceAll(s, p, q), q)
  {
    var r := ReplaceAll(s, p, q);
    assert r == q + ReplaceAll(s[|p|..], p, q);
    assert r[..|q|] == q;
  }
}
