/**
 * The few JavaScript value rules the pages depend on: truthiness of an
 * optional string or boolean property, the `a || d` fallback, what JSX
 * renders for a missing value, and `String.prototype.replace` with a
 * one-character pattern.
 */
module Js {
  import opened Wrappers

  /** A string property is truthy iff it is present and not the empty string. */
  predicate Truthy(v: Option<string>)
  {
    v.Some? && v.value != ""
  }

  /** A boolean property is truthy iff it is present and `true`. */
  predicate TruthyFlag(v: Option<bool>)
  {
    v == Some(true)
  }

  /** `v || d` for a string property `v` and a string literal `d`. */
  function Or(v: Option<string>, d: string): string
  {
    if Truthy(v) then v.value else d
  }

  /** What `{v}` renders inside JSX: `null` and `undefined` render nothing. */
  function Shown(v: Option<string>): string
  {
    v.GetOr("")
  }

  /** `s.replace(a, b)` for one-character strings `a` and `b`: only the first occurrence is replaced. */
  function ReplaceFirst(s: string, a: char, b: char): (r: string)
    ensures |r| == |s|
  {
    if s == [] then []
    else if s[0] == a then [b] + s[1..]
    else [s[0]] + ReplaceFirst(s[1..], a, b)
  }

  /** `s.indexOf(a)`, with `|s|` standing for "not found" (JavaScript's -1). */
  function IndexOf(s: string, a: char): (i: nat)
    ensures i <= |s|
    ensures a !in s[..i]
    ensures i < |s| ==> s[i] == a
  {
    if s == [] then 0
    else if s[0] == a then 0
    else 1 + IndexOf(s[1..], a)
  }

  /** Replacing the first `a` leaves a string without `a` unchanged, and otherwise changes exactly the first `a`. */
  lemma {:induction false} ReplaceFirstChangesFirstOnly(s: string, a: char, b: char)
    ensures a !in s ==> ReplaceFirst(s, a, b) == s
    ensures var i := IndexOf(s, a);
            a in s ==> i < |s| && ReplaceFirst(s, a, b) == s[..i] + [b] + s[i + 1..]
  {
    var i := IndexOf(s, a);
    ReplaceFirstSplits(s, a, b);
    assert s[..|s|] == s;
  }

  /** The text before the first `a` is kept, and when there is an `a` it becomes `b` and the rest is kept. */
  lemma {:induction false} ReplaceFirstSplits(s: string, a: char, b: char)
    ensures var i := IndexOf(s, a);
            ReplaceFirst(s, a, b) == s[..i] + (if i < |s| then [b] + s[i + 1..] else [])
  {
    if s != [] && s[0] != a {
      var t := s[1..];
      ReplaceFirstSplits(t, a, b);
      var j := IndexOf(t, a);
      assert s[..j + 1] == [s[0]] + t[..j];
      if j < |t| {
        assert s[j + 2..] == t[j + 1..];
      }
    }
  }

  /** The first `a` in `p + [a] + rest` is the one after `p` when `p` has none. */
  lemma {:induction false} IndexOfAfterPrefix(p: string, a: char, rest: string)
    requires a !in p
    ensures IndexOf(p + [a] + rest, a) == |p|
  {
    var s := p + [a] + rest;
    if p != [] {
      assert s[0] == p[0] && s[1..] == p[1..] + [a] + rest;
      IndexOfAfterPrefix(p[1..], a, rest);
    }
  }

  /**
   * `v?.charAt(0).toUpperCase()` as JSX renders it: nothing for a missing or
   * empty string, otherwise the first character upper-cased.
   */
  function UpperInitial(v: Option<string>): (r: string)
    ensures |r| <= 1
    ensures r == "" <==> !Truthy(v)
    ensures Truthy(v) ==> r == [AsciiUpper(v.value[0])]
  {
    if Truthy(v) then [AsciiUpper(v.value[0])] else ""
  }

  /** `c.toUpperCase()` on ASCII letters; other characters are returned unchanged. */
  function AsciiUpper(c: char): (u: char)
  {
    if 'a' <= c <= 'z' then (c as int - 'a' as int + 'A' as int) as char else c
  }
}
