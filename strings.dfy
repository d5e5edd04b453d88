/**
 * The JavaScript string operations the account logic relies on:
 * `trim`, `toLowerCase`, `replace` with a string pattern,
 * and truthiness of a possibly missing string.
 */
module Strings {
  import opened Wrappers

  /** A missing value or the empty string is falsy; every other string is truthy. */
  predicate Truthy(s: Option<string>) {
    s.Some? && s.value != ""
  }

  /** The characters `String.prototype.trim` removes: ECMAScript WhiteSpace and LineTerminator. */
  const Whitespace: set<char> := {
    '\t', '\n', '\U{000B}', '\U{000C}', '\r', ' ', '\U{00A0}', '\U{1680}',
    '\U{2000}', '\U{2001}', '\U{2002}', '\U{2003}', '\U{2004}', '\U{2005}',
    '\U{2006}', '\U{2007}', '\U{2008}', '\U{2009}', '\U{200A}',
    '\U{2028}', '\U{2029}', '\U{202F}', '\U{205F}', '\U{3000}', '\U{FEFF}'
  }

  predicate IsSpace(c: char) {
    c in Whitespace
  }

  predicate IsTrimmed(s: string) {
    s == [] || (!IsSpace(s[0]) && !IsSpace(s[|s| - 1]))
  }

  /** Drops leading whitespace: the result is a suffix of `s` and all that was dropped is whitespace. */
  function TrimStart(s: string): (r: string)
    ensures |r| <= |s| && r == s[|s| - |r|..]
    ensures r == [] || !IsSpace(r[0])
  {
    if s != [] && IsSpace(s[0]) then TrimStart(s[1..]) else s
  }

  /** Drops trailing whitespace: the result is a prefix of `s` and all that was dropped is whitespace. */
  function TrimEnd(s: string): (r: string)
    ensures |r| <= |s| && r == s[..|r|]
    ensures r == [] || !IsSpace(r[|r| - 1])
  {
    if s != [] && IsSpace(s[|s| - 1]) then TrimEnd(s[..|s| - 1]) else s
  }

  /** Everything of `s` before index `a` and from index `b` on is whitespace. */
  predicate SpaceOutside(s: string, a: int, b: int) {
    && 0 <= a <= b <= |s|
    && (forall i :: 0 <= i < a ==> IsSpace(s[i]))
    && (forall i :: b <= i < |s| ==> IsSpace(s[i]))
  }

  /**
   * `s.trim()`: the result is a slice of `s` with only whitespace around it
   * and none at its own ends; a string with no surrounding whitespace is
   * returned unchanged (`TrimBlank` says when the result is empty).
   */
  function Trim(s: string): (r: string)
    ensures IsTrimmed(r)
    ensures IsTrimmed(s) ==> r == s
    ensures exists a, b :: SpaceOutside(s, a, b) && r == s[a..b]
  {
    var t := TrimStart(s);
    var r := TrimEnd(t);
    assert r != [] ==> r[0] == t[0];
    TrimSlice(s);
    r
  }

  /** What `TrimStart` and then `TrimEnd` keep is the slice of `s` between the whitespace they drop. */
  lemma TrimSlice(s: string)
    ensures exists a, b :: SpaceOutside(s, a, b) && TrimEnd(TrimStart(s)) == s[a..b]
  {
    var t := TrimStart(s);
    var r := TrimEnd(t);
    var a := |s| - |t|;
    TrimStartDropsSpaces(s);
    TrimEndDropsSpaces(t);
    forall i | a + |r| <= i < |s|
      ensures IsSpace(s[i])
    {
      assert s[i] == t[i - a];
    }
    assert r == t[..|r|] == s[a..][..|r|] == s[a..a + |r|];
    assert SpaceOutside(s, a, a + |r|);
  }

  /** All that `TrimStart` drops is whitespace. */
  lemma {:induction false} TrimStartDropsSpaces(s: string)
    ensures forall i :: 0 <= i < |s| - |TrimStart(s)| ==> IsSpace(s[i])
  {
    if s != [] && IsSpace(s[0]) {
      TrimStartDropsSpaces(s[1..]);
    }
  }

  /** All that `TrimEnd` drops is whitespace. */
  lemma {:induction false} TrimEndDropsSpaces(s: string)
    ensures forall i :: |TrimEnd(s)| <= i < |s| ==> IsSpace(s[i])
  {
    if s != [] && IsSpace(s[|s| - 1]) {
      TrimEndDropsSpaces(s[..|s| - 1]);
    }
  }

  /** Trimming gives the empty string exactly when the string is whitespace only. */
  lemma TrimBlank(s: string)
    ensures Trim(s) == [] <==> forall i :: 0 <= i < |s| ==> IsSpace(s[i])
  {
    var t := TrimStart(s);
    assert Trim(s) == TrimEnd(t);
    TrimStartDropsSpaces(s);
    TrimEndDropsSpaces(t);
    if Trim(s) == [] {
      forall i | 0 <= i < |s| ensures IsSpace(s[i]) {
        if i >= |s| - |t| {
          assert s[i] == t[i - (|s| - |t|)];
        }
      }
    }
  }

  /** Lowering a character keeps whether it is whitespace. */
  lemma LowerKeepsSpace(c: char)
    ensures IsSpace(LowerChar(c)) == IsSpace(c)
  {
  }

  predicate IsUpper(c: char) {
    'A' <= c <= 'Z'
  }

  function LowerChar(c: char): (d: char)
    ensures !IsUpper(d)
  {
    if IsUpper(c) then (c as int + 32) as char else c
  }

  /** `s.toLowerCase()` on ASCII letters: same length, each character lowered in place. */
  function ToLower(s: string): (r: string)
    ensures |r| == |s|
    ensures forall i :: 0 <= i < |s| ==> r[i] == LowerChar(s[i])
  {
    if s == [] then [] else [LowerChar(s[0])] + ToLower(s[1..])
  }

  /** A value the schema's `lowercase: true, trim: true` setters leave as it is. */
  predicate IsNormal(s: string) {
    IsTrimmed(s) && forall i :: 0 <= i < |s| ==> !IsUpper(s[i])
  }

  /**
   * The `lowercase: true, trim: true` setters: the result is normal, and a
   * value that is already normal is kept, so the setters are idempotent.
   */
  function Normalize(s: string): (r: string)
    ensures IsNormal(r)
    ensures IsNormal(s) ==> r == s
    ensures exists a, b :: SpaceOutside(s, a, b) && r == ToLower(s[a..b])
  {
    LowerOfTrimmedIsNormal(Trim(s));
    LowerOfNormalUnchanged(s);
    LowerOfTrimSlice(s);
    ToLower(Trim(s))
  }

  /** Lowering the trimmed string lowers the slice of `s` that `trim` keeps. */
  lemma LowerOfTrimSlice(s: string)
    ensures exists a, b :: SpaceOutside(s, a, b) && ToLower(Trim(s)) == ToLower(s[a..b])
  {
    TrimSlice(s);
    var a, b :| SpaceOutside(s, a, b) && TrimEnd(TrimStart(s)) == s[a..b];
    assert Trim(s) == TrimEnd(TrimStart(s));
    assert ToLower(Trim(s)) == ToLower(s[a..b]);
  }

  /** Lowering a trimmed string gives a normal one: lowering never turns an edge character into whitespace. */
  lemma LowerOfTrimmedIsNormal(t: string)
    requires IsTrimmed(t)
    ensures IsNormal(ToLower(t))
  {
    if t != [] {
      LowerKeepsSpace(t[0]);
      LowerKeepsSpace(t[|t| - 1]);
    }
  }

  /** A normal string is its own trimmed, lowered form. */
  lemma LowerOfNormalUnchanged(s: string)
    ensures IsNormal(s) ==> ToLower(Trim(s)) == s
  {
    if IsNormal(s) {
      var r := ToLower(s);
      assert forall i :: 0 <= i < |s| ==> r[i] == s[i];
    }
  }

  predicate OccursAt(s: string, pat: string, i: nat) {
    i + |pat| <= |s| && s[i..i + |pat|] == pat
  }

  /** `s.indexOf(pat, from)`: the first position at or after `from` where `pat` occurs, if any. */
  function IndexFrom(s: string, pat: string, from: nat): (r: Option<nat>)
    ensures r.Some? ==> from <= r.value && OccursAt(s, pat, r.value)
    ensures r.Some? ==> forall j: nat :: from <= j < r.value ==> !OccursAt(s, pat, j)
    ensures r.None? ==> forall j: nat :: from <= j ==> !OccursAt(s, pat, j)
    decreases |s| - from
  {
    if OccursAt(s, pat, from) then Some(from)
    else if from >= |s| then None
    else IndexFrom(s, pat, from + 1)
  }

  /**
   * `s.replace(pat, rep)` with a string pattern and a replacement holding no
   * `$` (JavaScript expands `$&`, `$$` and the like): only the first
   * occurrence is replaced.
   */
  function ReplaceFirst(s: string, pat: string, rep: string): (r: string)
    ensures (forall j: nat :: !OccursAt(s, pat, j)) ==> r == s
    ensures forall i: nat :: OccursAt(s, pat, i) && (forall j: nat :: j < i ==> !OccursAt(s, pat, j)) ==>
              r == s[..i] + rep + s[i + |pat|..]
  {
    match IndexFrom(s, pat, 0)
    case Some(i) => s[..i] + rep + s[i + |pat|..]
    case None => s
  }

  /** Replacing by "" removes the first occurrence of the pattern and keeps both sides of it. */
  lemma ReplaceFirstByEmpty(s: string, pat: string)
    ensures forall i: nat :: OccursAt(s, pat, i) && (forall j: nat :: j < i ==> !OccursAt(s, pat, j)) ==>
              ReplaceFirst(s, pat, "") == s[..i] + s[i + |pat|..]
  {
    forall i: nat | OccursAt(s, pat, i) && (forall j: nat :: j < i ==> !OccursAt(s, pat, j))
      ensures ReplaceFirst(s, pat, "") == s[..i] + s[i + |pat|..]
    {
      assert s[..i] + "" == s[..i];
    }
  }

  /** Replacing a pattern the string starts with by "" leaves exactly the rest. */
  lemma ReplaceLeadingPattern(pat: string, rest: string)
    ensures ReplaceFirst(pat + rest, pat, "") == rest
  {
    assert OccursAt(pat + rest, pat, 0);
  }

  /** A string in which the pattern never occurs is returned unchanged. */
  lemma ReplaceAbsentPattern(s: string, pat: string)
    requires forall j: nat :: !OccursAt(s, pat, j)
    ensures ReplaceFirst(s, pat, "") == s
  {
  }

  /** Lowering twice is lowering once. */
  lemma ToLowerIdempotent(s: string)
    ensures ToLower(ToLower(s)) == ToLower(s)
  {
    var t := ToLower(s);
    assert forall i :: 0 <= i < |t| ==> ToLower(t)[i] == t[i];
  }

  /** Lowering first and trimming afterwards is the same as trimming first: lowering never creates or removes whitespace. */
  lemma {:induction false} TrimStartLower(s: string)
    ensures TrimStart(ToLower(s)) == ToLower(TrimStart(s))
  {
    if s != [] {
      assert ToLower(s)[1..] == ToLower(s[1..]);
      LowerKeepsSpace(s[0]);
      if IsSpace(s[0]) {
        TrimStartLower(s[1..]);
      }
    }
  }

  lemma {:induction false} TrimEndLower(s: string)
    ensures TrimEnd(ToLower(s)) == ToLower(TrimEnd(s))
  {
    if s != [] {
      assert ToLower(s)[..|s| - 1] == ToLower(s[..|s| - 1]);
      LowerKeepsSpace(s[|s| - 1]);
      if IsSpace(s[|s| - 1]) {
        TrimEndLower(s[..|s| - 1]);
      }
    }
  }

  /** Setting `username: username.toLowerCase()` on a lower-casing, trimming path stores the same value as the setters alone. */
  lemma NormalizeAfterLower(s: string)
    ensures Normalize(ToLower(s)) == Normalize(s)
  {
    TrimStartLower(s);
    TrimEndLower(TrimStart(s));
    ToLowerIdempotent(Trim(s));
  }
}
