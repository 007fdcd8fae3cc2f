/**
 * The string operations the pages rely on, over `seq<char>`:
 * `toLowerCase`, `includes`, `split`, `join`, `trim` and `replace(/\D/g, '')`.
 * Case folding and white space are the ASCII ones.
 */
module Text {
  import Seqs

  // ----- toLowerCase -----

  predicate IsUpper(c: char) { 'A' <= c <= 'Z' }

  function LowerChar(c: char): char {
    if IsUpper(c) then (c as int + 32) as char else c
  }

  /**
   * `s.toLowerCase()` for ASCII letters: same length, each capital replaced by its own lower-case
   * letter (32 code points on), every other character kept.
   */
  function Lower(s: string): (r: string)
    ensures |r| == |s|
    ensures forall i :: 0 <= i < |s| ==> !IsUpper(r[i]) && (!IsUpper(s[i]) ==> r[i] == s[i])
    ensures forall i :: 0 <= i < |s| && IsUpper(s[i]) ==> r[i] as int == s[i] as int + 32
  {
    seq(|s|, i requires 0 <= i < |s| => LowerChar(s[i]))
  }

  /** Lower-casing twice is lower-casing once, and no upper-case letter survives. */
  lemma LowerIdempotent(s: string)
    ensures Lower(Lower(s)) == Lower(s)
    ensures forall i :: 0 <= i < |s| ==> !IsUpper(Lower(s)[i])
  {
  }

  // ----- includes -----

  /** `s.includes(q)`: `q` occurs in `s` as a contiguous piece. */
  predicate Contains(s: string, q: string)
    ensures Contains(s, q) ==> |q| <= |s|
    ensures q == [] ==> Contains(s, q)
    decreases |s|
  {
    q <= s || (s != [] && Contains(s[1..], q))
  }

  /** `q` occurs in `s` starting at index `i`. */
  predicate OccursAt(s: string, q: string, i: int) {
    0 <= i <= |s| - |q| && s[i..i + |q|] == q
  }

  /** A found query occurs at some position. */
  lemma {:induction false} ContainsThenOccurs(s: string, q: string)
    requires Contains(s, q)
    ensures exists i :: OccursAt(s, q, i)
    decreases |s|
  {
    if q <= s {
      assert OccursAt(s, q, 0);
    } else {
      var t := s[1..];
      ContainsThenOccurs(t, q);
      var j :| OccursAt(t, q, j);
      assert s[j + 1..j + 1 + |q|] == t[j..j + |q|];
      assert OccursAt(s, q, j + 1);
    }
  }

  /** A query occurring at a position is found. */
  lemma {:induction false} OccursThenContains(s: string, q: string, i: int)
    requires OccursAt(s, q, i)
    ensures Contains(s, q)
    decreases i
  {
    if i == 0 {
      assert q <= s;
    } else {
      var t := s[1..];
      assert t[i - 1..i - 1 + |q|] == s[i..i + |q|];
      OccursThenContains(t, q, i - 1);
    }
  }

  /** The recursive `Contains` agrees with the positional definition of an occurrence. */
  lemma ContainsIffOccurs(s: string, q: string)
    ensures Contains(s, q) <==> exists i :: OccursAt(s, q, i)
  {
    if Contains(s, q) {
      ContainsThenOccurs(s, q);
    }
    if exists i :: OccursAt(s, q, i) {
      var i :| OccursAt(s, q, i);
      OccursThenContains(s, q, i);
    }
  }

  /** `a` and `b` spell the same text up to the case of ASCII letters. */
  predicate EqualIgnoringCase(a: string, b: string) {
    |a| == |b| && forall i :: 0 <= i < |a| ==> SameLetterIgnoringCase(a[i], b[i])
  }

  predicate SameLetterIgnoringCase(x: char, y: char) {
    || x == y
    || (IsUpper(x) && y as int == x as int + 32)
    || (IsUpper(y) && x as int == y as int + 32)
  }

  /** Texts equal up to case lower-case to the same text, so each contains the other lower-cased. */
  lemma LowerEqualIgnoringCase(a: string, b: string)
    requires EqualIgnoringCase(a, b)
    ensures Lower(a) == Lower(b)
    ensures Contains(Lower(a), Lower(b))
  {
    var la, lb := Lower(a), Lower(b);
    forall i | 0 <= i < |a|
      ensures la[i] == lb[i]
    {
      assert SameLetterIgnoringCase(a[i], b[i]);
    }
    assert la == lb;
    assert lb <= la;
  }

  /** An occurrence survives lower-casing both sides, so a query is found whatever its case. */
  lemma ContainsLower(s: string, q: string)
    requires Contains(s, q)
    ensures Contains(Lower(s), Lower(q))
  {
    ContainsIffOccurs(s, q);
    var i :| OccursAt(s, q, i);
    assert Lower(s)[i..i + |q|] == Lower(q);
    assert OccursAt(Lower(s), Lower(q), i);
    ContainsIffOccurs(Lower(s), Lower(q));
  }

  // ----- split and join -----

  /** `s.split(sep)`: the pieces between separators, at least one, none holding `sep`. */
  function Split(s: string, sep: char): (r: seq<string>)
    ensures |r| >= 1
    ensures forall i :: 0 <= i < |r| ==> sep !in r[i]
    decreases |s|
  {
    if s == [] then [""]
    else
      var rest := Split(s[1..], sep);
      if s[0] == sep then [""] + rest
      else [[s[0]] + rest[0]] + rest[1..]
  }

  /** `xs.join(sep)`; `JoinSplit` and `SplitJoin` make it the inverse of `Split`. */
  function Join(xs: seq<string>, sep: string): string
    decreases |xs|
  {
    if xs == [] then ""
    else if |xs| == 1 then xs[0]
    else xs[0] + sep + Join(xs[1..], sep)
  }

  /** Joining the pieces of a split with the same separator gives back the string. */
  lemma {:induction false} JoinSplit(s: string, sep: char)
    ensures Join(Split(s, sep), [sep]) == s
    decreases |s|
  {
    if s != [] {
      var rest := Split(s[1..], sep);
      JoinSplit(s[1..], sep);
      if s[0] == sep {
        assert ([""] + rest)[1..] == rest;
      } else if |rest| > 1 {
        var r := [[s[0]] + rest[0]] + rest[1..];
        assert r[1..] == rest[1..];
        calc {
          Join(r, [sep]);
          ([s[0]] + rest[0]) + [sep] + Join(rest[1..], [sep]);
          [s[0]] + (rest[0] + [sep] + Join(rest[1..], [sep]));
          [s[0]] + Join(rest, [sep]);
        }
      }
    }
  }

  /** A string without the separator splits into itself. */
  lemma {:induction false} SplitWithoutSep(a: string, sep: char)
    requires sep !in a
    ensures Split(a, sep) == [a]
    decreases |a|
  {
    if a != [] {
      SplitWithoutSep(a[1..], sep);
      assert [a[0]] + a[1..] == a;
    }
  }

  /** A separator after a separator-free prefix ends the first piece. */
  lemma {:induction false} SplitAfterSep(a: string, b: string, sep: char)
    requires sep !in a
    ensures Split(a + [sep] + b, sep) == [a] + Split(b, sep)
    decreases |a|
  {
    var s := a + [sep] + b;
    if a == [] {
      assert s[1..] == b;
    } else {
      SplitAfterSep(a[1..], b, sep);
      assert s[1..] == a[1..] + [sep] + b;
      assert [a[0]] + a[1..] == a;
    }
  }

  /** Splitting a join of separator-free pieces gives back the pieces. */
  lemma {:induction false} SplitJoin(xs: seq<string>, sep: char)
    requires |xs| >= 1
    requires forall i :: 0 <= i < |xs| ==> sep !in xs[i]
    ensures Split(Join(xs, [sep]), sep) == xs
    decreases |xs|
  {
    if |xs| == 1 {
      SplitWithoutSep(xs[0], sep);
    } else {
      SplitJoin(xs[1..], sep);
      SplitAfterSep(xs[0], Join(xs[1..], [sep]), sep);
      assert [xs[0]] + xs[1..] == xs;
    }
  }

  // ----- trim -----

  /** ASCII white space: space, tab, line feed, vertical tab, form feed, carriage return. */
  predicate IsSpace(c: char) {
    c == ' ' || 9 <= c as int <= 13
  }

  predicate IsTrimmed(s: string) {
    s == [] || (!IsSpace(s[0]) && !IsSpace(s[|s| - 1]))
  }

  /** `s` without its leading white space. */
  function TrimStart(s: string): (r: string)
    ensures |r| <= |s| && r == s[|s| - |r|..]
    ensures r == [] || !IsSpace(r[0])
    decreases |s|
  {
    if s != [] && IsSpace(s[0]) then TrimStart(s[1..]) else s
  }

  /** `s` without its trailing white space. */
  function TrimEnd(s: string): (r: string)
    ensures |r| <= |s| && r == s[..|r|]
    ensures r == [] || !IsSpace(r[|r| - 1])
    decreases |s|
  {
    if s != [] && IsSpace(s[|s| - 1]) then TrimEnd(s[..|s| - 1]) else s
  }

  /** `s.trim()`: no white space is left at either end; `TrimCutsOnlySpace` says what is cut. */
  function Trim(s: string): (r: string)
    ensures IsTrimmed(r) && |r| <= |s|
  {
    TrimEnd(TrimStart(s))
  }

  /** Everything `TrimStart` cuts off is white space. */
  lemma {:induction false} TrimStartCutsSpace(s: string)
    ensures forall k :: 0 <= k < |s| - |TrimStart(s)| ==> IsSpace(s[k])
    decreases |s|
  {
    if s != [] && IsSpace(s[0]) {
      TrimStartCutsSpace(s[1..]);
      assert forall k :: 1 <= k < |s| ==> s[k] == s[1..][k - 1];
    }
  }

  /** Everything `TrimEnd` cuts off is white space. */
  lemma {:induction false} TrimEndCutsSpace(s: string)
    ensures forall k :: |TrimEnd(s)| <= k < |s| ==> IsSpace(s[k])
    decreases |s|
  {
    if s != [] && IsSpace(s[|s| - 1]) {
      TrimEndCutsSpace(s[..|s| - 1]);
    }
  }

  /** `TrimEnd(TrimStart(s))` is a slice of `s` starting after the leading white space. */
  lemma TrimIsSlice(s: string)
    ensures var r, i := TrimEnd(TrimStart(s)), |s| - |TrimStart(s)|;
      i + |r| <= |s| && forall k {:trigger r[k]} :: 0 <= k < |r| ==> r[k] == s[i + k]
  {
    var t := TrimStart(s);
    Seqs.PrefixOfSuffix(s, t, TrimEnd(t));
  }

  /** What `TrimEnd(TrimStart(s))` cuts after the kept slice is white space. */
  lemma TrimTailIsSpace(s: string)
    ensures forall k :: |s| - |TrimStart(s)| + |TrimEnd(TrimStart(s))| <= k < |s| ==> IsSpace(s[k])
  {
    var t := TrimStart(s);
    TrimEndCutsSpace(t);
    assert forall k :: |s| - |t| <= k < |s| ==> s[k] == t[k - (|s| - |t|)];
  }

  /**
   * `trim` keeps the characters `s[i..i + |Trim(s)|]`, where `i` counts the leading white space:
   * everything cut off at either end is white space.
   */
  lemma TrimCutsOnlySpace(s: string)
    ensures var r, i := Trim(s), |s| - |TrimStart(s)|;
      && i + |r| <= |s|
      && (forall k {:trigger r[k]} :: 0 <= k < |r| ==> r[k] == s[i + k])
      && (forall k :: 0 <= k < i ==> IsSpace(s[k]))
      && (forall k :: i + |r| <= k < |s| ==> IsSpace(s[k]))
  {
    TrimIsSlice(s);
    TrimStartCutsSpace(s);
    TrimTailIsSpace(s);
  }

  /** Trimming only removes characters: a character of the result is one of `s`. */
  lemma TrimAddsNothing(s: string, c: char)
    ensures c in Trim(s) ==> c in s
  {
    var t := TrimStart(s);
    Seqs.PrefixOfSuffixHasNoOther(s, t, TrimEnd(t), c);
  }

  /** Trimming a trimmed string changes nothing. */
  lemma TrimTrimmed(s: string)
    requires IsTrimmed(s)
    ensures Trim(s) == s
  {
  }

  /** Leading white space does not survive a trim. */
  lemma TrimLeadingSpace(c: char, s: string)
    requires IsSpace(c)
    ensures Trim([c] + s) == Trim(s)
  {
    assert ([c] + s)[1..] == s;
  }

  // ----- replace(/\D/g, '') -----

  predicate IsDigit(c: char) { '0' <= c <= '9' }

  /** The digit characters of `s`, in order: `s.replace(/\D/g, '')`. */
  function DigitsOf(s: string): (d: string)
    ensures |d| <= |s| && Seqs.IsSubsequence(d, s)
    ensures forall i :: 0 <= i < |d| ==> IsDigit(d[i])
    ensures forall c :: multiset(d)[c] == if IsDigit(c) then multiset(s)[c] else 0
  {
    Seqs.FilterIsSubsequence(s, IsDigit);
    Seqs.FilterCounts(s, IsDigit);
    Seqs.Filter(s, IsDigit)
  }
}
