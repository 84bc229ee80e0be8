/** The string operations the import pipeline relies on: `startsWith`,
    `endsWith`, `replace` with a string pattern, and `split(/[/\\]/)`. */
module Text {
  import opened Wrappers

  predicate StartsWith(s: string, prefix: string)
  {
    |prefix| <= |s| && s[..|prefix|] == prefix
  }

  predicate EndsWith(s: string, suffix: string)
  {
    |suffix| <= |s| && s[|s| - |suffix|..] == suffix
  }

  /** `pattern` occurs in `s` starting at index `k`. */
  predicate OccursAt(s: string, pattern: string, k: nat)
  {
    k + |pattern| <= |s| && s[k..k + |pattern|] == pattern
  }

  /** The first index at or after `from` where `pattern` occurs. */
  function IndexOfFrom(s: string, pattern: string, from: nat): (r: Option<nat>)
    requires from <= |s|
    ensures r.Some? ==> from <= r.value && OccursAt(s, pattern, r.value)
    ensures r.Some? ==> forall j :: from <= j < r.value ==> !OccursAt(s, pattern, j)
    ensures r.None? ==> forall j :: from <= j <= |s| ==> !OccursAt(s, pattern, j)
    decreases |s| - from
  {
    if OccursAt(s, pattern, from) then Some(from)
    else if from == |s| then None
    else IndexOfFrom(s, pattern, from + 1)
  }

  /** `s.indexOf(pattern)`, with `None` for -1. */
  function IndexOf(s: string, pattern: string): (r: Option<nat>)
    ensures r.Some? ==> OccursAt(s, pattern, r.value)
    ensures r.Some? ==> forall j :: 0 <= j < r.value ==> !OccursAt(s, pattern, j)
    ensures r.None? ==> forall j :: 0 <= j <= |s| ==> !OccursAt(s, pattern, j)
  {
    IndexOfFrom(s, pattern, 0)
  }

  /** `s.replace(pattern, replacement)` with a string pattern: only the FIRST
      occurrence is replaced; without an occurrence the string is unchanged. */
  function ReplaceFirst(s: string, pattern: string, replacement: string): string
  {
    match IndexOf(s, pattern)
    case None => s
    case Some(k) => s[..k] + replacement + s[k + |pattern|..]
  }

  /** The characters matched by the regular expression `[/\\]`. */
  predicate IsSeparator(c: char)
  {
    c == '/' || c == '\\'
  }

  function SeparatorCount(s: string): nat
  {
    if s == [] then 0
    else SeparatorCount(s[..|s| - 1]) + (if IsSeparator(s[|s| - 1]) then 1 else 0)
  }

  /** `s.split(/[/\\]/)`: the maximal separator-free segments, empty ones included. */
  function Split(s: string): (parts: seq<string>)
    ensures |parts| >= 1
  {
    if s == [] then [""]
    else
      var init := Split(s[..|s| - 1]);
      var c := s[|s| - 1];
      if IsSeparator(c) then init + [""]
      else init[..|init| - 1] + [init[|init| - 1] + [c]]
  }

  /** Joins segments with `/`, the inverse of `Split` up to the choice of separator. */
  function JoinWithSlash(parts: seq<string>): string
    requires |parts| >= 1
  {
    if |parts| == 1 then parts[0]
    else JoinWithSlash(parts[..|parts| - 1]) + "/" + parts[|parts| - 1]
  }

  /** `s` with every backslash turned into a slash. */
  function SlashesOnly(s: string): (r: string)
    ensures |r| == |s|
  {
    if s == [] then []
    else SlashesOnly(s[..|s| - 1]) + [if IsSeparator(s[|s| - 1]) then '/' else s[|s| - 1]]
  }

  predicate SeparatorFree(s: string)
  {
    forall i :: 0 <= i < |s| ==> !IsSeparator(s[i])
  }

  /** `split` yields one more segment than there are separators. */
  lemma {:induction false} SplitCount(s: string)
    ensures |Split(s)| == SeparatorCount(s) + 1
  {
    if s != [] {
      SplitCount(s[..|s| - 1]);
    }
  }

  /** No segment of `split` contains a separator. */
  lemma {:induction false} SplitSegmentsSeparatorFree(s: string)
    ensures forall i :: 0 <= i < |Split(s)| ==> SeparatorFree(Split(s)[i])
  {
    if s != [] {
      var init := Split(s[..|s| - 1]);
      var c := s[|s| - 1];
      SplitSegmentsSeparatorFree(s[..|s| - 1]);
      var parts := Split(s);
      if !IsSeparator(c) {
        forall i | 0 <= i < |parts| ensures SeparatorFree(parts[i]) {
          if i == |parts| - 1 {
            assert SeparatorFree(init[|init| - 1]);
            assert parts[i] == init[|init| - 1] + [c];
          } else {
            assert parts[i] == init[i];
          }
        }
      }
    }
  }

  /** Joining the segments of `split` with `/` gives back the input, with
      every separator written as `/`. */
  lemma {:induction false} SplitJoin(s: string)
    ensures JoinWithSlash(Split(s)) == SlashesOnly(s)
  {
    if s != [] {
      var t := s[..|s| - 1];
      var init := Split(t);
      var c := s[|s| - 1];
      SplitJoin(t);
      var parts := Split(s);
      if IsSeparator(c) {
        assert parts == init + [""];
        assert parts[..|parts| - 1] == init;
      } else {
        assert parts == init[..|init| - 1] + [init[|init| - 1] + [c]];
        if |init| == 1 {
          assert JoinWithSlash(parts) == init[0] + [c];
        } else {
          assert parts[..|parts| - 1] == init[..|init| - 1];
          assert JoinWithSlash(init) == JoinWithSlash(init[..|init| - 1]) + "/" + init[|init| - 1];
        }
      }
    }
  }

  /** A path splits into exactly two segments iff it holds exactly one
      separator, and then it is the two segments around that separator. */
  lemma TwoParts(s: string)
    ensures |Split(s)| == 2 <==> SeparatorCount(s) == 1
    ensures |Split(s)| == 2 ==>
      (exists k :: 0 <= k < |s| && IsSeparator(s[k]) &&
        Split(s)[0] == s[..k] && Split(s)[1] == s[k + 1..])
  {
    SplitCount(s);
    if |Split(s)| == 2 {
      var k := TwoPartsWitness(s);
    }
  }

  /** The separator between the two segments of a two-segment path. */
  lemma {:induction false} TwoPartsWitness(s: string) returns (k: nat)
    requires |Split(s)| == 2
    ensures k < |s| && IsSeparator(s[k]) && Split(s)[0] == s[..k] && Split(s)[1] == s[k + 1..]
  {
    var t := s[..|s| - 1];
    var c := s[|s| - 1];
    assert s == t + [c];
    if IsSeparator(c) {
      OnePart(t);
      k := |t|;
    } else {
      k := TwoPartsWitness(t);
      SliceOfSnoc(t, c, k + 1);
    }
  }

  lemma SliceOfSnoc(t: string, c: char, k: nat)
    requires k <= |t|
    ensures (t + [c])[k..] == t[k..] + [c]
  {
    var u := t + [c];
    assert |u[k..]| == |t[k..] + [c]|;
    forall i | 0 <= i < |u[k..]| ensures u[k..][i] == (t[k..] + [c])[i] {
      if k + i < |t| { assert u[k + i] == t[k + i]; }
    }
  }

  /** A separator-free string is its own single segment. */
  lemma {:induction false} OnePart(s: string)
    requires |Split(s)| == 1
    ensures Split(s) == [s]
  {
    if s != [] {
      var t := s[..|s| - 1];
      var init := Split(t);
      assert !IsSeparator(s[|s| - 1]);
      assert |init| == 1;
      OnePart(t);
      assert s == t + [s[|s| - 1]];
    }
  }
}
