/**
  The string handling the sink configuration relies on: Java's `String.trim`, ASCII
  case-insensitive comparison (`equalsIgnoreCase` on the names used here), and
  splitting a list value at commas.
*/
module Strings {

  /** `String.trim` strips every character whose code is at most U+0020: space, tab, newline and the other controls. */
  predicate IsBlank(c: char)
  {
    c <= ' '
  }

  /** Every character of `s` is blank. */
  predicate AllBlank(s: string)
  {
    forall i :: 0 <= i < |s| ==> IsBlank(s[i])
  }

  /** `s` neither starts nor ends with a blank. */
  predicate IsTrimmed(s: string)
  {
    s == [] || (!IsBlank(s[0]) && !IsBlank(s[|s| - 1]))
  }

  /** How many blanks `s` starts with: all characters before it are blank, the one at it is not. */
  function LeadingBlanks(s: string): (n: nat)
    ensures n <= |s|
    ensures forall i :: 0 <= i < n ==> IsBlank(s[i])
    ensures n < |s| ==> !IsBlank(s[n])
  {
    if |s| > 0 && IsBlank(s[0]) then
      var m := LeadingBlanks(s[1..]);
      assert forall i :: 1 <= i < m + 1 ==> s[i] == s[1..][i - 1];
      m + 1
    else 0
  }

  /** How many blanks `s` ends with: all characters after `|s| - n` are blank, the one before is not. */
  function TrailingBlanks(s: string): (n: nat)
    ensures n <= |s|
    ensures forall i :: |s| - n <= i < |s| ==> IsBlank(s[i])
    ensures n < |s| ==> !IsBlank(s[|s| - n - 1])
  {
    if |s| > 0 && IsBlank(s[|s| - 1]) then
      var t := s[..|s| - 1];
      var m := TrailingBlanks(t);
      assert forall i :: |t| - m <= i < |t| ==> s[i] == t[i];
      m + 1
    else 0
  }

  /**
    `String.trim`: the piece of `s` between its leading and its trailing blanks. Blanks
    inside that piece (the space of "partitioned table") are kept; the piece is trimmed.
  */
  function Trim(s: string): (r: string)
    ensures IsTrimmed(r)
    ensures |r| <= |s|
  {
    var lo := LeadingBlanks(s);
    if lo == |s| then []
    else
      var hi := |s| - TrailingBlanks(s);
      assert lo < hi;
      s[lo..hi]
  }

  /**
    `Trim` keeps exactly the piece `s[lo..hi]` when everything outside it is blank and
    the piece is empty or neither starts nor ends with a blank.
  */
  lemma TrimSlice(s: string, lo: nat, hi: nat)
    requires lo <= hi <= |s|
    requires forall i :: 0 <= i < lo ==> IsBlank(s[i])
    requires forall i :: hi <= i < |s| ==> IsBlank(s[i])
    requires lo < hi ==> !IsBlank(s[lo]) && !IsBlank(s[hi - 1])
    ensures Trim(s) == s[lo..hi]
  {
    var n := LeadingBlanks(s);
    if lo == hi {
      assert forall i :: 0 <= i < |s| ==> IsBlank(s[i]) by {
        forall i | 0 <= i < |s| ensures IsBlank(s[i]) {
          if i >= lo { assert hi <= i; }
        }
      }
      assert n == |s|;
    } else {
      assert n == lo;
      assert TrailingBlanks(s) == |s| - hi;
    }
  }

  /** `Trim` keeps exactly the trimmed middle of a string padded with blanks. */
  lemma TrimPadded(p: string, m: string, q: string)
    requires AllBlank(p) && AllBlank(q) && IsTrimmed(m)
    ensures Trim(p + m + q) == m
  {
    var s := p + m + q;
    assert forall i :: 0 <= i < |p| ==> s[i] == p[i];
    assert forall i :: |p| + |m| <= i < |s| ==> s[i] == q[i - |p| - |m|];
    assert m != [] ==> s[|p|] == m[0] && s[|p| + |m| - 1] == m[|m| - 1];
    TrimSlice(s, |p|, |p| + |m|);
    assert s[|p|..|p| + |m|] == m;
  }

  /** A trimmed string is left as it is. */
  lemma TrimTrimmed(s: string)
    requires IsTrimmed(s)
    ensures Trim(s) == s
  {
    TrimSlice(s, 0, |s|);
  }

  /** The blanks a string starts with. */
  lemma LeadingBlanksAreBlank(s: string)
    ensures AllBlank(s[..LeadingBlanks(s)])
  {
    var n := LeadingBlanks(s);
    assert forall i :: 0 <= i < n ==> s[..n][i] == s[i];
  }

  /** The blanks a string ends with. */
  lemma TrailingBlanksAreBlank(s: string)
    ensures AllBlank(s[|s| - TrailingBlanks(s)..])
  {
    var k := |s| - TrailingBlanks(s);
    forall i | 0 <= i < |s| - k ensures IsBlank(s[k..][i]) {
      assert s[k..][i] == s[k + i];
    }
  }

  /** A string that is not all blank is its trim between the blanks it starts and ends with. */
  lemma TrimIsInterior(s: string)
    requires !AllBlank(s)
    ensures s == s[..LeadingBlanks(s)] + Trim(s) + s[|s| - TrailingBlanks(s)..]
  {
    assert LeadingBlanks(s) < |s|;
    CutInThree(s, LeadingBlanks(s), |s| - TrailingBlanks(s), Trim(s));
  }

  /** `s` is its three pieces cut at `lo` and `hi` (the middle one `m`), put back together. */
  lemma CutInThree(s: string, lo: nat, hi: nat, m: string)
    requires lo <= hi <= |s| && m == s[lo..hi]
    ensures s == s[..lo] + m + s[hi..]
  {
    assert s[lo..] == s[lo..hi] + s[hi..];
    assert s == s[..lo] + s[lo..];
  }

  /** A character `s` does not hold is not in its trim either. */
  lemma TrimKeeps(s: string, c: char)
    requires c !in s
    ensures c !in Trim(s)
  {
    var lo := LeadingBlanks(s);
    if lo < |s| {
      var hi := |s| - TrailingBlanks(s);
      forall i | 0 <= i < hi - lo ensures Trim(s)[i] != c {
        assert Trim(s)[i] == s[lo + i];
      }
    }
  }

  /** A string trims to nothing exactly when it is all blank. */
  lemma TrimEmptyIffBlank(s: string)
    ensures Trim(s) == "" <==> AllBlank(s)
  {
    if AllBlank(s) {
      TrimSlice(s, 0, 0);
    }
  }

  /** Blanks followed by blanks are blanks. */
  lemma AllBlankConcat(a: string, b: string)
    requires AllBlank(a) && AllBlank(b)
    ensures AllBlank(a + b)
  {
    assert forall i :: |a| <= i < |a + b| ==> (a + b)[i] == b[i - |a|];
  }

  /** Blanks added at either end of `s` do not change what `Trim` keeps. */
  lemma TrimIgnoresPadding(pre: string, s: string, post: string)
    requires AllBlank(pre) && AllBlank(post)
    ensures Trim(pre + s + post) == Trim(s)
  {
    if AllBlank(s) {
      AllBlankConcat(pre, s);
      AllBlankConcat(pre + s, post);
      TrimEmptyIffBlank(s);
      TrimEmptyIffBlank(pre + s + post);
    } else {
      TrimIsInterior(s);
      LeadingBlanksAreBlank(s);
      TrailingBlanksAreBlank(s);
      var p, q := s[..LeadingBlanks(s)], s[|s| - TrailingBlanks(s)..];
      PadInterior(pre, p, Trim(s), q, post);
    }
  }

  /** Padding a padded trimmed string with more blanks still trims to it. */
  lemma PadInterior(pre: string, p: string, m: string, q: string, post: string)
    requires AllBlank(pre) && AllBlank(p) && AllBlank(q) && AllBlank(post) && IsTrimmed(m)
    ensures Trim(pre + (p + m + q) + post) == m
  {
    AllBlankConcat(pre, p);
    AllBlankConcat(q, post);
    assert pre + (p + m + q) + post == (pre + p) + m + (q + post);
    TrimPadded(pre + p, m, q + post);
  }

  /** Upper case of an ASCII letter; every other character is its own upper case. */
  function UpperChar(c: char): char
  {
    if 'a' <= c <= 'z' then (c as int - 32) as char else c
  }

  /** `equalsIgnoreCase`, restricted to ASCII case folding. */
  predicate EqualsIgnoreCase(a: string, b: string)
  {
    |a| == |b| && forall i :: 0 <= i < |a| ==> UpperChar(a[i]) == UpperChar(b[i])
  }

  /** Texts that equal each other ignoring case, put one after the other, still do. */
  lemma EqualsIgnoreCaseConcat(a: string, b: string, c: string, d: string)
    requires EqualsIgnoreCase(a, c) && EqualsIgnoreCase(b, d)
    ensures EqualsIgnoreCase(a + b, c + d)
  {
    forall i | |a| <= i < |a + b| ensures UpperChar((a + b)[i]) == UpperChar((c + d)[i]) {
      assert (a + b)[i] == b[i - |a|] && (c + d)[i] == d[i - |a|];
    }
  }

  /** The items of `items` with `sep` between each two: the inverse of `Split`. */
  function Join(items: seq<string>, sep: char): string
    requires |items| >= 1
  {
    if |items| == 1 then items[0] else items[0] + [sep] + Join(items[1..], sep)
  }

  /** The position of the first `c` in `s`, or `|s|` when there is none. */
  function IndexOf(s: string, c: char): (i: nat)
    ensures i <= |s|
    ensures i < |s| ==> s[i] == c
    ensures forall j :: 0 <= j < i ==> s[j] != c
  {
    if |s| == 0 then 0
    else if s[0] == c then 0
    else
      var k := IndexOf(s[1..], c);
      assert forall j :: 1 <= j < k + 1 ==> s[j] == s[1..][j - 1];
      k + 1
  }

  /**
    `s` cut at every `sep` (the `-1` limit of `String.split`: empty items are kept,
    trailing ones included): the text before the first `sep`, then the cuts of the rest.
  */
  function Split(s: string, sep: char): (items: seq<string>)
    ensures |items| >= 1
    ensures forall i :: 0 <= i < |items| ==> sep !in items[i]
    decreases |s|
  {
    var i := IndexOf(s, sep);
    if i == |s| then [s]
    else
      var rest := Split(s[i + 1..], sep);
      assert sep !in s[..i];
      assert ([s[..i]] + rest)[1..] == rest;
      [s[..i]] + rest
  }

  /** Joining the items of a split at the same `sep` gives the string back. */
  lemma {:induction false} JoinSplit(s: string, sep: char)
    ensures Join(Split(s, sep), sep) == s
    decreases |s|
  {
    var i := IndexOf(s, sep);
    if i < |s| {
      var rest := Split(s[i + 1..], sep);
      JoinSplit(s[i + 1..], sep);
      assert ([s[..i]] + rest)[1..] == rest;
      assert s == s[..i] + [sep] + s[i + 1..];
    }
  }

  /** Splitting a join of `sep`-free items gives the items back. */
  lemma {:induction false} SplitJoin(items: seq<string>, sep: char)
    requires |items| >= 1
    requires forall i :: 0 <= i < |items| ==> sep !in items[i]
    ensures Split(Join(items, sep), sep) == items
    decreases |items|
  {
    if |items| == 1 {
      assert IndexOf(items[0], sep) == |items[0]|;
    } else {
      SplitAfterFirst(items[0], Join(items[1..], sep), sep);
      SplitJoin(items[1..], sep);
      assert items == [items[0]] + items[1..];
    }
  }

  /** The first item of `x + [sep] + rest`, for `sep`-free `x`, is `x`; the others are the items of `rest`. */
  lemma SplitAfterFirst(x: string, rest: string, sep: char)
    requires sep !in x
    ensures Split(x + [sep] + rest, sep) == [x] + Split(rest, sep)
  {
    var s := x + [sep] + rest;
    assert s[|x|] == sep;
    assert forall j :: 0 <= j < |x| ==> s[j] == x[j];
    assert IndexOf(s, sep) == |x|;
    assert s[..|x|] == x;
    assert s[|x| + 1..] == rest;
  }

  /** Two or more items joined hold `sep` right after the first. */
  lemma JoinHasSep(items: seq<string>, sep: char)
    requires |items| >= 2
    ensures |items[0]| < |Join(items, sep)| && Join(items, sep)[|items[0]|] == sep
  {
  }
}
