/**
 * The Python `str` methods the modelled code relies on, written over `seq<char>`:
 * prefix and suffix tests, substring search, `split`, `join`, `replace`,
 * `rsplit(sep, 1)`, `strip()`, `lower()` and `upper()`.
 */
module Text {

  predicate StartsWith(s: string, p: string) {
    |p| <= |s| && s[..|p|] == p
  }

  predicate EndsWith(s: string, p: string) {
    |p| <= |s| && s[|s| - |p|..] == p
  }

  lemma StartsWithConcat(p: string, q: string)
    ensures StartsWith(p + q, p)
  {
    assert (p + q)[..|p|] == p;
  }

  /** `p` occurs in `s` at index `i`. */
  predicate OccursAt(s: string, p: string, i: int) {
    0 <= i <= |s| - |p| && s[i..i + |p|] == p
  }

  /** `p in s` for two strings. */
  predicate IsSubstring(p: string, s: string) {
    exists i :: 0 <= i <= |s| - |p| && OccursAt(s, p, i)
  }

  lemma OccursInside(a: string, p: string, b: string)
    ensures IsSubstring(p, a + p + b)
  {
    assert OccursAt(a + p + b, p, |a|) by {
      assert (a + p + b)[|a|..|a| + |p|] == p;
    }
  }

  /** `s.split(sep)` with a non-empty separator: the pieces between non-overlapping occurrences, scanned left to right. */
  function Split(s: string, sep: string): (parts: seq<string>)
    requires sep != []
    ensures |parts| >= 1
    decreases |s|
  {
    if |s| < |sep| then [s]
    else if s[..|sep|] == sep then [""] + Split(s[|sep|..], sep)
    else
      var rest := Split(s[1..], sep);
      [[s[0]] + rest[0]] + rest[1..]
  }

  /** `sep.join(parts)`. */
  function Join(parts: seq<string>, sep: string): string
    decreases |parts|
  {
    if parts == [] then ""
    else if |parts| == 1 then parts[0]
    else parts[0] + sep + Join(parts[1..], sep)
  }

  /** `s.replace(pat, rep)` with a non-empty pattern: every non-overlapping occurrence, left to right. */
  function ReplaceAll(s: string, pat: string, rep: string): string
    requires pat != []
    decreases |s|
  {
    if |s| < |pat| then s
    else if s[..|pat|] == pat then rep + ReplaceAll(s[|pat|..], pat, rep)
    else [s[0]] + ReplaceAll(s[1..], pat, rep)
  }

  lemma JoinConsHead(c: char, parts: seq<string>, sep: string)
    requires |parts| >= 1
    ensures Join([[c] + parts[0]] + parts[1..], sep) == [c] + Join(parts, sep)
  {
    var ps := [[c] + parts[0]] + parts[1..];
    if |parts| > 1 {
      assert ps[1..] == parts[1..];
    }
  }

  /** Python documents `s.replace(old, new)` as `new.join(s.split(old))`; the two definitions agree on every input. */
  lemma {:induction false} ReplaceIsSplitJoin(s: string, pat: string, rep: string)
    requires pat != []
    ensures ReplaceAll(s, pat, rep) == Join(Split(s, pat), rep)
    decreases |s|
  {
    if |s| < |pat| {
    } else if s[..|pat|] == pat {
      ReplaceIsSplitJoin(s[|pat|..], pat, rep);
      var rest := Split(s[|pat|..], pat);
      assert Split(s, pat) == [""] + rest;
      assert ([""] + rest)[1..] == rest;
    } else {
      ReplaceIsSplitJoin(s[1..], pat, rep);
      JoinConsHead(s[0], Split(s[1..], pat), rep);
    }
  }

  /** A string without the pattern is returned unchanged by `replace`. */
  lemma {:induction false} ReplaceAbsent(s: string, pat: string, rep: string)
    requires pat != []
    requires !IsSubstring(pat, s)
    ensures ReplaceAll(s, pat, rep) == s
    decreases |s|
  {
    if |s| >= |pat| {
      assert !OccursAt(s, pat, 0);
      assert s[0..0 + |pat|] == s[..|pat|];
      forall i | 0 <= i <= |s| - 1 - |pat|
        ensures !OccursAt(s[1..], pat, i)
      {
        assert s[1..][i..i + |pat|] == s[i + 1..i + 1 + |pat|];
        assert !OccursAt(s, pat, i + 1);
      }
      ReplaceAbsent(s[1..], pat, rep);
    }
  }

  /** The element `xs[-1]` of a non-empty Python list. */
  function Last<T>(xs: seq<T>): T
    requires |xs| >= 1
  {
    xs[|xs| - 1]
  }

  /** Index of the last `c` in `s`, if any. */
  function FindLast(s: string, c: char): (r: int)
    ensures -1 <= r < |s|
    ensures r >= 0 ==> s[r] == c && forall k :: r < k < |s| ==> s[k] != c
    ensures r == -1 ==> forall k :: 0 <= k < |s| ==> s[k] != c
  {
    if s == [] then -1
    else if s[|s| - 1] == c then |s| - 1
    else FindLast(s[..|s| - 1], c)
  }

  /** Index of the first `c` in `s`, if any. */
  function FindFirst(s: string, c: char): (r: int)
    ensures -1 <= r < |s|
    ensures r >= 0 ==> s[r] == c && forall k :: 0 <= k < r ==> s[k] != c
    ensures r == -1 ==> forall k :: 0 <= k < |s| ==> s[k] != c
  {
    if s == [] then -1
    else if s[0] == c then 0
    else var r := FindFirst(s[1..], c); if r == -1 then -1 else r + 1
  }

  /** The first `c` in `a + [c] + b` is the one after `a` when `a` holds none. */
  lemma {:induction false} FindFirstAfter(a: string, c: char, b: string)
    requires forall k :: 0 <= k < |a| ==> a[k] != c
    ensures FindFirst(a + [c] + b, c) == |a|
    decreases |a|
  {
    if a != [] {
      FindFirstAfter(a[1..], c, b);
      assert (a + [c] + b)[1..] == a[1..] + [c] + b;
    }
  }

  /** `c in s` for a one-character `c` holds exactly when `FindFirst` finds it. */
  lemma CharSubstring(c: char, s: string)
    ensures IsSubstring([c], s) <==> FindFirst(s, c) >= 0
  {
    if IsSubstring([c], s) {
      var i :| 0 <= i <= |s| - 1 && OccursAt(s, [c], i);
      assert s[i] == s[i..i + 1][0];
    }
    if FindFirst(s, c) >= 0 {
      var i := FindFirst(s, c);
      assert s[i..i + 1] == [c];
      assert OccursAt(s, [c], i);
    }
  }

  /** `s.rsplit('/', 1)[0]`: everything before the last `/`, or all of `s` when there is none. */
  function RSplitHead(s: string, c: char): string
  {
    var i := FindLast(s, c);
    if i < 0 then s else s[..i]
  }

  /** `s.split(c)[-1]`: everything after the last `c`. */
  function AfterLast(s: string, c: char): string
  {
    var i := FindLast(s, c);
    if i < 0 then s else s[i + 1..]
  }

  lemma {:induction false} SplitLastIsAfterLast(s: string, c: char)
    ensures Last(Split(s, [c])) == AfterLast(s, c)
    decreases |s|
  {
    if |s| > 0 {
      SplitLastIsAfterLast(s[1..], c);
      if s[..1] == [c] {
        SplitLastAfterSep(s, c);
      } else {
        SplitLastAfterChar(s, c);
      }
    }
  }

  /** The step of `SplitLastIsAfterLast` for a string that starts with the separator. */
  lemma SplitLastAfterSep(s: string, c: char)
    requires |s| > 0 && s[..1] == [c]
    requires Last(Split(s[1..], [c])) == AfterLast(s[1..], c)
    ensures Last(Split(s, [c])) == AfterLast(s, c)
  {
    var rest := Split(s[1..], [c]);
    assert Split(s, [c]) == [""] + rest;
    assert Last([""] + rest) == Last(rest);
    AfterLastShift(s, c);
  }

  /** The step of `SplitLastIsAfterLast` for a string that starts with another character. */
  lemma SplitLastAfterChar(s: string, c: char)
    requires |s| > 0 && s[..1] != [c]
    requires Last(Split(s[1..], [c])) == AfterLast(s[1..], c)
    ensures Last(Split(s, [c])) == AfterLast(s, c)
  {
    var rest := Split(s[1..], [c]);
    SplitGlues(s, c);
    GluedLast(s[0], rest);
    AfterLastShift(s, c);
    if |rest| == 1 {
      SplitOneNoSep(s[1..], c);
      assert [s[0]] + s[1..] == s;
    } else {
      SplitManyHasSep(s[1..], c);
    }
  }

  /** A string that does not start with the separator glues its first character to the first piece of the rest. */
  lemma SplitGlues(s: string, c: char)
    requires |s| > 0 && s[..1] != [c]
    ensures s[0] != c
    ensures Split(s, [c]) == [[s[0]] + Split(s[1..], [c])[0]] + Split(s[1..], [c])[1..]
  {
    assert s[..1] == [s[0]];
  }

  /** The last piece after gluing a character to the first of several pieces is unchanged; of a single piece, it is the glued piece. */
  lemma GluedLast(x: char, rest: seq<string>)
    requires |rest| >= 1
    ensures |rest| == 1 ==> Last([[x] + rest[0]] + rest[1..]) == [x] + rest[0]
    ensures |rest| >= 2 ==> Last([[x] + rest[0]] + rest[1..]) == Last(rest)
  {
  }

  /** What follows the last `c` of `s`, read from `s[1..]`. */
  lemma AfterLastShift(s: string, c: char)
    requires |s| >= 1
    ensures FindLast(s[1..], c) >= 0 ==> AfterLast(s, c) == AfterLast(s[1..], c)
    ensures FindLast(s[1..], c) < 0 && s[0] == c ==> AfterLast(s, c) == s[1..]
    ensures FindLast(s[1..], c) < 0 && s[0] != c ==> AfterLast(s, c) == s
  {
    LastIndexShift(s, c);
    var j := FindLast(s[1..], c);
    if j >= 0 {
      assert s[1..][j + 1..] == s[j + 2..];
    }
  }

  /** `FindLast` on `s` is `FindLast` on `s[1..]` shifted by one, unless only `s[0]` is `c`. */
  lemma LastIndexShift(s: string, c: char)
    requires |s| >= 1
    ensures FindLast(s[1..], c) >= 0 ==> FindLast(s, c) == FindLast(s[1..], c) + 1
    ensures FindLast(s[1..], c) < 0 ==> FindLast(s, c) == (if s[0] == c then 0 else -1)
  {
    var i, j := FindLast(s, c), FindLast(s[1..], c);
    if j >= 0 {
      assert s[j + 1] == c;
    } else if s[0] == c {
      assert forall k :: 1 <= k < |s| ==> s[1..][k - 1] == s[k];
    } else {
      assert forall k :: 1 <= k < |s| ==> s[1..][k - 1] == s[k];
    }
  }

  lemma {:induction false} SplitOneNoSep(s: string, c: char)
    requires |Split(s, [c])| == 1
    ensures FindLast(s, c) == -1
    decreases |s|
  {
    if |s| == 0 {
    } else if s[..1] == [c] {
      assert false;
    } else {
      SplitOneNoSep(s[1..], c);
      LastIndexShift(s, c);
    }
  }

  lemma {:induction false} SplitManyHasSep(s: string, c: char)
    requires |Split(s, [c])| >= 2
    ensures FindLast(s, c) >= 0
    decreases |s|
  {
    if |s| == 0 {
    } else if s[..1] == [c] {
      assert s[0] == c;
    } else {
      SplitManyHasSep(s[1..], c);
      LastIndexShift(s, c);
    }
  }

  /** When `s` holds a `c`, cutting at its last one and gluing back gives `s`. */
  lemma RSplitRejoins(s: string, c: char)
    requires FindLast(s, c) >= 0
    ensures RSplitHead(s, c) + [c] + AfterLast(s, c) == s
    ensures forall k :: 0 <= k < |AfterLast(s, c)| ==> AfterLast(s, c)[k] != c
  {
    var i := FindLast(s, c);
    assert s == s[..i] + [s[i]] + s[i + 1..];
    forall k | 0 <= k < |AfterLast(s, c)| ensures AfterLast(s, c)[k] != c {
      assert AfterLast(s, c)[k] == s[i + 1 + k];
    }
  }

  /** Joining the pieces of a split with the same one-character separator gives the string back. */
  lemma {:induction false} JoinSplit(s: string, c: char)
    ensures Join(Split(s, [c]), [c]) == s
    decreases |s|
  {
    if |s| == 0 {
    } else if s[..1] == [c] {
      JoinSplit(s[1..], c);
      var rest := Split(s[1..], [c]);
      assert Split(s, [c]) == [""] + rest;
      assert ([""] + rest)[1..] == rest;
      assert s == [c] + s[1..];
    } else {
      JoinSplit(s[1..], c);
      var rest := Split(s[1..], [c]);
      JoinConsHead(s[0], rest, [c]);
      assert s == [s[0]] + s[1..];
    }
  }

  /** Joining a concatenation puts one separator at the seam. */
  lemma {:induction false} JoinAppend(a: seq<string>, b: seq<string>, sep: string)
    requires |a| >= 1 && |b| >= 1
    ensures Join(a + b, sep) == Join(a, sep) + sep + Join(b, sep)
    decreases |a|
  {
    if |a| == 1 {
      assert (a + b)[1..] == b;
    } else {
      JoinAppend(a[1..], b, sep);
      assert (a + b)[1..] == a[1..] + b;
    }
  }

  /** A split at one character peels off the text before its first occurrence. */
  lemma {:induction false} SplitAtFirst(a: string, b: string, c: char)
    requires forall k :: 0 <= k < |a| ==> a[k] != c
    ensures Split(a + [c] + b, [c]) == [a] + Split(b, [c])
    decreases |a|
  {
    var s := a + [c] + b;
    if |a| == 0 {
      assert s[..1] == [c];
      assert s[1..] == b;
    } else {
      assert s[..1] != [c] by { assert s[0] == a[0]; }
      SplitAtFirst(a[1..], b, c);
      assert s[1..] == a[1..] + [c] + b;
      assert [s[0]] + a[1..] == a;
    }
  }

  /** Splitting at a separator between two strings splits each side on its own. */
  lemma {:induction false} SplitConcat(a: string, b: string, c: char)
    ensures Split(a + [c] + b, [c]) == Split(a, [c]) + Split(b, [c])
    decreases |a|
  {
    if |a| == 0 {
      SplitAtFirst(a, b, c);
      assert Split(a, [c]) == [a];
    } else {
      SplitConcat(a[1..], b, c);
      SplitConcatStep(a, b, c);
    }
  }

  /** The step of `SplitConcat`: peeling the first character of `a`. */
  lemma SplitConcatStep(a: string, b: string, c: char)
    requires |a| > 0
    requires Split(a[1..] + [c] + b, [c]) == Split(a[1..], [c]) + Split(b, [c])
    ensures Split(a + [c] + b, [c]) == Split(a, [c]) + Split(b, [c])
  {
    var s := a + [c] + b;
    assert s[1..] == a[1..] + [c] + b;
    assert s[..1] == a[..1];
    if a[..1] == [c] {
      SeparatedBoth(s, a, Split(b, [c]), c);
    } else {
      GluedBoth(s, a, Split(b, [c]), c);
    }
  }

  /** Two strings that start with the separator, where the rest of the first splits as the rest of the second followed by `tail`. */
  lemma SeparatedBoth(s: string, a: string, tail: seq<string>, c: char)
    requires |s| > 0 && |a| > 0 && s[..1] == [c] && a[..1] == [c]
    requires Split(s[1..], [c]) == Split(a[1..], [c]) + tail
    ensures Split(s, [c]) == Split(a, [c]) + tail
  {
    SplitSepFirst(s, c);
    SplitSepFirst(a, c);
  }

  /** Two strings that start with the same non-separator character, where the rest of the first splits as the rest of the second followed by `tail`. */
  lemma GluedBoth(s: string, a: string, tail: seq<string>, c: char)
    requires |s| > 0 && |a| > 0 && s[..1] == a[..1] && a[..1] != [c]
    requires Split(s[1..], [c]) == Split(a[1..], [c]) + tail
    ensures Split(s, [c]) == Split(a, [c]) + tail
  {
    SplitGlues(s, c);
    SplitGlues(a, c);
    assert s[0] == a[0] by { assert s[0] == s[..1][0]; }
    GlueAppend(a[0], Split(a[1..], [c]), tail);
  }

  lemma SplitSepFirst(s: string, c: char)
    requires |s| > 0 && s[..1] == [c]
    ensures Split(s, [c]) == [""] + Split(s[1..], [c])
  {
  }

  lemma GlueAppend(x: char, front: seq<string>, tail: seq<string>)
    requires |front| >= 1
    ensures [[x] + (front + tail)[0]] + (front + tail)[1..] == ([[x] + front[0]] + front[1..]) + tail
  {
    assert (front + tail)[1..] == front[1..] + tail;
  }

  /** A string that is empty or starts with the separator has an empty first piece. */
  lemma LeadingPiece(s: string, c: char)
    ensures s == [] || s[0] == c ==> Split(s, [c])[0] == []
  {
    if s != [] && s[0] == c {
      assert s[..1] == [c];
    }
  }

  /** A string without the separator is a single piece. */
  lemma {:induction false} SplitNoSep(s: string, c: char)
    requires forall k :: 0 <= k < |s| ==> s[k] != c
    ensures Split(s, [c]) == [s]
    decreases |s|
  {
    if |s| >= 1 {
      assert s[..1] != [c] by { assert s[0] != c; }
      SplitNoSep(s[1..], c);
      assert [s[0]] + s[1..] == s;
    }
  }

  /**
   * The characters Python's `str.isspace` and argument-less `str.strip` treat
   * as whitespace: tab to carriage return, the four information separators,
   * the space, and the Unicode spaces and line and paragraph separators.
   */
  predicate IsSpace(c: char) {
    ('\t' <= c <= '\r') || ('\U{1C}' <= c <= ' ') || c == '\U{85}' || c == '\U{A0}' || c == '\U{1680}'
    || ('\U{2000}' <= c <= '\U{200A}') || c == '\U{2028}' || c == '\U{2029}' || c == '\U{202F}'
    || c == '\U{205F}' || c == '\U{3000}'
  }

  function StripLeft(s: string): string
    decreases |s|
  {
    if s != [] && IsSpace(s[0]) then StripLeft(s[1..]) else s
  }

  function StripRight(s: string): string
    decreases |s|
  {
    if s != [] && IsSpace(s[|s| - 1]) then StripRight(s[..|s| - 1]) else s
  }

  /** `s.strip()`: leading and trailing whitespace removed. */
  function Strip(s: string): string {
    StripRight(StripLeft(s))
  }

  predicate AllSpace(s: string) {
    forall k :: 0 <= k < |s| ==> IsSpace(s[k])
  }

  lemma {:induction false} StripLeftShape(s: string)
    ensures exists pre :: AllSpace(pre) && s == pre + StripLeft(s)
    ensures StripLeft(s) != [] ==> !IsSpace(StripLeft(s)[0])
    decreases |s|
  {
    if s != [] && IsSpace(s[0]) {
      StripLeftShape(s[1..]);
      var pre :| AllSpace(pre) && s[1..] == pre + StripLeft(s[1..]);
      assert AllSpace([s[0]] + pre);
      assert s == ([s[0]] + pre) + StripLeft(s);
    } else {
      assert AllSpace([]) && s == [] + s;
    }
  }

  lemma {:induction false} StripRightShape(s: string)
    ensures exists post :: AllSpace(post) && s == StripRight(s) + post
    ensures StripRight(s) != [] ==> !IsSpace(StripRight(s)[|StripRight(s)| - 1])
    decreases |s|
  {
    if s != [] && IsSpace(s[|s| - 1]) {
      StripRightShape(s[..|s| - 1]);
      var post :| AllSpace(post) && s[..|s| - 1] == StripRight(s[..|s| - 1]) + post;
      assert AllSpace(post + [s[|s| - 1]]);
      assert s == StripRight(s) + (post + [s[|s| - 1]]);
    } else {
      assert AllSpace([]) && s == s + [];
    }
  }

  lemma StripLeftKeepsRightEnd(s: string)
    requires s != [] && !IsSpace(s[|s| - 1])
    ensures StripLeft(s) != [] && !IsSpace(StripLeft(s)[|StripLeft(s)| - 1])
  {
    StripLeftShape(s);
    var pre :| AllSpace(pre) && s == pre + StripLeft(s);
    if StripLeft(s) == [] {
      assert false;
    } else {
      assert s[|s| - 1] == StripLeft(s)[|StripLeft(s)| - 1];
    }
  }

  /** `strip()` removes only whitespace, from both ends, and leaves none at either end. */
  lemma StripShape(s: string)
    ensures exists pre, post :: AllSpace(pre) && AllSpace(post) && s == pre + Strip(s) + post
    ensures Strip(s) != [] ==> !IsSpace(Strip(s)[0]) && !IsSpace(Strip(s)[|Strip(s)| - 1])
  {
    StripLeftShape(s);
    var pre :| AllSpace(pre) && s == pre + StripLeft(s);
    StripRightShape(StripLeft(s));
    var post :| AllSpace(post) && StripLeft(s) == Strip(s) + post;
    assert s == pre + Strip(s) + post;
    if Strip(s) != [] {
      assert Strip(s)[0] == StripLeft(s)[0];
    }
  }

  lemma {:induction false} StripRightIdem(s: string)
    requires s == [] || !IsSpace(s[|s| - 1])
    ensures StripRight(s) == s
  {
  }

  lemma {:induction false} StripLeftIdem(s: string)
    requires s == [] || !IsSpace(s[0])
    ensures StripLeft(s) == s
  {
  }

  /** `strip()` is idempotent. */
  lemma StripIdempotent(s: string)
    ensures Strip(Strip(s)) == Strip(s)
  {
    StripShape(s);
    var t := Strip(s);
    StripLeftIdem(t);
    StripRightIdem(t);
  }

  /** `c.lower()` for ASCII letters; every other character is kept. */
  function LowerChar(c: char): char {
    if 'A' <= c <= 'Z' then (c as int + 32) as char else c
  }

  /** `s.lower()`. */
  function Lower(s: string): (r: string)
    ensures |r| == |s|
    ensures forall k :: 0 <= k < |s| ==> r[k] == LowerChar(s[k])
  {
    seq(|s|, k requires 0 <= k < |s| => LowerChar(s[k]))
  }
  function UpperChar(c: char): char {
    if 'a' <= c <= 'z' then (c as int - 32) as char else c
  }

  /** `s.upper()`. */
  function Upper(s: string): (r: string)
    ensures |r| == |s|
    ensures forall k :: 0 <= k < |s| ==> r[k] == UpperChar(s[k])
  {
    seq(|s|, k requires 0 <= k < |s| => UpperChar(s[k]))
  }

  /** Lower-casing leaves a string without upper-case ASCII letters unchanged. */
  lemma LowerKeeps(s: string)
    requires forall k :: 0 <= k < |s| ==> !('A' <= s[k] <= 'Z')
    ensures Lower(s) == s
  {
  }

}
