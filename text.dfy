/** The Python `str` operations the proxy relies on, on `seq<char>`. */
module Text {
  import opened Wrappers

  /** The characters Python's `str.isspace()` accepts, which `strip()` and `rstrip()` remove. */
  predicate IsSpace(c: char) {
    || '\U{9}' <= c <= '\U{d}'
    || '\U{1c}' <= c <= '\U{20}'
    || c == '\U{85}' || c == '\U{a0}' || c == '\U{1680}'
    || '\U{2000}' <= c <= '\U{200a}'
    || c == '\U{2028}' || c == '\U{2029}' || c == '\U{202f}' || c == '\U{205f}' || c == '\U{3000}'
  }

  predicate StartsWith(s: string, prefix: string) {
    |prefix| <= |s| && s[..|prefix|] == prefix
  }

  predicate EndsWith(s: string, suffix: string) {
    |suffix| <= |s| && s[|s| - |suffix|..] == suffix
  }

  /** A string that ends with a suffix ends with the suffix's last character. */
  lemma LastOfEnding(s: string, suffix: string)
    requires suffix != []
    ensures EndsWith(s, suffix) ==> s[|s| - 1] == suffix[|suffix| - 1]
  {
    if EndsWith(s, suffix) {
      assert s[|s| - 1] == s[|s| - |suffix|..][|suffix| - 1];
    }
  }

  /** `sub` occurs in `s` starting at index `i`. */
  predicate OccursAt(s: string, sub: string, i: nat) {
    i + |sub| <= |s| && s[i..i + |sub|] == sub
  }

  /** `s.rstrip()`: the longest prefix of `s` that does not end in whitespace. */
  function RStrip(s: string): (r: string)
    ensures |r| <= |s| && r == s[..|r|]
    ensures r == [] || !IsSpace(r[|r| - 1])
    ensures forall i :: |r| <= i < |s| ==> IsSpace(s[i])
    decreases |s|
  {
    if s != [] && IsSpace(s[|s| - 1]) then RStrip(s[..|s| - 1]) else s
  }

  /** `s.lstrip()`: the longest suffix of `s` that does not start with whitespace. */
  function LStrip(s: string): (r: string)
    ensures |r| <= |s| && r == s[|s| - |r|..]
    ensures r == [] || !IsSpace(r[0])
    ensures forall i :: 0 <= i < |s| - |r| ==> IsSpace(s[i])
    decreases |s|
  {
    if s != [] && IsSpace(s[0]) then LStrip(s[1..]) else s
  }

  /** `s.strip()`: `s` without its leading and trailing whitespace. */
  function Strip(s: string): (r: string)
    ensures r == [] || (!IsSpace(r[0]) && !IsSpace(r[|r| - 1]))
  {
    var t := RStrip(s);
    var r := LStrip(t);
    assert r != [] ==> r[|r| - 1] == t[|t| - 1];
    r
  }

  /**
   * The stripped text is a slice of `s` with only whitespace around it, so `strip`
   * removes exactly the leading and the trailing whitespace.
   */
  lemma StripSlice(s: string)
    ensures exists i :: StrippedAt(s, Strip(s), i)
  {
    var t := RStrip(s);
    assert Strip(s) == LStrip(t);
    SliceOfPrefix(s, t, LStrip(t));
  }

  /** A suffix `r` of a prefix `t` of `s`, with only whitespace around each. */
  lemma SliceOfPrefix(s: string, t: string, r: string)
    requires |t| <= |s| && t == s[..|t|] && forall k :: |t| <= k < |s| ==> IsSpace(s[k])
    requires |r| <= |t| && r == t[|t| - |r|..] && forall k :: 0 <= k < |t| - |r| ==> IsSpace(t[k])
    ensures StrippedAt(s, r, |t| - |r|)
  {
    var i := |t| - |r|;
    assert s[i..i + |r|] == t[i..];
  }

  /** `r` is `s[i..i + |r|]`, and every character of `s` outside that slice is whitespace. */
  predicate StrippedAt(s: string, r: string, i: nat) {
    && i + |r| <= |s| && r == s[i..i + |r|]
    && (forall k :: 0 <= k < i ==> IsSpace(s[k]))
    && (forall k :: i + |r| <= k < |s| ==> IsSpace(s[k]))
  }

  /** Stripping only removes characters. */
  lemma StripChars(s: string)
    ensures forall c :: c in Strip(s) ==> c in s
  {
    var t := RStrip(s);
    assert forall c :: c in LStrip(t) ==> c in t;
  }

  /** `s.lower()` on ASCII letters. */
  function Lower(s: string): (r: string)
    ensures |r| == |s|
  {
    seq(|s|, i requires 0 <= i < |s| => if 'A' <= s[i] <= 'Z' then (s[i] - 'A' + 'a') as char else s[i])
  }

  /** The first index of `c` in `s` (`s.find(c)`, with `None` for -1). */
  function Find(s: string, c: char): (r: Option<nat>)
    ensures r.None? <==> c !in s
    ensures r.Some? ==> r.value < |s| && s[r.value] == c && c !in s[..r.value]
    decreases |s|
  {
    if s == [] then None
    else if s[0] == c then Some(0)
    else match Find(s[1..], c)
      case None => None
      case Some(i) =>
        assert s[1..][..i] == s[1..i + 1];
        assert s[..i + 1] == [s[0]] + s[1..i + 1];
        Some(i + 1)
  }

  /** The last index of `c` in `s` (`s.rfind(c)`). */
  function RFind(s: string, c: char): (r: Option<nat>)
    ensures r.None? <==> c !in s
    ensures r.Some? ==> r.value < |s| && s[r.value] == c && c !in s[r.value + 1..]
    decreases |s|
  {
    if s == [] then None
    else if s[|s| - 1] == c then Some(|s| - 1)
    else
      var init := s[..|s| - 1];
      match RFind(init, c)
      case None => assert s == init + [s[|s| - 1]]; None
      case Some(i) =>
        assert s[i + 1..] == init[i + 1..] + [s[|s| - 1]];
        Some(i)
  }

  lemma OccursShift(s: string, sub: string, j: nat)
    requires s != [] && j >= 1
    ensures OccursAt(s, sub, j) <==> OccursAt(s[1..], sub, j - 1)
  {
    if j + |sub| <= |s| {
      var a, b := s[j..j + |sub|], s[1..][j - 1..j - 1 + |sub|];
      assert forall k :: 0 <= k < |sub| ==> a[k] == b[k];
      assert a == b;
    }
  }

  /** The first index at which `sub` occurs in `s` (`s.find(sub)`). */
  function FindSub(s: string, sub: string): (r: Option<nat>)
    ensures r.Some? ==> OccursAt(s, sub, r.value) && forall j :: 0 <= j < r.value ==> !OccursAt(s, sub, j)
    ensures r.None? ==> forall j :: 0 <= j <= |s| ==> !OccursAt(s, sub, j)
    decreases |s|
  {
    if StartsWith(s, sub) then Some(0)
    else if s == [] then None
    else
      var r := FindSub(s[1..], sub);
      assert forall j :: 1 <= j <= |s| ==> (OccursAt(s, sub, j) <==> OccursAt(s[1..], sub, j - 1)) by {
        forall j | 1 <= j <= |s| { OccursShift(s, sub, j); }
      }
      match r
      case None => None
      case Some(i) => Some(i + 1)
  }

  /** `sub in s`, or `s.find(sub) != -1`. */
  predicate Contains(s: string, sub: string) {
    FindSub(s, sub).Some?
  }

  /** `s.split(c)` for a one-character separator. */
  function Split(s: string, c: char): (r: seq<string>)
    ensures |r| >= 1
    ensures forall k :: 0 <= k < |r| ==> c !in r[k]
    decreases |s|
  {
    match Find(s, c)
    case None => [s]
    case Some(i) => [s[..i]] + Split(s[i + 1..], c)
  }

  /** A string is what comes before index `i`, the character there, and what follows. */
  lemma CutAt(s: string, i: nat)
    requires i < |s|
    ensures s == s[..i] + [s[i]] + s[i + 1..]
  {
  }

  /** A non-empty string is its first character and the rest, in front of anything. */
  lemma ConsAppend(a: string, b: string)
    requires a != []
    ensures [a[0]] + (a[1..] + b) == a + b
    ensures (a + b)[1..] == a[1..] + b
  {
    assert [a[0]] + a[1..] == a;
  }

  /** Concatenation regroups. */
  lemma AppendAssoc(a: string, b: string, c: string)
    ensures a + b + c == a + (b + c)
  {
  }

  /** `c.join(parts)` for a one-character separator. */
  function Join(parts: seq<string>, c: char): string
    decreases |parts|
  {
    if |parts| == 0 then ""
    else if |parts| == 1 then parts[0]
    else parts[0] + [c] + Join(parts[1..], c)
  }

  lemma JoinCons(a: string, rest: seq<string>, c: char)
    requires |rest| >= 1
    ensures Join([a] + rest, c) == a + [c] + Join(rest, c)
  {
    assert ([a] + rest)[1..] == rest;
  }

  /** Joining what `split` produced gives the text back. */
  lemma {:induction false} JoinSplit(s: string, c: char)
    ensures Join(Split(s, c), c) == s
    decreases |s|
  {
    match Find(s, c)
    case None =>
    case Some(i) =>
      JoinSplit(s[i + 1..], c);
      JoinCons(s[..i], Split(s[i + 1..], c), c);
      CutAt(s, i);
  }

  /** Splitting what `join` produced gives the parts back, when no part holds the separator. */
  lemma {:induction false} SplitJoin(parts: seq<string>, c: char)
    requires |parts| >= 1
    requires forall k :: 0 <= k < |parts| ==> c !in parts[k]
    ensures Split(Join(parts, c), c) == parts
    decreases |parts|
  {
    if |parts| > 1 {
      var rest := Join(parts[1..], c);
      SplitAt(parts[0], c, rest);
      SplitJoin(parts[1..], c);
      assert parts == [parts[0]] + parts[1..];
    }
  }

  /** `split` cuts first at a separator that follows a prefix holding none. */
  lemma SplitAt(a: string, c: char, b: string)
    requires c !in a
    ensures Split(a + [c] + b, c) == [a] + Split(b, c)
  {
    var s := a + [c] + b;
    FindAfter(a, c, b);
    assert s[..|a|] == a;
    assert s[|a| + 1..] == b;
  }

  /** The last part `split` produces is what follows the last separator. */
  lemma {:induction false} SplitLastAt(a: string, c: char, b: string)
    requires c !in b
    ensures var p := Split(a + [c] + b, c); p[|p| - 1] == b
    decreases |a|
  {
    if c !in a {
      SplitAt(a, c, b);
    } else {
      var i := Find(a, c).value;
      var a2 := a[i + 1..];
      CutAt(a, i);
      assert a + [c] + b == a[..i] + [c] + (a2 + [c] + b);
      SplitAt(a[..i], c, a2 + [c] + b);
      SplitLastAt(a2, c, b);
    }
  }

  /** `s.split(c, maxsplit)`: at most `maxsplit` cuts, made from the left. */
  function SplitMax(s: string, c: char, maxsplit: nat): (r: seq<string>)
    ensures 1 <= |r| <= maxsplit + 1
    ensures forall k :: 0 <= k < |r| - 1 ==> c !in r[k]
    ensures |r| <= maxsplit ==> c !in r[|r| - 1]
    ensures Join(r, c) == s
    decreases maxsplit
  {
    if maxsplit == 0 then [s]
    else match Find(s, c)
      case None => [s]
      case Some(i) =>
        var rest := SplitMax(s[i + 1..], c, maxsplit - 1);
        SplitMaxCons(s, c, i, rest, maxsplit);
        [s[..i]] + rest
  }

  /** The first part of a split, put before the split of the rest, keeps what `SplitMax` promises. */
  lemma SplitMaxCons(s: string, c: char, i: nat, rest: seq<string>, maxsplit: nat)
    requires i < |s| && s[i] == c && c !in s[..i] && maxsplit >= 1
    requires 1 <= |rest| <= maxsplit
    requires forall k :: 0 <= k < |rest| - 1 ==> c !in rest[k]
    requires |rest| <= maxsplit - 1 ==> c !in rest[|rest| - 1]
    requires Join(rest, c) == s[i + 1..]
    ensures var r := [s[..i]] + rest;
      && 1 <= |r| <= maxsplit + 1
      && (forall k :: 0 <= k < |r| - 1 ==> c !in r[k])
      && (|r| <= maxsplit ==> c !in r[|r| - 1])
      && Join(r, c) == s
  {
    var r := [s[..i]] + rest;
    assert forall k :: 1 <= k < |r| ==> r[k] == rest[k - 1];
    JoinCons(s[..i], rest, c);
    CutAt(s, i);
  }

  /** `s.rsplit(c, 1)`: one cut at the last separator. */
  function RSplitOnce(s: string, c: char): (r: seq<string>)
    ensures |r| == 1 <==> c !in s
    ensures |r| == 1 ==> r[0] == s
    ensures |r| == 2 ==> c !in r[1] && s == r[0] + [c] + r[1]
    ensures |r| <= 2
  {
    match RFind(s, c)
    case None => [s]
    case Some(i) =>
      CutAt(s, i);
      [s[..i], s[i + 1..]]
  }

  /** The first separator is the one right after a prefix that holds none. */
  lemma FindAfter(a: string, c: char, b: string)
    requires c !in a
    ensures Find(a + [c] + b, c) == Some(|a|)
  {
    var s := a + [c] + b;
    assert s[|a|] == c;
  }

  /** The last separator is the one right before a suffix that holds none. */
  lemma RFindBefore(a: string, c: char, b: string)
    requires c !in b
    ensures RFind(a + [c] + b, c) == Some(|a|)
  {
    var s := a + [c] + b;
    assert s[|a|] == c;
  }

  /** `rsplit` cuts at the last separator: the suffix after it holds none. */
  lemma RSplitOnceAt(a: string, c: char, b: string)
    requires c !in b
    ensures RSplitOnce(a + [c] + b, c) == [a, b]
  {
    var s := a + [c] + b;
    RFindBefore(a, c, b);
    assert s[..|a|] == a;
    assert s[|a| + 1..] == b;
  }

  /** `split(c, 2)` of a path whose first two components hold no separator. */
  lemma SplitTwoAt(a: string, c: char, b: string, rest: string)
    requires c !in a && c !in b
    ensures SplitMax(a + [c] + b + [c] + rest, c, 2) == [a, b, rest]
  {
    var s := a + [c] + b + [c] + rest;
    var t := b + [c] + rest;
    assert s == a + [c] + t;
    FindAfter(a, c, t);
    assert s[..|a|] == a;
    assert s[|a| + 1..] == t;
    FindAfter(b, c, rest);
    assert t[..|b|] == b;
    assert t[|b| + 1..] == rest;
  }

  /** `s[:-n]`: all but the last `n` characters, or nothing when `s` is shorter. */
  function DropLast(s: string, n: nat): (r: string)
    ensures |s| >= n ==> |r| == |s| - n && r == s[..|s| - n]
    ensures |s| < n ==> r == ""
  {
    if |s| >= n then s[..|s| - n] else ""
  }

  /** `s.replace(target, replacement)`: every occurrence of `target`, scanned from the left, becomes `replacement`. */
  function Replace(s: string, target: string, replacement: string): string
    requires |target| > 0
    decreases |s|
  {
    if StartsWith(s, target) then replacement + Replace(s[|target|..], target, replacement)
    else if s == [] then []
    else [s[0]] + Replace(s[1..], target, replacement)
  }

  /** `replace` leaves a text in which the target does not occur unchanged. */
  lemma {:induction false} ReplaceAbsent(s: string, target: string, replacement: string)
    requires |target| > 0 && FindSub(s, target).None?
    ensures Replace(s, target, replacement) == s
    decreases |s|
  {
    if s != [] {
      assert !StartsWith(s, target);
      assert FindSub(s[1..], target).None?;
      ReplaceAbsent(s[1..], target, replacement);
      assert [s[0]] + s[1..] == s;
    }
  }

  /**
   * `replace` keeps the text before the first occurrence of the target, puts the
   * replacement in its place, and goes on after it.
   */
  lemma ReplaceFirst(s: string, target: string, replacement: string, i: nat)
    requires |target| > 0 && FindSub(s, target) == Some(i)
    ensures Replace(s, target, replacement) == s[..i] + replacement + Replace(s[i + |target|..], target, replacement)
  {
    forall j | 0 <= j < i
      ensures !StartsWith(s[j..], target)
    {
      assert !OccursAt(s, target, j);
      if j + |target| <= |s| {
        assert s[j..][..|target|] == s[j..j + |target|];
      }
    }
    ReplaceSkip(s, target, replacement, i);
    ReplaceAt(s, target, replacement, i);
  }

  /** Where no occurrence of the target starts before `k`, `replace` keeps `s[..k]` as it is. */
  lemma {:induction false} ReplaceSkip(s: string, target: string, replacement: string, k: nat)
    requires |target| > 0 && k <= |s|
    requires forall j :: 0 <= j < k ==> !StartsWith(s[j..], target)
    ensures Replace(s, target, replacement) == s[..k] + Replace(s[k..], target, replacement)
    decreases k
  {
    if k == 0 {
      assert s[..0] + Replace(s[0..], target, replacement) == Replace(s, target, replacement);
    } else {
      ReplaceSkip(s, target, replacement, k - 1);
      ReplaceKeeps(s, target, replacement, k - 1);
      Regroup(s, k, Replace(s, target, replacement), Replace(s[k - 1..], target, replacement), Replace(s[k..], target, replacement));
    }
  }

  /** `x == s[..k - 1] + y` and `y == [s[k - 1]] + z` give `x == s[..k] + z`. */
  lemma Regroup(s: string, k: nat, x: string, y: string, z: string)
    requires 1 <= k <= |s| && x == s[..k - 1] + y && y == [s[k - 1]] + z
    ensures x == s[..k] + z
  {
    assert s[..k - 1] + [s[k - 1]] == s[..k];
  }

  /** A position where the target does not start is copied by `replace`. */
  lemma ReplaceKeeps(s: string, target: string, replacement: string, j: nat)
    requires |target| > 0 && j < |s| && !StartsWith(s[j..], target)
    ensures Replace(s[j..], target, replacement) == [s[j]] + Replace(s[j + 1..], target, replacement)
  {
    assert s[j..][1..] == s[j + 1..];
  }

  /** An occurrence of the target at `i` becomes the replacement. */
  lemma ReplaceAt(s: string, target: string, replacement: string, i: nat)
    requires |target| > 0 && OccursAt(s, target, i)
    requires Replace(s, target, replacement) == s[..i] + Replace(s[i..], target, replacement)
    ensures Replace(s, target, replacement) == s[..i] + replacement + Replace(s[i + |target|..], target, replacement)
  {
    var u := s[i..];
    assert u[..|target|] == s[i..i + |target|];
    assert u[|target|..] == s[i + |target|..];
    var r := Replace(s[i + |target|..], target, replacement);
    assert Replace(u, target, replacement) == replacement + r;
    assert s[..i] + (replacement + r) == s[..i] + replacement + r;
  }
}
