/**
 * The line-oriented HLS playlist handling of sxm.py: picking the variant out of a
 * multivariant playlist (RFC 8216 section 4.3.4.2 puts each variant URI on its own
 * line) and rewriting a media playlist so that its segment lines resolve through the proxy.
 */
module Hls {
  import opened Wrappers
  import opened Text

  const PlaylistSuffix := ".m3u8"
  const SegmentSuffix := ".aac"

  /** A line that names a variant: it ends in `.m3u8` once trailing whitespace is removed. */
  predicate IsVariantLine(line: string) {
    EndsWith(RStrip(line), PlaylistSuffix)
  }

  /** The index of the first variant line. */
  function FirstVariant(lines: seq<string>): (r: Option<nat>)
    ensures r.None? <==> forall i :: 0 <= i < |lines| ==> !IsVariantLine(lines[i])
    ensures r.Some? ==> r.value < |lines| && IsVariantLine(lines[r.value])
    ensures r.Some? ==> forall j :: 0 <= j < r.value ==> !IsVariantLine(lines[j])
  {
    FirstVariantFrom(lines, 0)
  }

  /** The index of the first variant line at or after `k`. */
  function FirstVariantFrom(lines: seq<string>, k: nat): (r: Option<nat>)
    requires k <= |lines|
    ensures r.None? <==> forall i :: k <= i < |lines| ==> !IsVariantLine(lines[i])
    ensures r.Some? ==> k <= r.value < |lines| && IsVariantLine(lines[r.value])
    ensures r.Some? ==> forall j :: k <= j < r.value ==> !IsVariantLine(lines[j])
    decreases |lines| - k
  {
    if k == |lines| then None
    else if IsVariantLine(lines[k]) then Some(k)
    else FirstVariantFrom(lines, k + 1)
  }

  /** `url.rsplit('/', 1)[0]`: the URL without its last path component. */
  function Directory(url: string): string {
    RSplitOnce(url, '/')[0]
  }

  /**
   * The variant URL `get_playlist_variant_url` builds from a 200 response: the
   * directory of the playlist URL joined with the first right-stripped line that ends
   * in `.m3u8`, or None when no line does.
   */
  function VariantOf(url: string, text: string): (r: Option<string>)
    ensures r.None? ==> forall i :: 0 <= i < |Split(text, '\n')| ==> !IsVariantLine(Split(text, '\n')[i])
    ensures (forall i :: 0 <= i < |Split(text, '\n')| ==> !IsVariantLine(Split(text, '\n')[i])) ==> r.None?
    ensures r.Some? ==>
      exists i :: 0 <= i < |Split(text, '\n')| && IsVariantLine(Split(text, '\n')[i])
        && (forall j :: 0 <= j < i ==> !IsVariantLine(Split(text, '\n')[j]))
        && r.value == Directory(url) + "/" + RStrip(Split(text, '\n')[i])
  {
    var lines := Split(text, '\n');
    match FirstVariant(lines)
    case None => None
    case Some(i) => Some(Directory(url) + "/" + RStrip(lines[i]))
  }

  // ----- re.sub("[^\/]\w+\.m3u8", line, tail) -----

  /** `\w` on ASCII. */
  predicate IsWordChar(c: char) {
    ('a' <= c <= 'z') || ('A' <= c <= 'Z') || ('0' <= c <= '9') || c == '_'
  }

  /** The length of the longest prefix of `s` made of word characters (what a greedy `\w+` takes). */
  function WordRun(s: string): (r: nat)
    ensures r <= |s|
    ensures forall i :: 0 <= i < r ==> IsWordChar(s[i])
    ensures r == |s| || !IsWordChar(s[r])
    decreases |s|
  {
    if s != [] && IsWordChar(s[0]) then 1 + WordRun(s[1..]) else 0
  }

  /**
   * The length of the match of `[^/]\w+\.m3u8` that starts at the beginning of `s`.
   * Backtracking cannot help `\w+`: a shorter run would leave a word character where
   * `\.` is needed, so only the greedy run is tried. The ensures gives the match's
   * shape; what the substitution does with it is stated by FileNameReplaced and
   * SubAfterDirectory.
   */
  function MatchAt(s: string): (r: Option<nat>)
    ensures r.Some? ==> 7 <= r.value <= |s| && s[0] != '/' && EndsWith(s[..r.value], PlaylistSuffix)
  {
    if s == [] || s[0] == '/' then None
    else
      var k := WordRun(s[1..]);
      if k >= 1 && StartsWith(s[1 + k..], PlaylistSuffix) then
        assert s[..1 + k + 5][1 + k..] == s[1 + k..][..5];
        Some(1 + k + 5)
      else None
  }

  /** `re.sub` of that pattern: every non-overlapping match, found left to right, becomes `repl`. */
  function SubPlaylistName(s: string, repl: string): string
    decreases |s|
  {
    if s == [] then []
    else match MatchAt(s)
      case Some(n) => repl + SubPlaylistName(s[n..], repl)
      case None => [s[0]] + SubPlaylistName(s[1..], repl)
  }

  /** The substitution brings in no character that is in neither the text nor the replacement. */
  lemma {:induction false} SubPlaylistNameChars(s: string, repl: string)
    ensures forall c :: c in SubPlaylistName(s, repl) ==> c in s || c in repl
    decreases |s|
  {
    if s != [] {
      match MatchAt(s)
      case Some(n) =>
        SubPlaylistNameChars(s[n..], repl);
        assert forall c :: c in s[n..] ==> c in s;
      case None =>
        SubPlaylistNameChars(s[1..], repl);
        assert forall c :: c in s[1..] ==> c in s;
    }
  }

  /** `s` cut before its first line break (how far `.*` reaches). */
  function FirstLine(s: string): (r: string)
    ensures '\n' !in r && StartsWith(s, r)
  {
    match Find(s, '\n')
    case None => s
    case Some(i) => s[..i]
  }

  /** `re.findall("AAC_Data.*", url)[0]`, or None where that indexing raises IndexError. */
  function AacTail(url: string): Option<string> {
    match FindSub(url, "AAC_Data")
    case None => None
    case Some(i) => Some(FirstLine(url[i..]))
  }

  /** The tail exists exactly when the URL mentions `AAC_Data`; it starts there and stops at a line break. */
  lemma AacTailShape(url: string)
    ensures AacTail(url).None? <==> !Contains(url, "AAC_Data")
    ensures AacTail(url).Some? ==> '\n' !in AacTail(url).value && StartsWith(AacTail(url).value, "AAC_Data")
  {
    match FindSub(url, "AAC_Data")
    case None =>
    case Some(i) =>
      var t := FirstLine(url[i..]);
      assert url[i..i + 8] == "AAC_Data";
      assert '\n' !in url[i..i + 8];
      assert url[i..][..8] == url[i..i + 8];
      assert |t| >= 8;
      assert t[..8] == url[i..][..8];
  }

  /** A line that names a segment: it ends in `.aac` once stripped. */
  predicate IsSegmentLine(line: string) {
    EndsWith(Strip(line), SegmentSuffix)
  }

  /**
   * One entry of `playlist_entries`: the stripped line, where a segment line with a
   * tail to work on becomes the tail with its playlist name replaced by the line.
   */
  function RewriteLine(tail: Option<string>, line: string): string {
    var l := Strip(line);
    if EndsWith(l, SegmentSuffix) && tail.Some? then SubPlaylistName(tail.value, l) else l
  }

  /** Some line is a segment line (checked from the last line back, as the loop's prefix grows). */
  predicate AnySegmentLine(lines: seq<string>)
    decreases |lines|
  {
    lines != [] && (AnySegmentLine(lines[..|lines| - 1]) || IsSegmentLine(lines[|lines| - 1]))
  }

  /** `AnySegmentLine` finds a segment line that is there. */
  lemma {:induction false} AnySegmentLineAt(lines: seq<string>, k: nat)
    requires k < |lines| && IsSegmentLine(lines[k])
    ensures AnySegmentLine(lines)
  {
    ShorterFails(lines, k + 1) by {
      PrefixStep(lines, None, k);
      assert lines[..k + 1][k] == lines[k];
    }
  }

  /** What `AnySegmentLine` finds is a segment line of the text. */
  lemma {:induction false} AnySegmentLineWitness(lines: seq<string>) returns (k: nat)
    requires AnySegmentLine(lines)
    ensures k < |lines| && IsSegmentLine(lines[k])
    decreases |lines|
  {
    var init := lines[..|lines| - 1];
    if IsSegmentLine(lines[|lines| - 1]) {
      k := |lines| - 1;
    } else {
      k := AnySegmentLineWitness(init);
      assert init[k] == lines[k];
    }
  }

  /** The rewrite raises IndexError: a segment line needs the tail and there is none. */
  predicate RewriteFails(lines: seq<string>, tail: Option<string>) {
    tail.None? && AnySegmentLine(lines)
  }

  /** The rewrite fails exactly when some line is a segment line and there is no tail. */
  lemma RewriteFailsExactly(lines: seq<string>, tail: Option<string>)
    ensures RewriteFails(lines, tail) ==> tail.None? && exists k :: 0 <= k < |lines| && IsSegmentLine(lines[k])
    ensures (tail.None? && exists k :: 0 <= k < |lines| && IsSegmentLine(lines[k])) ==> RewriteFails(lines, tail)
  {
    if RewriteFails(lines, tail) {
      var k := AnySegmentLineWitness(lines);
    }
    if tail.None? && exists k :: 0 <= k < |lines| && IsSegmentLine(lines[k]) {
      var k :| 0 <= k < |lines| && IsSegmentLine(lines[k]);
      AnySegmentLineAt(lines, k);
    }
  }

  /** `playlist_entries` once every line has been rewritten. */
  function Entries(tail: Option<string>, lines: seq<string>): (r: seq<string>)
    ensures |r| == |lines|
  {
    if lines == [] then [] else Entries(tail, lines[..|lines| - 1]) + [RewriteLine(tail, lines[|lines| - 1])]
  }

  /** Entry `k` is line `k` rewritten. */
  lemma {:induction false} EntriesAt(tail: Option<string>, lines: seq<string>, k: nat)
    requires k < |lines|
    ensures Entries(tail, lines)[k] == RewriteLine(tail, lines[k])
    decreases |lines|
  {
    if k < |lines| - 1 {
      var init := lines[..|lines| - 1];
      EntriesAt(tail, init, k);
      assert init[k] == lines[k];
    }
  }

  /**
   * The manifest `get_playlist` serves for `text` fetched from `url`, or None where the
   * rewrite raises IndexError (a segment line but no `AAC_Data` in the URL).
   */
  function Rewritten(text: string, url: string): Option<string> {
    var lines := Split(text, '\n');
    var tail := AacTail(url);
    if RewriteFails(lines, tail) then None else Some(Join(Entries(tail, lines), '\n'))
  }

  /**
   * The loop of `get_playlist` that builds `playlist_entries`: None where a segment line
   * finds no tail to rewrite.
   */
  method RewriteEntries(lines: seq<string>, tail: Option<string>) returns (r: Option<seq<string>>)
    ensures r.None? <==> RewriteFails(lines, tail)
    ensures r.Some? ==> r.value == Entries(tail, lines)
  {
    var entries: seq<string> := [];
    var i := 0;
    while i < |lines|
      invariant 0 <= i <= |lines|
      invariant entries == Entries(tail, lines[..i])
      invariant tail.None? ==> !AnySegmentLine(lines[..i])
    {
      PrefixStep(lines, tail, i);
      if tail.None? && IsSegmentLine(lines[i]) {
        ShorterFails(lines, i + 1);
        return None;
      }
      entries := entries + [RewriteLine(tail, lines[i])];
      i := i + 1;
    }
    assert lines[..i] == lines;
    r := Some(entries);
  }

  /** `get_playlist`'s rewrite of the playlist text fetched from `url`. */
  method RewritePlaylist(text: string, url: string) returns (r: Option<string>)
    ensures r == Rewritten(text, url)
  {
    var entries := RewriteEntries(Split(text, '\n'), AacTail(url));
    match entries
    case None => r := None;
    case Some(es) => r := Some(Join(es, '\n'));
  }

  /** A segment line among the first lines is a segment line of the whole text. */
  lemma {:induction false} ShorterFails(lines: seq<string>, n: nat)
    requires n <= |lines| && AnySegmentLine(lines[..n])
    ensures AnySegmentLine(lines)
    decreases |lines| - n
  {
    if n < |lines| {
      assert lines[..n + 1][..n] == lines[..n];
      ShorterFails(lines, n + 1);
    } else {
      assert lines[..n] == lines;
    }
  }

  /** What one more line adds to the entries and to the search for a segment line. */
  lemma PrefixStep(lines: seq<string>, tail: Option<string>, i: nat)
    requires i < |lines|
    ensures Entries(tail, lines[..i + 1]) == Entries(tail, lines[..i]) + [RewriteLine(tail, lines[i])]
    ensures AnySegmentLine(lines[..i + 1]) == (AnySegmentLine(lines[..i]) || IsSegmentLine(lines[i]))
  {
    assert lines[..i + 1][..i] == lines[..i];
  }

  // ----- what the rewrite produces -----

  /** No rewritten entry holds a line break when neither the lines nor the tail do. */
  lemma EntriesNoBreak(tail: Option<string>, lines: seq<string>)
    requires forall k :: 0 <= k < |lines| ==> '\n' !in lines[k]
    requires tail.Some? ==> '\n' !in tail.value
    ensures forall k :: 0 <= k < |lines| ==> '\n' !in Entries(tail, lines)[k]
  {
    forall k | 0 <= k < |lines|
      ensures '\n' !in Entries(tail, lines)[k]
    {
      EntriesAt(tail, lines, k);
      StripChars(lines[k]);
      if tail.Some? {
        SubPlaylistNameChars(tail.value, Strip(lines[k]));
      }
    }
  }

  /**
   * The served manifest keeps the line structure: it has as many lines as the fetched
   * text, and line `k` is line `k` of the text rewritten.
   */
  lemma RewrittenLines(text: string, url: string)
    ensures var lines := Split(text, '\n');
      var r := Rewritten(text, url);
      r.Some? ==>
        && |Split(r.value, '\n')| == |lines|
        && forall k :: 0 <= k < |lines| ==> Split(r.value, '\n')[k] == RewriteLine(AacTail(url), lines[k])
  {
    var lines := Split(text, '\n');
    var tail := AacTail(url);
    if !RewriteFails(lines, tail) {
      AacTailShape(url);
      EntriesNoBreak(tail, lines);
      SplitJoin(Entries(tail, lines), '\n');
      forall k | 0 <= k < |lines|
        ensures Entries(tail, lines)[k] == RewriteLine(tail, lines[k])
      {
        EntriesAt(tail, lines, k);
      }
    }
  }

  /** A line that is not a segment line is served stripped and otherwise as it was. */
  lemma OtherLineKept(tail: Option<string>, line: string)
    requires !IsSegmentLine(line)
    ensures RewriteLine(tail, line) == Strip(line)
  {
  }

  /** No match of the playlist-name pattern starts in a directory part that holds no `.`. */
  lemma NoMatchBeforeSlash(d: string, rest: string)
    requires '.' !in d
    ensures MatchAt(d + ("/" + rest)) == None
  {
    var s := d + ("/" + rest);
    if d != [] && d[0] != '/' {
      var k := WordRun(s[1..]);
      assert s[1..][|d| - 1] == '/';
      assert k <= |d| - 1;
    }
  }

  /** The substitution leaves a leading directory part without `.` alone. */
  lemma {:induction false} SubAfterDirectory(d: string, rest: string, repl: string)
    requires '.' !in d
    ensures SubPlaylistName(d + ("/" + rest), repl) == d + ("/" + SubPlaylistName(rest, repl))
    decreases |d|
  {
    var x := "/" + rest;
    NoMatchBeforeSlash(d, rest);
    SubUnmatched(d + x, repl);
    if d == [] {
      assert d + x == x;
      assert x[1..] == rest;
    } else {
      ConsAppend(d, x);
      SubAfterDirectory(d[1..], rest, repl);
      ConsAppend(d, "/" + SubPlaylistName(rest, repl));
    }
  }

  /** Where no match starts, the first character is kept. */
  lemma SubUnmatched(s: string, repl: string)
    requires s != [] && MatchAt(s) == None
    ensures SubPlaylistName(s, repl) == [s[0]] + SubPlaylistName(s[1..], repl)
  {
  }

  /** A playlist file name: a first character other than `/`, then at least one word character. */
  predicate IsPlaylistName(name: string) {
    |name| >= 2 && name[0] != '/' && forall i :: 1 <= i < |name| ==> IsWordChar(name[i])
  }

  /** The whole of `name.m3u8` is one match, so it becomes the replacement. */
  lemma FileNameReplaced(name: string, repl: string)
    requires IsPlaylistName(name)
    ensures SubPlaylistName(name + PlaylistSuffix, repl) == repl
  {
    var f := name + PlaylistSuffix;
    var k := WordRun(f[1..]);
    assert f[1..][|name| - 1] == '.';
    assert k == |name| - 1;
    assert f[1 + k..] == PlaylistSuffix;
    assert MatchAt(f) == Some(|f|);
    assert f[|f|..] == [];
  }

  /**
   * A segment line of a playlist fetched from `.../AAC_Data/.../name.m3u8` becomes the
   * tail from `AAC_Data` with that final file name replaced by the stripped line.
   */
  lemma SegmentLineRewritten(dir: string, name: string, line: string)
    requires '.' !in dir && IsPlaylistName(name) && IsSegmentLine(line)
    ensures RewriteLine(Some(dir + "/" + name + PlaylistSuffix), line) == dir + "/" + Strip(line)
  {
    var p, u := name + PlaylistSuffix, Strip(line);
    assert dir + "/" + name + PlaylistSuffix == dir + ("/" + p) by {
      AppendAssoc(dir, "/", p);
      AppendAssoc(dir + "/", name, PlaylistSuffix);
    }
    SubAfterDirectory(dir, p, u);
    FileNameReplaced(name, u);
    AppendAssoc(dir, "/", u);
  }
}
