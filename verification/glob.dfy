/** Matching stream paths against patterns with `*` for one segment and `**` for any number of them. */
module Glob {
  import Text

  // ---- Text ----

  function ReplaceAll(s: string, from: string, to: string): string
    requires from != ""
    decreases |s|
  {
    if s == "" then ""
    else if Text.StartsWith(s, from) then to + ReplaceAll(s[|from|..], from, to)
    else [s[0]] + ReplaceAll(s[1..], from, to)
  }

  /** A literal segment, with an escaped star decoded. */
  function Decode(segment: string): string {
    ReplaceAll(ReplaceAll(segment, "%2A", "*"), "%2a", "*")
  }

  /** A text occurs in another, starting at `i`. */
  predicate OccursAt(s: string, part: string, i: nat) {
    i + |part| <= |s| && s[i..i + |part|] == part
  }

  /** Replacing goes on after a first occurrence that nothing before it overlaps. */
  lemma {:induction false} ReplaceFirst(a: string, from: string, to: string, b: string)
    requires from != "" && from[0] !in from[1..]
    ensures ReplaceAll(a + from + b, from, to) == ReplaceAll(a, from, to) + to + ReplaceAll(b, from, to)
    decreases |a|
  {
    var s := a + from + b;
    if a == "" {
      assert s == from + b && s[..|from|] == from && s[|from|..] == b;
      assert "" + to + ReplaceAll(b, from, to) == to + ReplaceAll(b, from, to);
    } else if Text.StartsWith(a, from) {
      assert s[..|from|] == a[..|from|] && s[|from|..] == a[|from|..] + from + b;
      ReplaceFirst(a[|from|..], from, to, b);
      ReplaceAssociates(to, ReplaceAll(a[|from|..], from, to), to, ReplaceAll(b, from, to));
    } else {
      NoOverlap(a, from, b);
      assert s[0] == a[0] && s[1..] == a[1..] + from + b;
      ReplaceFirst(a[1..], from, to, b);
      ReplaceAssociates([a[0]], ReplaceAll(a[1..], from, to), to, ReplaceAll(b, from, to));
    }
  }

  lemma {:induction false} ReplaceAssociates(a: string, b: string, c: string, d: string)
    ensures a + (b + c + d) == a + b + c + d
  {
  }

  lemma {:induction false} NoOverlap(a: string, from: string, b: string)
    requires a != "" && from != "" && from[0] !in from[1..] && !Text.StartsWith(a, from)
    ensures !Text.StartsWith(a + from + b, from)
  {
    var s := a + from + b;
    if |from| <= |a| {
      assert s[..|from|] == a[..|from|];
    } else {
      assert s[..|from|][|a|] == from[0];
      assert from[|a|] == from[1..][|a| - 1];
    }
  }

  /** Where there is nothing to replace, nothing changes. */
  lemma {:induction false} ReplaceNone(s: string, from: string, to: string)
    requires from != "" && forall i :: 0 <= i <= |s| ==> !OccursAt(s, from, i)
    ensures ReplaceAll(s, from, to) == s
    decreases |s|
  {
    if s != "" {
      assert !OccursAt(s, from, 0);
      if |from| <= |s| { assert s[0..0 + |from|] == s[..|from|]; }
      forall i | 0 <= i <= |s[1..]| ensures !OccursAt(s[1..], from, i) {
        assert !OccursAt(s, from, i + 1);
        if i + |from| <= |s[1..]| { assert s[1..][i..i + |from|] == s[i + 1..i + 1 + |from|]; }
      }
      ReplaceNone(s[1..], from, to);
    }
  }

  /** A segment without escaped stars stands for itself. */
  lemma {:induction false} DecodesToItself(segment: string)
    requires forall i :: 0 <= i <= |segment| ==> !OccursAt(segment, "%2A", i) && !OccursAt(segment, "%2a", i)
    ensures Decode(segment) == segment
  {
    ReplaceNone(segment, "%2A", "*");
    ReplaceNone(segment, "%2a", "*");
  }

  /** An escaped star stands for a star, with either case of its hexadecimal digit, wherever it occurs. */
  lemma {:induction false} DecodesStars(a: string, star: string, b: string)
    requires star == "%2A" || star == "%2a"
    ensures Decode(a + star + b) == Decode(a) + "*" + Decode(b)
  {
    if star == "%2A" {
      ReplaceFirst(a, "%2A", "*", b);
      ReplaceAround(ReplaceAll(a, "%2A", "*"), "%2a", "*", ReplaceAll(b, "%2A", "*"));
    } else {
      ReplaceAround(a, "%2A", "%2a", b);
      ReplaceFirst(ReplaceAll(a, "%2A", "*"), "%2a", "*", ReplaceAll(b, "%2A", "*"));
    }
  }

  /** A piece of text that shares no beginning with what is replaced stays where it is. */
  lemma {:induction false} ReplaceAround(a: string, from: string, between: string, b: string)
    requires (from == "%2a" && between == "*") || (from == "%2A" && between == "%2a")
    ensures ReplaceAll(a + between + b, from, "*") == ReplaceAll(a, from, "*") + between + ReplaceAll(b, from, "*")
    decreases |a|
  {
    var s := a + between + b;
    if a == "" {
      assert s == between + b;
      Skips(between, from, b);
      assert "" + between + ReplaceAll(b, from, "*") == between + ReplaceAll(b, from, "*");
    } else if Text.StartsWith(a, from) {
      assert s[..|from|] == a[..|from|] && s[|from|..] == a[|from|..] + between + b;
      ReplaceAround(a[|from|..], from, between, b);
      ReplaceAssociates("*", ReplaceAll(a[|from|..], from, "*"), between, ReplaceAll(b, from, "*"));
    } else {
      NoneAcross(a, from, between, b);
      assert s[0] == a[0] && s[1..] == a[1..] + between + b;
      ReplaceAround(a[1..], from, between, b);
      ReplaceAssociates([a[0]], ReplaceAll(a[1..], from, "*"), between, ReplaceAll(b, from, "*"));
    }
  }

  lemma {:induction false} NoneAcross(a: string, from: string, between: string, b: string)
    requires (from == "%2a" && between == "*") || (from == "%2A" && between == "%2a")
    requires a != "" && !Text.StartsWith(a, from)
    ensures !Text.StartsWith(a + between + b, from)
  {
    var s := a + between + b;
    if 3 <= |a| {
      assert s[..3] == a[..3];
    } else if 3 <= |s| {
      assert s[..3][|a|] == between[0];
    }
  }

  /** Replacing passes over such a piece. */
  lemma {:induction false} Skips(between: string, from: string, b: string)
    requires (from == "%2a" && between == "*") || (from == "%2A" && between == "%2a")
    ensures ReplaceAll(between + b, from, "*") == between + ReplaceAll(b, from, "*")
  {
    var s := between + b;
    if between == "*" {
      assert s[0] == '*' && s[1..] == b;
    } else {
      var s1 := ['2'] + (['a'] + b);
      var s2 := ['a'] + b;
      assert s == ['%'] + s1 && s[1..] == s1 && s1[1..] == s2 && s2[1..] == b;
      assert 3 <= |s| && s[..3][2] == 'a' && !Text.StartsWith(s, from);
      assert ReplaceAll(s2, from, "*") == ['a'] + ReplaceAll(b, from, "*");
      assert ReplaceAll(s1, from, "*") == ['2'] + ReplaceAll(s2, from, "*");
      assert between + ReplaceAll(b, from, "*") == ['%'] + (['2'] + (['a'] + ReplaceAll(b, from, "*")));
    }
  }

  function TrimLeft(s: string): string {
    if s != "" && s[0] == '/' then TrimLeft(s[1..]) else s
  }

  function TrimRight(s: string): string {
    if s != "" && s[|s| - 1] == '/' then TrimRight(s[..|s| - 1]) else s
  }

  /** The pieces between slashes; always at least one. */
  function Split(s: string): (r: seq<string>)
    ensures r != []
    ensures forall i :: 0 <= i < |r| ==> '/' !in r[i]
  {
    if s == "" then [""]
    else
      var rest := Split(s[1..]);
      if s[0] == '/' then [""] + rest else [[s[0]] + rest[0]] + rest[1..]
  }

  function JoinPath(parts: seq<string>): string {
    if parts == [] then "" else if |parts| == 1 then parts[0] else parts[0] + "/" + JoinPath(parts[1..])
  }

  /** Splitting loses nothing. */
  lemma {:induction false} SplitJoins(s: string)
    ensures JoinPath(Split(s)) == s
  {
    if s != "" {
      var rest := Split(s[1..]);
      SplitJoins(s[1..]);
      if s[0] == '/' {
        assert ([""] + rest)[1..] == rest;
        assert "" + "/" + JoinPath(rest) == ['/'] + s[1..];
      } else {
        var r := [[s[0]] + rest[0]] + rest[1..];
        assert r[1..] == rest[1..];
        if |rest| > 1 {
          assert [s[0]] + rest[0] + "/" + JoinPath(rest[1..]) == [s[0]] + (rest[0] + "/" + JoinPath(rest[1..]));
        }
      }
    }
  }

  function SplitPath(p: string): seq<string> {
    var trimmed := TrimRight(TrimLeft(p));
    if trimmed == "" then [] else Split(trimmed)
  }

  /** Pieces without slashes, of which the first and the last are not empty. */
  predicate IsPath(parts: seq<string>) {
    && parts != [] && parts[0] != "" && parts[|parts| - 1] != ""
    && forall i :: 0 <= i < |parts| ==> '/' !in parts[i]
  }

  lemma {:induction false} JoinSplits(parts: seq<string>)
    requires parts != [] && forall i :: 0 <= i < |parts| ==> '/' !in parts[i]
    ensures Split(JoinPath(parts)) == parts
    decreases |parts|, |parts[0]|
  {
    if parts[0] != "" {
      var c, shorter := parts[0][0], [parts[0][1..]] + parts[1..];
      assert c in parts[0] && shorter[1..] == parts[1..];
      assert forall i :: 0 < i < |parts| ==> shorter[i] == parts[i];
      JoinSplits(shorter);
      assert parts[0] == [c] + parts[0][1..];
      assert JoinPath(parts) == [c] + JoinPath(shorter) by {
        if |parts| > 1 {
          assert [c] + parts[0][1..] + "/" + JoinPath(parts[1..]) == [c] + (parts[0][1..] + "/" + JoinPath(parts[1..]));
        }
      }
      assert JoinPath(parts)[1..] == JoinPath(shorter);
      assert [[c] + shorter[0]] + shorter[1..] == parts;
    } else if |parts| > 1 {
      JoinSplits(parts[1..]);
      assert JoinPath(parts)[1..] == JoinPath(parts[1..]);
      assert [""] + parts[1..] == parts;
    }
  }

  lemma {:induction false} JoinEnds(parts: seq<string>)
    requires IsPath(parts)
    ensures var s := JoinPath(parts); s != "" && s[0] != '/' && s[|s| - 1] != '/'
    decreases |parts|
  {
    assert parts[0][0] in parts[0];
    var last := parts[|parts| - 1];
    assert last[|last| - 1] in last;
    JoinLast(parts);
  }

  lemma {:induction false} JoinLast(parts: seq<string>)
    requires parts != [] && parts[|parts| - 1] != ""
    ensures var s, last := JoinPath(parts), parts[|parts| - 1]; s != "" && s[|s| - 1] == last[|last| - 1]
    decreases |parts|
  {
    if |parts| > 1 {
      assert parts[1..][|parts| - 2] == parts[|parts| - 1];
      JoinLast(parts[1..]);
    }
  }

  lemma {:induction false} TrimsLeft(slashes: string, s: string)
    requires (forall c :: c in slashes ==> c == '/') && (s != "" ==> s[0] != '/')
    ensures TrimLeft(slashes + s) == s
    decreases |slashes|
  {
    if slashes == "" {
      assert slashes + s == s;
    } else {
      assert slashes[0] in slashes && (forall c :: c in slashes[1..] ==> c in slashes);
      assert (slashes + s)[1..] == slashes[1..] + s;
      TrimsLeft(slashes[1..], s);
    }
  }

  lemma {:induction false} TrimsRight(s: string, slashes: string)
    requires (forall c :: c in slashes ==> c == '/') && (s != "" ==> s[|s| - 1] != '/')
    ensures TrimRight(s + slashes) == s
    decreases |slashes|
  {
    if slashes == "" {
      assert s + slashes == s;
    } else {
      var n := |slashes| - 1;
      assert slashes[n] in slashes && (forall c :: c in slashes[..n] ==> c in slashes);
      assert (s + slashes)[..|s + slashes| - 1] == s + slashes[..n];
      TrimsRight(s, slashes[..n]);
    }
  }

  /** The segments of a path come back from it, however many slashes lead it and trail it; slashes alone have none. */
  lemma {:induction false} PathRoundTrip(parts: seq<string>, leading: string, trailing: string)
    requires forall c :: c in leading || c in trailing ==> c == '/'
    ensures SplitPath(leading) == []
    ensures IsPath(parts) ==> SplitPath(leading + (JoinPath(parts) + trailing)) == parts
  {
    TrimsLeft(leading, "");
    assert leading + "" == leading;
    if IsPath(parts) {
      JoinEnds(parts);
      TrimsLeft(leading, JoinPath(parts) + trailing);
      TrimsRight(JoinPath(parts), trailing);
      JoinSplits(parts);
    }
  }

  // ---- What matching means ----

  /** What one pattern segment may stand for. */
  predicate Covers(segment: string, piece: seq<string>) {
    segment == "**" || (|piece| == 1 && (segment == "*" || Decode(segment) == piece[0]))
  }

  function Flatten(pieces: seq<seq<string>>): seq<string> {
    if pieces == [] then [] else pieces[0] + Flatten(pieces[1..])
  }

  /** The path, cut into one piece for each pattern segment. */
  predicate Partition(pattern: seq<string>, path: seq<string>, pieces: seq<seq<string>>) {
    |pieces| == |pattern| && Flatten(pieces) == path
    && forall i :: 0 <= i < |pattern| ==> Covers(pattern[i], pieces[i])
  }

  ghost predicate Fits(pattern: string, path: string) {
    exists pieces :: Partition(SplitPath(pattern), SplitPath(path), pieces)
  }

  /** The same by recursion on the pattern. */
  predicate Matches(pattern: seq<string>, path: seq<string>)
    decreases |pattern|
  {
    if pattern == [] then path == []
    else if pattern[0] == "**" then exists i :: 0 <= i <= |path| && Matches(pattern[1..], path[i..])
    else path != [] && Covers(pattern[0], [path[0]]) && Matches(pattern[1..], path[1..])
  }

  lemma {:induction false} PartitionMatches(pattern: seq<string>, path: seq<string>, pieces: seq<seq<string>>)
    requires Partition(pattern, path, pieces)
    ensures Matches(pattern, path)
    decreases pattern
  {
    if pattern != [] {
      var n := |pieces[0]|;
      assert path[n..] == Flatten(pieces[1..]);
      PartitionMatches(pattern[1..], path[n..], pieces[1..]);
      assert Covers(pattern[0], pieces[0]);
      if pattern[0] != "**" { assert pieces[0] == [path[0]]; }
    }
  }

  lemma {:induction false} MatchesPartition(pattern: seq<string>, path: seq<string>) returns (pieces: seq<seq<string>>)
    requires Matches(pattern, path)
    ensures Partition(pattern, path, pieces)
    decreases pattern
  {
    if pattern == [] {
      pieces := [];
    } else {
      var n := 1;
      if pattern[0] == "**" { n :| 0 <= n <= |path| && Matches(pattern[1..], path[n..]); }
      var rest := MatchesPartition(pattern[1..], path[n..]);
      pieces := [path[..n]] + rest;
      assert pieces[1..] == rest && path[..n] + path[n..] == path;
      assert Covers(pattern[0], path[..n]) by { if pattern[0] != "**" { assert path[..1] == [path[0]]; } }
    }
  }

  /** The recursion finds a partition exactly when there is one. */
  lemma {:induction false} MatchesExactly(pattern: seq<string>, path: seq<string>)
    ensures Matches(pattern, path) <==> exists pieces :: Partition(pattern, path, pieces)
  {
    if Matches(pattern, path) { var pieces := MatchesPartition(pattern, path); }
    if pieces :| Partition(pattern, path, pieces) { PartitionMatches(pattern, path, pieces); }
  }

  /** A segment that is no star and holds no escaped one. */
  predicate IsLiteral(segment: string) {
    && segment != "*" && segment != "**"
    && forall i :: 0 <= i <= |segment| ==> !OccursAt(segment, "%2A", i) && !OccursAt(segment, "%2a", i)
  }

  /** Literal segments match themselves only. */
  lemma {:induction false} LiteralsMatch(pattern: seq<string>, path: seq<string>)
    requires forall i :: 0 <= i < |pattern| ==> IsLiteral(pattern[i])
    ensures Matches(pattern, path) <==> pattern == path
    decreases pattern
  {
    if pattern != [] {
      assert IsLiteral(pattern[0]);
      DecodesToItself(pattern[0]);
      if path != [] {
        LiteralsMatch(pattern[1..], path[1..]);
        assert pattern == [pattern[0]] + pattern[1..] && path == [path[0]] + path[1..];
      }
    }
  }

  /** Single stars match as many segments as there are stars; a double star in front matches any further ones. */
  lemma {:induction false} StarsMatch(pattern: seq<string>, path: seq<string>)
    requires forall i :: 0 <= i < |pattern| ==> pattern[i] == "*"
    ensures Matches(pattern, path) <==> |path| == |pattern|
    ensures Matches(["**"] + pattern, path) <==> |path| >= |pattern|
    decreases pattern
  {
    StarsCount(pattern, path);
    var both := ["**"] + pattern;
    assert both[1..] == pattern;
    forall i | 0 <= i <= |path| ensures Matches(pattern, path[i..]) <==> |path| - i == |pattern| {
      StarsCount(pattern, path[i..]);
    }
    if |path| >= |pattern| { assert Matches(pattern, path[|path| - |pattern|..]); }
  }

  lemma {:induction false} StarsCount(pattern: seq<string>, path: seq<string>)
    requires forall i :: 0 <= i < |pattern| ==> pattern[i] == "*"
    ensures Matches(pattern, path) <==> |path| == |pattern|
    decreases pattern
  {
    if pattern != [] && path != [] { StarsCount(pattern[1..], path[1..]); }
  }

  // ---- The matcher ----

  /** Every star of two at the front may stand for nothing. */
  lemma {:induction false} OnlyDoubleStars(pattern: seq<string>)
    ensures Matches(pattern, []) <==> forall i :: 0 <= i < |pattern| ==> pattern[i] == "**"
  {
    if pattern != [] {
      var none: seq<string> := [];
      assert forall i :: 0 <= i <= |none| ==> none[i..] == none;
      OnlyDoubleStars(pattern[1..]);
      if pattern[0] == "**" {
        assert Matches(pattern, none) <==> Matches(pattern[1..], none[0..]);
        assert forall i :: 0 <= i < |pattern[1..]| ==> pattern[1..][i] == pattern[i + 1];
        assert forall i :: 0 < i < |pattern| ==> pattern[i] == pattern[1..][i - 1];
      }
    }
  }

  lemma {:induction false} MatchesNext(pattern: seq<string>, pi: nat, path: seq<string>, si: nat)
    requires pi < |pattern| && si < |path| && pattern[pi] != "**"
    ensures Matches(pattern[pi..], path[si..]) <==>
      (pattern[pi] == "*" || Decode(pattern[pi]) == path[si]) && Matches(pattern[pi + 1..], path[si + 1..])
  {
    assert pattern[pi..][0] == pattern[pi] && pattern[pi..][1..] == pattern[pi + 1..];
    assert path[si..][0] == path[si] && path[si..][1..] == path[si + 1..];
  }

  lemma {:induction false} DoubleStarTakes(pattern: seq<string>, pi: nat, path: seq<string>, si: nat, i: nat)
    requires pi < |pattern| && si <= i <= |path| && pattern[pi] == "**"
    requires Matches(pattern[pi + 1..], path[i..])
    ensures Matches(pattern[pi..], path[si..])
  {
    assert pattern[pi..][0] == pattern[pi] && pattern[pi..][1..] == pattern[pi + 1..];
    assert path[si..][i - si..] == path[i..];
  }

  /** Matches the rest of a pattern against the rest of a path. */
  method MatchParts(pattern: seq<string>, pi0: nat, path: seq<string>, si0: nat) returns (matched: bool)
    requires pi0 <= |pattern| && si0 <= |path|
    ensures matched <==> Matches(pattern[pi0..], path[si0..])
    decreases |pattern| - pi0
  {
    var pi, si := pi0, si0;
    ghost var wanted := Matches(pattern[pi0..], path[si0..]);
    while pi < |pattern| && si < |path|
      invariant pi0 <= pi <= |pattern| && si0 <= si <= |path|
      invariant Matches(pattern[pi..], path[si..]) <==> wanted
    {
      var seg := pattern[pi];
      if seg == "**" {
        for i := si to |path| + 1
          invariant forall j :: si <= j < i ==> !Matches(pattern[pi + 1..], path[j..])
        {
          var found := MatchParts(pattern, pi + 1, path, i);
          if found {
            DoubleStarTakes(pattern, pi, path, si, i);
            return true;
          }
        }
        DoubleStarFails(pattern, pi, path, si);
        return false;
      }
      MatchesNext(pattern, pi, path, si);
      if seg != "*" {
        var decoded := Decode(seg);
        if decoded != path[si] { return false; }
      }
      pi, si := pi + 1, si + 1;
    }
    var end := SkipDoubleStars(pattern, pi);
    TrailingStars(pattern, pi, end, path[si..]);
    return end == |pattern| && si == |path|;
  }

  method SkipDoubleStars(pattern: seq<string>, start: nat) returns (pi: nat)
    requires start <= |pattern|
    ensures start <= pi <= |pattern| && (pi < |pattern| ==> pattern[pi] != "**")
    ensures forall i :: start <= i < pi ==> pattern[i] == "**"
  {
    pi := start;
    while pi < |pattern| && pattern[pi] == "**"
      invariant start <= pi <= |pattern|
      invariant forall i :: start <= i < pi ==> pattern[i] == "**"
    {
      pi := pi + 1;
    }
  }

  lemma {:induction false} DoubleStarFails(pattern: seq<string>, pi: nat, path: seq<string>, si: nat)
    requires pi < |pattern| && pattern[pi] == "**" && si <= |path|
    requires forall j :: si <= j <= |path| ==> !Matches(pattern[pi + 1..], path[j..])
    ensures !Matches(pattern[pi..], path[si..])
  {
    assert pattern[pi..][0] == pattern[pi] && pattern[pi..][1..] == pattern[pi + 1..];
    forall i | 0 <= i <= |path[si..]| ensures !Matches(pattern[pi..][1..], path[si..][i..]) {
      assert path[si..][i..] == path[si + i..];
    }
  }

  /** Where one of the two lists has run out, what is left matches if it is stars of two and no path. */
  lemma {:induction false} TrailingStars(pattern: seq<string>, at: nat, pi: nat, rest: seq<string>)
    requires at <= pi <= |pattern| && (at == |pattern| || rest == [])
    requires forall i :: at <= i < pi ==> pattern[i] == "**"
    requires pi < |pattern| ==> pattern[pi] != "**"
    ensures Matches(pattern[at..], rest) <==> pi == |pattern| && rest == []
  {
    if rest == [] {
      OnlyDoubleStars(pattern[at..]);
      assert forall i :: 0 <= i < |pattern[at..]| ==> pattern[at..][i] == pattern[at + i];
      if pi < |pattern| { assert pattern[at..][pi - at] != "**"; }
    }
  }

  /**
   * A path matches a pattern exactly when it can be cut into pieces, one for each pattern segment: any number
   * of segments for `**`, one for `*`, and for a literal the one segment it decodes to.
   */
  method GlobMatch(pattern: string, path: string) returns (matched: bool)
    ensures matched <==> Fits(pattern, path)
  {
    var patternParts, pathParts := SplitPath(pattern), SplitPath(path);
    matched := MatchParts(patternParts, 0, pathParts, 0);
    MatchesExactly(patternParts, pathParts);
    assert patternParts[0..] == patternParts && pathParts[0..] == pathParts;
  }
}
