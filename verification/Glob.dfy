/** The glob scope language: `**` spans path segments, `*` and `?` stay inside one segment. */
module Glob {
  import opened Splitting

  /** The text between slashes; even the empty text has one segment. */
  function SplitSlash(text: string): (segments: seq<string>)
    ensures segments != []
  {
    if text == "" then [""]
    else
      var rest := SplitSlash(text[1..]);
      if text[0] == '/' then [""] + rest else [[text[0]] + rest[0]] + rest[1..]
  }

  lemma {:induction false} SplitSlashChars(text: string)
    ensures forall segment, c :: segment in SplitSlash(text) && c in segment ==> c != '/' && c in text
    decreases |text|
  {
    if text != "" {
      SplitSlashChars(text[1..]);
      var rest := SplitSlash(text[1..]);
      assert rest[0] in rest;
      assert forall c :: c in text[1..] ==> c in text;
      forall segment, c | segment in SplitSlash(text) && c in segment
        ensures c != '/' && c in text
      {
        if segment !in rest {
          assert c == text[0] || c in rest[0];
        }
      }
    }
  }

  lemma {:induction false} SplitSlashOne(segment: string)
    requires '/' !in segment
    ensures SplitSlash(segment) == [segment]
    decreases |segment|
  {
    if segment != "" {
      SplitSlashOne(segment[1..]);
      assert [segment[0]] + segment[1..] == segment;
    }
  }

  lemma {:induction false} SplitSlashFirst(segment: string, rest: string)
    requires '/' !in segment
    ensures SplitSlash(segment + "/" + rest) == [segment] + SplitSlash(rest)
    decreases |segment|
  {
    var text := segment + "/" + rest;
    if segment == "" {
      assert text[1..] == rest;
    } else {
      SplitSlashFirst(segment[1..], rest);
      assert text[1..] == segment[1..] + "/" + rest;
      assert [segment[0]] + segment[1..] == segment;
      assert ([segment[1..]] + SplitSlash(rest))[1..] == SplitSlash(rest);
    }
  }

  predicate IsStar(c: char) { c == '*' }

  predicate CharTakes(p: char, c: char) { p == '?' || p == c }

  predicate IsDoubleStar(segment: string) { segment == "**" }

  predicate PathAllowed(patterns: seq<string>, path: string)
  {
    exists i :: 0 <= i < |patterns| && GlobMatches(patterns[i], path)
  }

  predicate GlobMatches(pattern: string, path: string)
  {
    SegmentsMatch(SplitSlash(pattern), SplitSlash(path), 0, 0)
  }

  predicate SegmentsMatch(pattern: seq<string>, path: seq<string>, pi: nat, si: nat)
    decreases |pattern| - pi
  {
    if pi >= |pattern| then si >= |path|
    else if si >= |path| then forall i :: pi <= i < |pattern| ==> pattern[i] == "**"
    else if pattern[pi] == "**" then
      var rest := pi + 1;
      exists next :: si <= next <= |path| && SegmentsMatch(pattern, path, rest, next)
    else
      SegmentMatch(pattern[pi], path[si]) && SegmentsMatch(pattern, path, pi + 1, si + 1)
  }

  predicate SegmentMatch(pattern: string, segment: string)
  {
    SegmentCharsMatch(pattern, segment, 0, 0)
  }

  predicate SegmentCharsMatch(pattern: string, segment: string, pi: nat, si: nat)
    decreases |pattern| - pi
  {
    if pi >= |pattern| then si >= |segment|
    else if pattern[pi] == '*' then
      var remaining := if si <= |segment| then |segment| - si else 0;
      var rest := pi + 1;
      exists next :: si <= next <= si + remaining && SegmentCharsMatch(pattern, segment, rest, next)
    else if si >= |segment| then false
    else if pattern[pi] == '?' then SegmentCharsMatch(pattern, segment, pi + 1, si + 1)
    else pattern[pi] == segment[si] && SegmentCharsMatch(pattern, segment, pi + 1, si + 1)
  }

  // ---- The matcher computes the declarative meaning ----

  lemma {:induction false} SegmentCharsMatchMeaning(pattern: string, segment: string, pi: nat, si: nat)
    requires pi <= |pattern| && si <= |segment|
    ensures SegmentCharsMatch(pattern, segment, pi, si) <==> Splits(pattern[pi..], segment[si..], IsStar, CharTakes)
    decreases |pattern| - pi
  {
    var p, s := pattern[pi..], segment[si..];
    if p == [] {
      SplitsNil(s, IsStar, CharTakes);
    } else {
      SplitsCons(p, s, IsStar, CharTakes);
      var rest := pi + 1;
      assert p[1..] == pattern[rest..];
      forall next | si <= next <= |segment|
        ensures SegmentCharsMatch(pattern, segment, rest, next) <==> Splits(p[1..], s[next - si..], IsStar, CharTakes)
      {
        assert s[next - si..] == segment[next..];
        SegmentCharsMatchMeaning(pattern, segment, pi + 1, next);
      }
      forall k | 0 <= k <= |s|
        ensures SegmentCharsMatch(pattern, segment, pi + 1, si + k) <==> Splits(p[1..], s[k..], IsStar, CharTakes)
      {
        assert s[(si + k) - si..] == s[k..];
      }
    }
  }

  lemma SegmentMatchMeaning(pattern: string, segment: string)
    ensures SegmentMatch(pattern, segment) <==> Splits(pattern, segment, IsStar, CharTakes)
  {
    SegmentCharsMatchMeaning(pattern, segment, 0, 0);
    assert pattern[0..] == pattern && segment[0..] == segment;
  }

  /** The early exit for an exhausted path agrees with the general rule. */
  lemma {:induction false} OnlyDoubleStarsMatchNothing(pattern: seq<string>)
    ensures (forall i :: 0 <= i < |pattern| ==> pattern[i] == "**") <==> Splits(pattern, [], IsDoubleStar, SegmentMatch)
    decreases |pattern|
  {
    if pattern == [] {
      SplitsNil([], IsDoubleStar, SegmentMatch);
    } else {
      var none: seq<string> := [];
      SplitsCons(pattern, none, IsDoubleStar, SegmentMatch);
      OnlyDoubleStarsMatchNothing(pattern[1..]);
      assert none[0..] == none;
      assert forall i :: 0 < i < |pattern| ==> pattern[i] == pattern[1..][i - 1];
    }
  }

  lemma {:induction false} SegmentsMatchMeaning(pattern: seq<string>, path: seq<string>, pi: nat, si: nat)
    requires pi <= |pattern| && si <= |path|
    ensures SegmentsMatch(pattern, path, pi, si) <==> Splits(pattern[pi..], path[si..], IsDoubleStar, SegmentMatch)
    decreases |pattern| - pi
  {
    var p, s := pattern[pi..], path[si..];
    if p == [] {
      SplitsNil(s, IsDoubleStar, SegmentMatch);
    } else if s == [] {
      OnlyDoubleStarsMatchNothing(p);
      assert forall i :: pi <= i < |pattern| ==> pattern[i] == p[i - pi];
    } else {
      SplitsCons(p, s, IsDoubleStar, SegmentMatch);
      var rest := pi + 1;
      assert p[1..] == pattern[rest..];
      forall next | si <= next <= |path|
        ensures SegmentsMatch(pattern, path, rest, next) <==> Splits(p[1..], s[next - si..], IsDoubleStar, SegmentMatch)
      {
        assert s[next - si..] == path[next..];
        SegmentsMatchMeaning(pattern, path, pi + 1, next);
      }
      forall k | 0 <= k <= |s|
        ensures SegmentsMatch(pattern, path, pi + 1, si + k) <==> Splits(p[1..], s[k..], IsDoubleStar, SegmentMatch)
      {
        assert s[(si + k) - si..] == s[k..];
      }
    }
  }

  /** A path matches a pattern exactly when its segments split into runs absorbed by `**` and
      segments matched one for one. */
  lemma GlobMatchesMeaning(pattern: string, path: string)
    ensures GlobMatches(pattern, path) <==>
            Splits(SplitSlash(pattern), SplitSlash(path), IsDoubleStar, SegmentMatch)
  {
    var p, s := SplitSlash(pattern), SplitSlash(path);
    SegmentsMatchMeaning(p, s, 0, 0);
    assert p[0..] == p && s[0..] == s;
  }

  /** A path is allowed exactly if one of the patterns matches it so. */
  lemma PathAllowedMeaning(patterns: seq<string>, path: string)
    ensures PathAllowed(patterns, path) <==>
            exists pattern :: pattern in patterns
              && Splits(SplitSlash(pattern), SplitSlash(path), IsDoubleStar, SegmentMatch)
  {
    hide GlobMatches, Splits;
    forall i | 0 <= i < |patterns|
      ensures patterns[i] in patterns
      ensures GlobMatches(patterns[i], path) <==>
              Splits(SplitSlash(patterns[i]), SplitSlash(path), IsDoubleStar, SegmentMatch)
    {
      GlobMatchesMeaning(patterns[i], path);
    }
  }
}
