/** The gate that lets a planned child narrow its parent's scope. It matches the child *pattern* as
    if it were a path, so the question is when that implies containment of the matched paths. */
module ScopeGate {
  import opened Splitting
  import opened Covering
  import opened Glob

  predicate ParentScopeAllowsChild(parent: string, child: string)
  {
    parent == "**/*" || parent == child || PathAllowed([parent], child)
  }

  predicate ScopeAllowedByParent(child: string, parents: seq<string>)
  {
    exists i :: 0 <= i < |parents| && ParentScopeAllowsChild(parents[i], child)
  }

  predicate ScopesWithinParent(children: seq<string>, parents: seq<string>)
  {
    forall i :: 0 <= i < |children| ==> ScopeAllowedByParent(children[i], parents)
  }

  /** Every path of the child is a path of the parent. */
  ghost predicate Contained(parent: string, child: string)
  {
    forall path :: GlobMatches(child, path) ==> GlobMatches(parent, path)
  }

  // ---- Covering: a test on the two patterns alone that decides containment ----

  predicate IsQuestion(c: char) { c == '?' }

  /** A segment pattern that matches every single segment. */
  predicate IsAnySegment(segment: string)
  {
    segment != "" && segment != "**" && forall i :: 0 <= i < |segment| ==> segment[i] == '*'
  }

  predicate CharCovers(p: char, c: char) { c != '*' && (p == '?' || p == c) }

  function SpreadChars(pattern: string): string
  {
    Spread(pattern, false, '*', IsStar, IsQuestion)
  }

  function SpreadSegments(pattern: seq<string>): seq<string>
  {
    Spread(pattern, false, "**", IsDoubleStar, IsAnySegment)
  }

  predicate SegmentCovers(parent: string, child: string)
  {
    child != "**" && Matches(SpreadChars(parent), child, IsStar, CharCovers)
  }

  predicate AllDoubleStars(pattern: seq<string>)
  {
    forall i :: 0 <= i < |pattern| ==> pattern[i] == "**"
  }

  /** A path has at least one segment, so a pattern of `**` alone means "one segment and more". */
  function Dense(pattern: seq<string>): seq<string>
  {
    if AllDoubleStars(pattern) then ["*"] + pattern else pattern
  }

  /** The parent pattern, spread out, splits the child pattern, wildcards of the child going to
      wildcards of the parent that may take as much. */
  predicate Covers(parent: string, child: string)
  {
    Matches(SpreadSegments(SplitSlash(parent)), Dense(SplitSlash(child)), IsDoubleStar, SegmentCovers)
  }

  /** The guard under which the gate is right: what it accepts is covered. */
  predicate GateExact(parent: string, child: string)
  {
    ParentScopeAllowsChild(parent, child) ==> Covers(parent, child)
  }

  // ---- Soundness: covering proves containment ----

  lemma StarsMatch(pattern: string, segment: string)
    requires forall i :: 0 <= i < |pattern| ==> pattern[i] == '*'
    requires pattern != ""
    ensures Splits(pattern, segment, IsStar, CharTakes)
  {
    SegmentMatchesInstance(pattern, '*');
    var instance := Instance(pattern, '*');
    var k := SplitsHead(pattern, instance, IsStar, CharTakes);
    NothingSplitsStars(pattern);
    AbsorbMore(pattern, segment, "", IsStar, CharTakes);
    assert segment + "" == segment;
  }

  lemma {:induction false} NothingSplitsStars(pattern: string)
    requires forall i :: 0 <= i < |pattern| ==> pattern[i] == '*'
    ensures Splits(pattern, "", IsStar, CharTakes)
    decreases |pattern|
  {
    var none := "";
    if pattern == "" {
      SplitsNil(none, IsStar, CharTakes);
    } else {
      NothingSplitsStars(pattern[1..]);
      assert none[0..] == none;
      SplitsPrepend(pattern, none, 0, IsStar, CharTakes);
    }
  }

  lemma AnySegmentMatches(pattern: string, segment: string)
    requires IsAnySegment(pattern)
    ensures SegmentMatch(pattern, segment)
  {
    StarsMatch(pattern, segment);
    SegmentMatchMeaning(pattern, segment);
  }

  lemma SegmentCoversContains(parent: string, child: string, segment: string)
    requires SegmentCovers(parent, child)
    requires SegmentMatch(child, segment)
    ensures SegmentMatch(parent, segment)
  {
    SegmentMatchMeaning(child, segment);
    SegmentMatchMeaning(parent, segment);
    MatchesMeaning(SpreadChars(parent), child, IsStar, CharCovers);
    SplitsCompose(SpreadChars(parent), child, segment, IsStar, CharCovers, CharTakes, IsStar, CharTakes);
    SpreadSound(parent, '*', segment, IsStar, IsQuestion, CharTakes);
  }

  /** Requiring one segment at least changes nothing for a path. */
  lemma DenseMatchesPaths(pattern: seq<string>, path: seq<string>)
    requires pattern != [] && path != []
    ensures Splits(Dense(pattern), path, IsDoubleStar, SegmentMatch) <==>
            Splits(pattern, path, IsDoubleStar, SegmentMatch)
  {
    var dense := ["*"] + pattern;
    if AllDoubleStars(pattern) {
      assert dense[1..] == pattern;
      if Splits(dense, path, IsDoubleStar, SegmentMatch) {
        var k := SplitsHead(dense, path, IsDoubleStar, SegmentMatch);
        AbsorbMore(pattern, path[..1], path[1..], IsDoubleStar, SegmentMatch);
        assert path[..1] + path[1..] == path;
      }
      var none: seq<string> := [];
      OnlyDoubleStarsMatchNothing(pattern);
      AbsorbMore(pattern, path[1..], none, IsDoubleStar, SegmentMatch);
      assert path[1..] + none == path[1..];
      StarMatchesSegment(path[0]);
      SplitsPrepend(dense, path, 1, IsDoubleStar, SegmentMatch);
    }
  }

  lemma CoversContains(parent: string, child: string)
    requires Covers(parent, child)
    ensures Contained(parent, child)
  {
    forall path | GlobMatches(child, path)
      ensures GlobMatches(parent, path)
    {
      var ps, cs, segments := SplitSlash(parent), SplitSlash(child), SplitSlash(path);
      GlobMatchesMeaning(child, path);
      GlobMatchesMeaning(parent, path);
      DenseMatchesPaths(cs, segments);
      MatchesMeaning(SpreadSegments(ps), Dense(cs), IsDoubleStar, SegmentCovers);
      forall p, c, x | SegmentCovers(p, c) && SegmentMatch(c, x)
        ensures SegmentMatch(p, x)
      {
        SegmentCoversContains(p, c, x);
      }
      SplitsCompose(SpreadSegments(ps), Dense(cs), segments,
                    IsDoubleStar, SegmentCovers, SegmentMatch, IsDoubleStar, SegmentMatch);
      forall p, x | IsAnySegment(p)
        ensures SegmentMatch(p, x)
      {
        AnySegmentMatches(p, x);
      }
      SpreadSound(ps, "**", segments, IsDoubleStar, IsAnySegment, SegmentMatch);
    }
  }

  // ---- A condition that is easy to see: no `?` of the parent can land on a `*` of the child, and no
  // ---- one-segment pattern of the parent on a `**` of the child ----

  predicate Plain(parent: string, child: string)
  {
    && ('?' !in parent || '*' !in child)
    && ("**" in SplitSlash(child) ==>
          forall segment :: segment in SplitSlash(parent) && segment != "**" ==> !SegmentMatch(segment, "**"))
  }

  lemma SegmentMatchCovers(parent: string, child: string)
    requires SegmentMatch(parent, child) && child != "**"
    requires '?' !in parent || '*' !in child
    ensures SegmentCovers(parent, child)
  {
    SegmentMatchMeaning(parent, child);
    SplitsTransport(parent, child, child, IsStar, CharTakes, CharCovers);
    SpreadAccepts(parent, false, '*', child, IsStar, IsQuestion, CharCovers);
    MatchesMeaning(SpreadChars(parent), child, IsStar, CharCovers);
  }

  lemma CoversItself(pattern: string)
    ensures Covers(pattern, pattern)
  {
    var ps := SplitSlash(pattern);
    forall p | p in ps && !IsDoubleStar(p)
      ensures SegmentCovers(p, p)
    {
      CoversSelf(p, IsStar, CharCovers);
      SpreadAccepts(p, false, '*', p, IsStar, IsQuestion, CharCovers);
      MatchesMeaning(SpreadChars(p), p, IsStar, CharCovers);
    }
    CoversSelf(ps, IsDoubleStar, SegmentCovers);
    if AllDoubleStars(ps) {
      AbsorbMore(ps, ["*"], ps, IsDoubleStar, SegmentCovers);
    }
    SpreadAccepts(ps, false, "**", Dense(ps), IsDoubleStar, IsAnySegment, SegmentCovers);
    MatchesMeaning(SpreadSegments(ps), Dense(ps), IsDoubleStar, SegmentCovers);
  }

  lemma PlainMatchCovers(parent: string, child: string)
    requires Plain(parent, child)
    requires GlobMatches(parent, child)
    ensures Covers(parent, child)
  {
    var ps, cs := SplitSlash(parent), SplitSlash(child);
    GlobMatchesMeaning(parent, child);
    SplitSlashChars(parent);
    SplitSlashChars(child);
    forall p, j | p in ps && 0 <= j < |cs| && !IsDoubleStar(p) && SegmentMatch(p, cs[j])
      ensures SegmentCovers(p, cs[j])
    {
      assert cs[j] in cs;
      SegmentMatchCovers(p, cs[j]);
    }
    SplitsTransport(ps, cs, cs, IsDoubleStar, SegmentMatch, SegmentCovers);
    if AllDoubleStars(cs) {
      assert cs[0] in cs;
      SplitsNil(cs, IsDoubleStar, SegmentCovers);
      var k := SplitsHead(ps, cs, IsDoubleStar, SegmentCovers);
      AbsorbMore(ps, ["*"], cs, IsDoubleStar, SegmentCovers);
    }
    SpreadAccepts(ps, false, "**", Dense(cs), IsDoubleStar, IsAnySegment, SegmentCovers);
    MatchesMeaning(SpreadSegments(ps), Dense(cs), IsDoubleStar, SegmentCovers);
  }

  // ---- Completeness: a rejected child has a path of its own that escapes the parent ----

  /** The child pattern with every wildcard replaced by a letter the parent does not mention. */
  function Instance(pattern: string, z: char): (path: string)
    ensures |path| == |pattern|
    ensures forall i :: 0 <= i < |pattern| ==> path[i] == if pattern[i] in "*?" then z else pattern[i]
  {
    if pattern == "" then ""
    else [if pattern[0] in "*?" then z else pattern[0]] + Instance(pattern[1..], z)
  }

  lemma InstanceFirst(pattern: string, z: char)
    requires pattern != "" && z != '/'
    ensures Instance(pattern, z) == [if pattern[0] in "*?" then z else pattern[0]] + Instance(pattern[1..], z)
    ensures Instance(pattern, z)[1..] == Instance(pattern[1..], z)
    ensures Instance(pattern, z)[0] == '/' <==> pattern[0] == '/'
  {
  }

  lemma InstanceNothing(z: char)
    ensures Instance("", z) == ""
  {
  }

  lemma SplitSlashStep(text: string)
    requires text != ""
    ensures var rest := SplitSlash(text[1..]);
      SplitSlash(text) == if text[0] == '/' then [""] + rest else [[text[0]] + rest[0]] + rest[1..]
  {
  }

  predicate InstanceOf(segments: seq<string>, pattern: seq<string>, z: char)
  {
    |segments| == |pattern| && forall i :: 0 <= i < |pattern| ==> segments[i] == Instance(pattern[i], z)
  }

  lemma {:induction false} InstanceSegments(pattern: string, z: char)
    requires z != '/'
    ensures InstanceOf(SplitSlash(Instance(pattern, z)), SplitSlash(pattern), z)
    decreases |pattern|
  {
    if pattern != "" {
      hide SplitSlash, Instance;
      var tail := pattern[1..];
      var first := SplitSlash(tail)[0];
      InstanceSegments(tail, z);
      InstanceFirst(pattern, z);
      SplitSlashStep(pattern);
      SplitSlashStep(Instance(pattern, z));
      InstanceFirst([pattern[0]] + first, z);
      assert ([pattern[0]] + first)[1..] == first;
      InstanceNothing(z);
    } else {
      assert SplitSlash(pattern) == [""];
    }
  }

  lemma {:induction false} SegmentMatchesInstance(pattern: string, z: char)
    ensures Splits(pattern, Instance(pattern, z), IsStar, CharTakes)
    decreases |pattern|
  {
    var instance := Instance(pattern, z);
    if pattern == "" {
      SplitsNil(instance, IsStar, CharTakes);
    } else {
      SegmentMatchesInstance(pattern[1..], z);
      assert instance[1..] == Instance(pattern[1..], z);
      SplitsPrepend(pattern, instance, 1, IsStar, CharTakes);
    }
  }

  lemma {:induction false} SegmentsMatchInstance(pattern: seq<string>, path: seq<string>, z: char)
    requires |path| == |pattern|
    requires forall i :: 0 <= i < |pattern| ==> path[i] == Instance(pattern[i], z)
    ensures Splits(pattern, path, IsDoubleStar, SegmentMatch)
    decreases |pattern|
  {
    if pattern == [] {
      SplitsNil(path, IsDoubleStar, SegmentMatch);
    } else {
      SegmentsMatchInstance(pattern[1..], path[1..], z);
      SegmentMatchesInstance(pattern[0], z);
      SegmentMatchMeaning(pattern[0], path[0]);
      SplitsPrepend(pattern, path, 1, IsDoubleStar, SegmentMatch);
    }
  }

  /** The child matches its own instance. */
  lemma ChildMatchesInstance(child: string, z: char)
    requires z != '/'
    ensures GlobMatches(child, Instance(child, z))
  {
    InstanceSegments(child, z);
    SegmentsMatchInstance(SplitSlash(child), SplitSlash(Instance(child, z)), z);
    GlobMatchesMeaning(child, Instance(child, z));
  }

  /** A parent that matches the instance matches the child pattern itself: the fresh letters can
      only have been absorbed by wildcards. */
  lemma InstanceMatchAccepts(parent: string, child: string, z: char)
    requires z != '/' && z !in parent
    requires GlobMatches(parent, Instance(child, z))
    ensures GlobMatches(parent, child)
  {
    var ps, cs, xs := SplitSlash(parent), SplitSlash(child), SplitSlash(Instance(child, z));
    GlobMatchesMeaning(parent, Instance(child, z));
    GlobMatchesMeaning(parent, child);
    InstanceSegments(child, z);
    SplitSlashChars(parent);
    forall p, j | p in ps && 0 <= j < |xs| && !IsDoubleStar(p) && SegmentMatch(p, xs[j])
      ensures SegmentMatch(p, cs[j])
    {
      SegmentMatchMeaning(p, xs[j]);
      SegmentMatchMeaning(p, cs[j]);
      SplitsTransport(p, xs[j], cs[j], IsStar, CharTakes, CharTakes);
    }
    SplitsTransport(ps, xs, cs, IsDoubleStar, SegmentMatch, SegmentMatch);
  }

  lemma StarMatchesSegment(segment: string)
    ensures SegmentMatch("*", segment)
  {
    SplitsNil<char, char>("", IsStar, CharTakes);
    assert "*"[1..] == "" && segment[|segment|..] == "";
    SplitsPrepend("*", segment, |segment|, IsStar, CharTakes);
    SegmentMatchMeaning("*", segment);
  }

  /** The pattern the gate treats as "everything" does match every path. */
  lemma EverythingMatches(path: string)
    ensures GlobMatches("**/*", path)
  {
    var segments := SplitSlash(path);
    SplitSlashFirst("**", "*");
    SplitSlashOne("*");
    assert "**" + "/" + "*" == "**/*" && ["**"] + ["*"] == ["**", "*"];
    StarMatchesSegment(segments[|segments| - 1]);
    assert SegmentsMatch(["**", "*"], segments, 2, |segments|);
    assert SegmentsMatch(["**", "*"], segments, 1, |segments| - 1);
  }

  lemma MatchAllowed(pattern: string, path: string)
    ensures PathAllowed([pattern], path) <==> GlobMatches(pattern, path)
  {
    assert [pattern][0] == pattern;
  }

  /** Completeness, with no side condition: whatever the gate rejects really is wider. The escaping
      path is the child pattern with a letter foreign to the parent in place of each wildcard. */
  lemma RejectedChildEscapes(parent: string, child: string, z: char)
    requires z != '/' && z !in parent
    requires !ParentScopeAllowsChild(parent, child)
    ensures GlobMatches(child, Instance(child, z)) && !GlobMatches(parent, Instance(child, z))
    ensures !Contained(parent, child)
  {
    ChildMatchesInstance(child, z);
    MatchAllowed(parent, child);
    if GlobMatches(parent, Instance(child, z)) {
      InstanceMatchAccepts(parent, child, z);
    }
  }

  /** Soundness under the guard. */
  lemma AcceptedChildContained(parent: string, child: string)
    requires GateExact(parent, child)
    requires ParentScopeAllowsChild(parent, child)
    ensures Contained(parent, child)
  {
    CoversContains(parent, child);
  }

  /** A child's scope list is its parent's own, or each of its patterns is covered by some pattern of the
      parent that accepts it. */
  predicate NarrowsExactly(children: seq<string>, parents: seq<string>)
  {
    children == parents ||
    forall i :: 0 <= i < |children| ==>
      exists j :: 0 <= j < |parents| && ParentScopeAllowsChild(parents[j], children[i])
                  && GateExact(parents[j], children[i])
  }

  /** Scope lists: one exact accepting pattern per child pattern is enough for the child's list to allow no
      more. */
  lemma NarrowedScopesAllowLess(children: seq<string>, parents: seq<string>, path: string)
    requires NarrowsExactly(children, parents)
    requires PathAllowed(children, path)
    ensures PathAllowed(parents, path)
  {
    if children != parents {
      var i :| 0 <= i < |children| && GlobMatches(children[i], path);
      var j :| 0 <= j < |parents| && ParentScopeAllowsChild(parents[j], children[i])
               && GateExact(parents[j], children[i]);
      AcceptedChildContained(parents[j], children[i]);
    }
  }
}
