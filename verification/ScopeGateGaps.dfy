/** Where the gate is wider than containment: three families of parents for which some accepted
    children escape, each with the exact condition under which an accepted child stays inside. */
module ScopeGateGaps {
  import opened Splitting
  import opened Covering
  import opened Glob
  import opened ScopeGate
  import opened Containment

  lemma TwoSegments(first: string, second: string)
    requires '/' !in first && '/' !in second
    ensures SplitSlash(first + "/" + second) == [first, second]
  {
    SplitSlashFirst(first, second);
    SplitSlashOne(second);
  }

  lemma ThreeSegments(first: string, second: string, third: string)
    requires '/' !in first && '/' !in second && '/' !in third
    ensures SplitSlash(first + "/" + second + "/" + third) == [first, second, third]
  {
    TwoSegments(second, third);
    SplitSlashFirst(first, second + "/" + third);
    assert first + "/" + second + "/" + third == first + "/" + (second + "/" + third);
  }

  lemma {:induction false} LiteralMatchesItself(literal: string, at: nat)
    requires at <= |literal|
    requires '*' !in literal && '?' !in literal
    ensures SegmentCharsMatch(literal, literal, at, at)
    decreases |literal| - at
  {
    if at < |literal| {
      assert literal[at] in literal;
      LiteralMatchesItself(literal, at + 1);
    }
  }

  lemma {:induction false} LiteralMatchesOnlyItself(literal: string, text: string, at: nat)
    requires at <= |literal| && at <= |text|
    requires '*' !in literal && '?' !in literal
    requires SegmentCharsMatch(literal, text, at, at)
    ensures literal[at..] == text[at..]
    decreases |literal| - at
  {
    if at < |literal| {
      assert literal[at] in literal;
      LiteralMatchesOnlyItself(literal, text, at + 1);
      assert literal[at..] == [literal[at]] + literal[at + 1..] && text[at..] == [text[at]] + text[at + 1..];
    }
  }

  predicate Literal(dir: string) { '/' !in dir && '*' !in dir && '?' !in dir }

  /** A one-segment wildcard accepts `**` below the same directory, which reaches deeper paths. */
  lemma StarAcceptsDoubleStar(dir: string, a: string, b: string)
    requires Literal(dir) && '/' !in a && '/' !in b
    ensures ParentScopeAllowsChild(dir + "/" + "*", dir + "/" + "**")
    ensures GlobMatches(dir + "/" + "**", dir + "/" + a + "/" + b)
    ensures !GlobMatches(dir + "/" + "*", dir + "/" + a + "/" + b)
    ensures !Contained(dir + "/" + "*", dir + "/" + "**")
  {
    TwoSegments(dir, "*");
    TwoSegments(dir, "**");
    ThreeSegments(dir, a, b);
    LiteralMatchesItself(dir, 0);
    StarMatchesSegment("**");
    assert SegmentsMatch([dir, "*"], [dir, "**"], 1, 1);
    MatchAllowed(dir + "/" + "*", dir + "/" + "**");
    assert SegmentsMatch([dir, "**"], [dir, a, b], 2, 3);
    assert SegmentsMatch([dir, "**"], [dir, a, b], 1, 1);
    assert !SegmentsMatch([dir, "*"], [dir, a, b], 1, 1);
  }

  /** `?` accepts `*`, which matches longer names. */
  lemma QuestionAcceptsStar(dir: string, name: string)
    requires Literal(dir) && '/' !in name && |name| != 1
    ensures ParentScopeAllowsChild(dir + "/" + "?", dir + "/" + "*")
    ensures GlobMatches(dir + "/" + "*", dir + "/" + name)
    ensures !GlobMatches(dir + "/" + "?", dir + "/" + name)
    ensures !Contained(dir + "/" + "?", dir + "/" + "*")
  {
    TwoSegments(dir, "?");
    TwoSegments(dir, "*");
    TwoSegments(dir, name);
    LiteralMatchesItself(dir, 0);
    assert SegmentCharsMatch("?", "*", 1, 1);
    assert SegmentsMatch([dir, "?"], [dir, "*"], 1, 1);
    MatchAllowed(dir + "/" + "?", dir + "/" + "*");
    StarMatchesSegment(name);
    assert SegmentsMatch([dir, "*"], [dir, name], 1, 1);
    assert !SegmentMatch("?", name);
    assert !SegmentsMatch([dir, "?"], [dir, name], 1, 1);
  }

  /** "Everything below a directory" accepts the bare `**`, which also matches the directory. */
  lemma BelowAcceptsBareDirectory(dir: string)
    requires Literal(dir)
    ensures ParentScopeAllowsChild(dir + "/" + "**" + "/" + "*", dir + "/" + "**")
    ensures GlobMatches(dir + "/" + "**", dir)
    ensures !GlobMatches(dir + "/" + "**" + "/" + "*", dir)
    ensures !Contained(dir + "/" + "**" + "/" + "*", dir + "/" + "**")
  {
    var below := dir + "/" + "**" + "/" + "*";
    ThreeSegments(dir, "**", "*");
    TwoSegments(dir, "**");
    SplitSlashOne(dir);
    LiteralMatchesItself(dir, 0);
    StarMatchesSegment("**");
    assert SegmentsMatch([dir, "**", "*"], [dir, "**"], 2, 1);
    assert SegmentsMatch([dir, "**", "*"], [dir, "**"], 1, 1);
    MatchAllowed(below, dir + "/" + "**");
    assert SegmentsMatch([dir, "**"], [dir], 1, 1);
    assert !SegmentsMatch([dir, "**", "*"], [dir], 1, 1);
  }

  /** What the gate asks of a child below a literal directory. */
  lemma AcceptedBelow(dir: string, rest: string, child: string)
    requires Literal(dir) && rest != "" && dir + "/" + rest != "**/*"
    requires ParentScopeAllowsChild(dir + "/" + rest, child)
    ensures SplitSlash(child)[0] == dir
    ensures Splits(SplitSlash(rest), SplitSlash(child)[1..], IsDoubleStar, SegmentMatch)
  {
    var parent, cs := dir + "/" + rest, SplitSlash(child);
    SplitSlashFirst(dir, rest);
    var ps := SplitSlash(parent);
    assert ps[1..] == SplitSlash(rest);
    assert dir != "**" by { assert "**"[0] == '*'; }
    if parent == child {
      forall p | p in ps[1..] && !IsDoubleStar(p)
        ensures SegmentMatch(p, p)
      {
        SegmentMatchesInstance(p, '*');
        CoversSelf(p, IsStar, CharTakes);
        SegmentMatchMeaning(p, p);
      }
      CoversSelf(ps[1..], IsDoubleStar, SegmentMatch);
    } else {
      MatchAllowed(parent, child);
      GlobMatchesMeaning(parent, child);
      var k := SplitsHead(ps, cs, IsDoubleStar, SegmentMatch);
      LiteralMatchesOnlyItself(dir, cs[0], 0);
    }
  }

  lemma TwoSegmentChild(dir: string, last: string, child: string, name: string)
    requires Literal(dir) && SplitSlash(child) == [dir, name] && name != "**" && last != "**" && '/' !in last
    requires forall x :: SegmentMatch(name, x) ==> SegmentMatch(last, x)
    ensures Contained(dir + "/" + last, child)
  {
    var parent := dir + "/" + last;
    TwoSegments(dir, last);
    assert dir != "**" by { assert "**"[0] == '*'; }
    forall path | GlobMatches(child, path)
      ensures GlobMatches(parent, path)
    {
      var segments := SplitSlash(path);
      GlobMatchesMeaning(child, path);
      FixedLength([dir, name], segments);
      Stands([dir, last], segments, IsDoubleStar, SegmentMatch);
      GlobMatchesMeaning(parent, path);
    }
  }

  // `dir/*` accepts patterns of two segments below the directory only; all of them are contained
  // but `dir/**`, which reaches deeper paths.
  lemma StarGap(dir: string, child: string)
    requires Literal(dir)
    requires ParentScopeAllowsChild(dir + "/" + "*", child)
    ensures |SplitSlash(child)| == 2 && SplitSlash(child)[0] == dir
    ensures Contained(dir + "/" + "*", child) <==> SplitSlash(child)[1] != "**"
  {
    var parent, cs := dir + "/" + "*", SplitSlash(child);
    TwoSegments(dir, "*");
    assert parent[|dir| + 1] == '*' && parent[|dir|] == '/' && "**/*"[2] == '/' && "**/*"[0] == '*';
    AcceptedBelow(dir, "*", child);
    SplitSlashOne("*");
    FixedLength(["*"], cs[1..]);
    if cs[1] == "**" {
      TwoSegments(dir, "**");
      assert cs == SplitSlash(dir + "/" + "**");
      StarAcceptsDoubleStar(dir, "", "");
    } else {
      forall x { StarMatchesSegment(x); }
      TwoSegmentChild(dir, "*", child, cs[1]);
    }
  }

  // `dir/?` accepts patterns of one character below the directory only; all of them are contained
  // but `dir/*`, which matches names of any length.
  lemma QuestionGap(dir: string, child: string)
    requires Literal(dir)
    requires ParentScopeAllowsChild(dir + "/" + "?", child)
    ensures |SplitSlash(child)| == 2 && SplitSlash(child)[0] == dir && |SplitSlash(child)[1]| == 1
    ensures Contained(dir + "/" + "?", child) <==> SplitSlash(child)[1] != "*"
  {
    var parent, cs := dir + "/" + "?", SplitSlash(child);
    TwoSegments(dir, "?");
    assert parent[|dir| + 1] == '?' && forall i :: 0 <= i < 4 ==> "**/*"[i] != '?';
    AcceptedBelow(dir, "?", child);
    SplitSlashOne("?");
    FixedLength(["?"], cs[1..]);
    OneCharacter(cs[1]);
    if cs[1] == "*" {
      TwoSegments(dir, "*");
      assert cs == SplitSlash(dir + "/" + "*");
      QuestionAcceptsStar(dir, "");
    } else {
      forall x | SegmentMatch(cs[1], x)
        ensures SegmentMatch("?", x)
      {
        SingleMatchesSingle(cs[1], x);
      }
      TwoSegmentChild(dir, "?", child, cs[1]);
    }
  }

  lemma OneCharacter(text: string)
    ensures SegmentMatch("?", text) <==> |text| == 1
  {
    assert SegmentCharsMatch("?", text, 1, 1) <==> 1 >= |text|;
  }

  lemma SingleMatchesSingle(pattern: string, text: string)
    requires |pattern| == 1 && pattern != "*" && SegmentMatch(pattern, text)
    ensures SegmentMatch("?", text)
  {
    assert SegmentCharsMatch(pattern, text, 1, 1);
    OneCharacter(text);
  }

  lemma BareDirectoryEscapes(dir: string, parent: string, child: string)
    requires Literal(dir) && SplitSlash(parent) == [dir, "**", "*"]
    requires SplitSlash(child)[0] == dir && AllDoubleStars(SplitSlash(child)[1..])
    ensures GlobMatches(child, dir) && !GlobMatches(parent, dir)
  {
    var cs := SplitSlash(child);
    SplitSlashOne(dir);
    LiteralMatchesItself(dir, 0);
    OnlyDoubleStarsMatchNothing(cs[1..]);
    assert [dir][1..] == [];
    SplitsPrepend(cs, [dir], 1, IsDoubleStar, SegmentMatch);
    GlobMatchesMeaning(child, dir);
    assert [dir, "**", "*"][2] == "*" && |"*"| != |"**"|;
    assert !SegmentsMatch([dir, "**", "*"], [dir], 1, 1);
  }

  // `dir/**/*` accepts patterns below the directory only; an accepted child is contained exactly when
  // some segment after the directory is not `**`, for otherwise it matches the bare directory.
  lemma BelowGap(dir: string, child: string)
    requires Literal(dir)
    requires ParentScopeAllowsChild(dir + "/" + "**/*", child)
    ensures SplitSlash(child)[0] == dir && |SplitSlash(child)| >= 2
    ensures Contained(dir + "/" + "**/*", child) <==> !AllDoubleStars(SplitSlash(child)[1..])
  {
    var parent, cs := dir + "/" + "**/*", SplitSlash(child);
    TwoSegments("**", "*");
    assert "**" + "/" + "*" == "**/*";
    SplitSlashFirst(dir, "**/*");
    assert SplitSlash(parent) == [dir, "**", "*"];
    AcceptedBelow(dir, "**/*", child);
    AtLeastTwo(["**", "*"], cs[1..]);
    assert dir != "**" by { assert "**"[0] == '*'; }
    if AllDoubleStars(cs[1..]) {
      BareDirectoryEscapes(dir, parent, child);
    } else {
      forall path | GlobMatches(child, path)
        ensures GlobMatches(parent, path)
      {
        BelowMatches(dir, cs, child, path);
        GlobMatchesMeaning(parent, path);
      }
    }
  }

  // So below a directory the guard is the same condition: `src/a/**` passes it under `src/**/*`.
  lemma BelowGuard(dir: string, child: string, z: char)
    requires Literal(dir) && Foreign(z, dir)
    requires ParentScopeAllowsChild(dir + "/" + "**/*", child)
    ensures GateExact(dir + "/" + "**/*", child) <==> !AllDoubleStars(SplitSlash(child)[1..])
  {
    BelowGap(dir, child);
    ContainmentIsCovering(dir + "/" + "**/*", child, z);
  }

  /** A pattern ending in a one-letter symbol takes at least one letter. */
  lemma AtLeastTwo(pattern: seq<string>, word: seq<string>)
    requires pattern == ["**", "*"] && Splits(pattern, word, IsDoubleStar, SegmentMatch)
    ensures word != []
  {
    var m := SplitsCut(pattern, 1, word, IsDoubleStar, SegmentMatch);
    assert pattern[1..] == ["*"];
    FixedLength(["*"], word[m..]);
  }

  lemma BelowMatches(dir: string, cs: seq<string>, child: string, path: string)
    requires Literal(dir) && dir != "**" && cs == SplitSlash(child) && cs[0] == dir
    requires !AllDoubleStars(cs[1..]) && GlobMatches(child, path)
    ensures Splits([dir, "**", "*"], SplitSlash(path), IsDoubleStar, SegmentMatch)
  {
    hide Splits, SegmentMatch, SplitSlash, Literal;
    var segments := SplitSlash(path);
    GlobMatchesMeaning(child, path);
    var one := SplitsHead(cs, segments, IsDoubleStar, SegmentMatch);
    var rest := cs[1..];
    var i :| 0 <= i < |rest| && rest[i] != "**";
    var m := SplitsCut(rest, i, segments[1..], IsDoubleStar, SegmentMatch);
    var one' := SplitsHead(rest[i..], segments[1..][m..], IsDoubleStar, SegmentMatch);
    var last := |segments| - 1;
    StarMatchesSegment(segments[last]);
    SplitsOne("*", segments[last..], IsDoubleStar, SegmentMatch);
    SplitsPrepend(["**", "*"], segments[1..], last - 1, IsDoubleStar, SegmentMatch);
    SplitsPrepend([dir, "**", "*"], segments, 1, IsDoubleStar, SegmentMatch);
  }

  /** With `?` and `**` together covering is sufficient only: this child is contained, since a segment
      that falls short of `a?*` lets the next one stand in for it, yet no alignment shows it. */
  lemma ContainedBeyondGuard()
    ensures !OneKind("**/a/a?*/**") && !GateExact("**/a/a?*/**", "a/a*/ab")
    ensures Contained("**/a/a?*/**", "a/a*/ab")
  {
    hide SplitSlash, Covers, SegmentCharsMatch, Splits;
    var parent, child := "**/a/a?*/**", "a/a*/ab";
    var ps, cs := ["**", "a", "a?*", "**"], ["a", "a*", "ab"];
    FourSegments();
    assert parent[6] == '?' && "**" == ps[0] && ps[0] in SplitSlash(parent);
    NotCovered();
    ThreeSegments("a", "a*", "ab");
    assert "a" + "/" + "a*" + "/" + "ab" == child;
    forall path | GlobMatches(child, path)
      ensures GlobMatches(parent, path)
    {
      var segments := SplitSlash(path);
      GlobMatchesMeaning(child, path);
      FixedLength(cs, segments);
      EitherSegment(segments);
    }
    assert SegmentMatch("a?*", "a*") by { AAndMore("a*"); }
    assert SegmentsMatch(ps, cs, 3, 2) by { assert SegmentsMatch(ps, cs, 4, 3); }
    LiteralMatchesItself("a", 0);
    assert SegmentsMatch(ps, cs, 1, 0);
    MatchAllowed(parent, child);
  }

  lemma FourSegments()
    ensures SplitSlash("**/a/a?*/**") == ["**", "a", "a?*", "**"]
  {
    hide SplitSlash;
    ThreeSegments("a", "a?*", "**");
    SplitSlashFirst("**", "a/a?*/**");
    assert "a" + "/" + "a?*" + "/" + "**" == "a/a?*/**";
    assert "**" + "/" + "a/a?*/**" == "**/a/a?*/**";
  }

  lemma AAndMore(segment: string)
    requires |segment| >= 2 && segment[0] == 'a'
    ensures SegmentMatch("a?*", segment)
  {
    assert SegmentCharsMatch("a?*", segment, 3, |segment|);
    assert SegmentCharsMatch("a?*", segment, 2, 2);
    assert SegmentCharsMatch("a?*", segment, 1, 1);
  }

  lemma EitherSegment(segments: seq<string>)
    requires |segments| == 3
    requires SegmentMatch("a", segments[0]) && SegmentMatch("a*", segments[1]) && SegmentMatch("ab", segments[2])
    ensures SegmentsMatch(["**", "a", "a?*", "**"], segments, 0, 0)
  {
    var ps := ["**", "a", "a?*", "**"];
    LiteralMatchesOnlyItself("ab", segments[2], 0);
    assert SegmentsMatch(ps, segments, 4, 3);
    if |segments[1]| >= 2 {
      AAndMore(segments[1]);
      assert SegmentsMatch(ps, segments, 3, 2);
      assert SegmentsMatch(ps, segments, 1, 0);
    } else {
      assert SegmentCharsMatch("a", segments[1], 0, 0);
      AAndMore(segments[2]);
      assert SegmentsMatch(ps, segments, 3, 3);
      assert SegmentsMatch(ps, segments, 1, 1);
    }
  }

  lemma NotCovered()
    ensures !Covers("**/a/a?*/**", "a/a*/ab")
  {
    hide SplitSlash, SegmentCovers, Spread, SpreadSegments;
    var ps, cs := ["**", "a", "a?*", "**"], ["a", "a*", "ab"];
    FourSegments();
    ThreeSegments("a", "a*", "ab");
    assert "a" + "/" + "a*" + "/" + "ab" == "a/a*/ab";
    assert cs[0] != "**" && Dense(cs) == cs;
    NoWildHere();
    assert ps[1..] == ["a", "a?*", "**"] && ps[2..] == ["a?*", "**"];
    forall k | 0 <= k <= 3
      ensures !Matches(ps[1..], cs[k..], IsDoubleStar, SegmentCovers)
    {
      NotCoveredFrom(k);
    }
  }

  lemma NoWildHere()
    ensures SpreadSegments(["**", "a", "a?*", "**"]) == ["**", "a", "a?*", "**"]
  {
    var ps := ["**", "a", "a?*", "**"];
    assert "a"[0] == 'a' && "a?*"[0] == 'a';
    assert !IsAnySegment("a") && !IsAnySegment("a?*");
    assert ps[1..] == ["a", "a?*", "**"] && ps[1..][1..] == ["a?*", "**"] && ps[1..][1..][1..] == ["**"];
    assert ["**"][1..] == [];
    assert Spread(["**"], false, "**", IsDoubleStar, IsAnySegment) == ["**"];
    assert Spread(["a?*", "**"], false, "**", IsDoubleStar, IsAnySegment) == ["a?*", "**"];
    assert Spread(["a", "a?*", "**"], true, "**", IsDoubleStar, IsAnySegment) == ["a", "a?*", "**"];
  }

  lemma NotCoveredFrom(k: nat)
    requires k <= 3
    ensures !Matches(["a", "a?*", "**"], ["a", "a*", "ab"][k..], IsDoubleStar, SegmentCovers)
  {
    var cs := ["a", "a*", "ab"];
    ALetter();
    LongerNotCovered();
    if k == 0 {
      assert cs[0..] == cs && cs[1..] == ["a*", "ab"] && ["a", "a?*", "**"][1..] == ["a?*", "**"];
    } else if k == 1 {
      assert cs[1..][0] == "a*";
    } else if k == 2 {
      assert cs[2..][0] == "ab";
    }
  }

  lemma ALetter()
    ensures !SegmentCovers("a", "a*") && !SegmentCovers("a", "ab")
  {
    assert "a"[1..] == "" && "a*"[1..] == "*" && "ab"[1..] == "b";
    assert SpreadChars("a") == "a";
  }

  lemma LongerNotCovered()
    ensures !SegmentCovers("a?*", "a*")
  {
    assert "a?*"[1..] == "?*" && "?*"[1..] == "*" && "*"[1..] == "";
    assert Spread("*", true, '*', IsStar, IsQuestion) == "*";
    assert RunHasMany("*", IsStar, IsQuestion);
    assert Spread("?*", false, '*', IsStar, IsQuestion) == "*?*" + "*";
    assert SpreadChars("a?*") == "a" + ("*?*" + "*");
    var spread := "a*?**";
    assert SpreadChars("a?*") == spread;
    assert spread[1..] == "*?**" && "*?**"[1..] == "?**" && "a*"[1..] == "*";
    forall k | 0 <= k <= 1
      ensures !Matches("?**", "*"[k..], IsStar, CharCovers)
    {
      if k == 0 {
        assert "*"[0..] == "*";
      }
    }
  }
}
