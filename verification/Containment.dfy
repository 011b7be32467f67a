/** The gate against containment: for parents with one kind of wildcard trouble only, the child's
    paths are all paths of the parent exactly when the parent pattern covers the child pattern, so
    the gate is right about such a parent exactly when what it accepts is covered. */
module Containment {
  import opened Splitting
  import opened Covering
  import opened Glob
  import opened ScopeGate

  /** The parents for which containment is decided: no `?` anywhere, or no `**` segment. */
  predicate OneKind(parent: string)
  {
    '?' !in parent || "**" !in SplitSlash(parent)
  }

  /** A character the parent pattern does not mention and that means only itself. */
  predicate Foreign(z: char, parent: string)
  {
    z !in "/*?" && z !in parent
  }

  // ---- Paths are exactly the non-empty lists of segments without a slash ----

  predicate IsSegment(text: string) { '/' !in text }

  function Join(segments: seq<string>): string
    requires segments != []
  {
    if |segments| == 1 then segments[0] else segments[0] + "/" + Join(segments[1..])
  }

  lemma {:induction false} SplitJoin(segments: seq<string>)
    requires segments != []
    requires forall s :: s in segments ==> IsSegment(s)
    ensures SplitSlash(Join(segments)) == segments
    decreases |segments|
  {
    assert segments[0] in segments;
    if |segments| == 1 {
      SplitSlashOne(segments[0]);
    } else {
      SplitJoin(segments[1..]);
      SplitSlashFirst(segments[0], Join(segments[1..]));
    }
  }

  lemma ContainedWithin(parent: string, child: string)
    requires Contained(parent, child)
    ensures Within(SplitSlash(parent), Dense(SplitSlash(child)), false, IsSegment, IsDoubleStar, SegmentMatch)
  {
    var ps, cs := SplitSlash(parent), SplitSlash(child);
    forall word: seq<string> | Splits(Dense(cs), word, IsDoubleStar, SegmentMatch)
      ensures word != [] && (forall x :: x in word ==> IsSegment(x)) ==> Splits(ps, word, IsDoubleStar, SegmentMatch)
    {
      if word != [] && forall x :: x in word ==> IsSegment(x) {
        SplitJoin(word);
        DenseMatchesPaths(cs, word);
        GlobMatchesMeaning(child, Join(word));
        GlobMatchesMeaning(parent, Join(word));
      }
    }
  }

  lemma DenseSegments(child: string)
    ensures forall c, x :: c in Dense(SplitSlash(child)) && x in c ==> x != '/'
    ensures Dense(SplitSlash(child)) != []
    ensures exists k :: 0 <= k < |Dense(SplitSlash(child))| && Dense(SplitSlash(child))[k] != "**"
  {
    SplitSlashChars(child);
    var cs := SplitSlash(child);
    if AllDoubleStars(cs) {
      assert Dense(cs)[0] == "*";
    }
  }

  // ---- One segment ----

  /** Within a segment, containment and covering always agree. */
  lemma SegmentWithinCovers(parent: string, child: string, z: char)
    requires Foreign(z, parent) && '/' !in child && child != "**"
    requires forall s :: '/' !in s && SegmentMatch(child, s) ==> SegmentMatch(parent, s)
    ensures SegmentCovers(parent, child)
  {
    var notSlash := (c: char) => c != '/';
    var inst := (c: char) => if c in "*?" then z else c;
    forall word: string | Splits(child, word, IsStar, CharTakes)
      ensures (forall x :: x in word ==> notSlash(x)) ==> Splits(parent, word, IsStar, CharTakes)
    {
      SegmentMatchMeaning(child, word);
      SegmentMatchMeaning(parent, word);
      assert '/' in word ==> !notSlash('/');
    }
    Complete(parent, child, true, '*', z, notSlash, inst, IsStar, IsQuestion, CharTakes, CharCovers);
    MatchesMeaning(SpreadChars(parent), child, IsStar, CharCovers);
  }

  // ---- Parents without `?` ----

  lemma InstanceSeparates(p: string, c: string, z: char)
    requires '?' !in p && Foreign(z, p) && c != "**"
    requires SegmentMatch(p, Instance(c, z))
    ensures SegmentCovers(p, c)
  {
    SegmentMatchMeaning(p, Instance(c, z));
    SplitsTransport(p, Instance(c, z), c, IsStar, CharTakes, CharCovers);
    SpreadAccepts(p, false, '*', c, IsStar, IsQuestion, CharCovers);
    MatchesMeaning(SpreadChars(p), c, IsStar, CharCovers);
  }

  lemma OnlyStarsCoverForeign(p: string, z: char)
    requires '?' !in p && Foreign(z, p) && p != "**"
    requires SegmentCovers(p, [z])
    ensures IsAnySegment(p)
  {
    SegmentMatchesInstance([z], z);
    SegmentMatchMeaning([z], [z]);
    assert Instance([z], z) == [z];
    SegmentCoversContains(p, [z], [z]);
    SegmentMatchMeaning(p, [z]);
    WildOver(p, [z], z, IsStar, IsQuestion, CharTakes);
    if p == "" {
      SplitsNil([z], IsStar, CharTakes);
    }
  }

  lemma InstanceFine(c: string, z: char)
    requires '/' !in c && z != '/'
    ensures IsSegment(Instance(c, z)) && SegmentMatch(c, Instance(c, z))
  {
    SegmentMatchesInstance(c, z);
    SegmentMatchMeaning(c, Instance(c, z));
    assert forall i :: 0 <= i < |c| ==> c[i] in c;
  }

  lemma SeparatesSegments(ps: seq<string>, cs: seq<string>, z: char, inst: string -> string)
    requires z !in "/*?" && forall s :: inst(s) == Instance(s, z)
    requires forall p, x :: p in ps && x in p ==> x != '?' && x != z
    requires forall c, x :: c in cs && x in c ==> x != '/'
    ensures Separates(ps, cs, "**", [z], IsSegment, inst, IsAnySegment, SegmentMatch, SegmentCovers)
  {
    hide SegmentMatch, SegmentCovers, IsAnySegment, Instance;
    forall c | (c in cs || c == [z]) && c != "**"
      ensures IsSegment(inst(c)) && SegmentMatch(c, inst(c))
    {
      InstanceFine(c, z);
    }
    forall p, c | p in ps && (c in cs || c == [z]) && p != "**" && c != "**" && SegmentMatch(p, inst(c))
      ensures SegmentCovers(p, c)
    {
      InstanceSeparates(p, c, z);
    }
    forall p | p in ps && p != "**" && SegmentCovers(p, [z])
      ensures IsAnySegment(p)
    {
      OnlyStarsCoverForeign(p, z);
    }
  }

  lemma ContainedCoversWithoutQuestion(parent: string, child: string, z: char)
    requires Foreign(z, parent) && '?' !in parent
    requires Contained(parent, child)
    ensures Covers(parent, child)
  {
    var ps, cs := SplitSlash(parent), Dense(SplitSlash(child));
    var inst := s => Instance(s, z);
    ContainedWithin(parent, child);
    DenseSegments(child);
    SplitSlashChars(parent);
    SeparatesSegments(ps, cs, z, inst);
    Complete(ps, cs, false, "**", [z], IsSegment, inst, IsDoubleStar, IsAnySegment, SegmentMatch, SegmentCovers);
    MatchesMeaning(SpreadSegments(ps), cs, IsDoubleStar, SegmentCovers);
  }

  // ---- Parents without `**` ----

  /** Without a "many" symbol a pattern takes as many letters as it has symbols, each in its place. */
  lemma {:induction false} FixedLength(pattern: seq<string>, path: seq<string>)
    requires "**" !in pattern
    requires Splits(pattern, path, IsDoubleStar, SegmentMatch)
    ensures |path| == |pattern|
    ensures forall k :: 0 <= k < |pattern| ==> SegmentMatch(pattern[k], path[k])
    decreases |pattern|
  {
    if pattern == [] {
      SplitsNil(path, IsDoubleStar, SegmentMatch);
    } else {
      assert pattern[0] in pattern;
      var k := SplitsHead(pattern, path, IsDoubleStar, SegmentMatch);
      FixedLength(pattern[1..], path[1..]);
    }
  }

  function Instances(pattern: seq<string>, z: char): (path: seq<string>)
  {
    seq(|pattern|, k requires 0 <= k < |pattern| => Instance(pattern[k], z))
  }

  lemma InstancesMatch(pattern: seq<string>, z: char)
    requires z != '/' && forall c, x :: c in pattern && x in c ==> x != '/'
    ensures Splits(pattern, Instances(pattern, z), IsDoubleStar, SegmentMatch)
    ensures forall s :: s in Instances(pattern, z) ==> IsSegment(s)
  {
    SegmentsMatchInstance(pattern, Instances(pattern, z), z);
    forall k | 0 <= k < |pattern|
      ensures IsSegment(Instance(pattern[k], z))
    {
      assert forall i :: 0 <= i < |pattern[k]| ==> pattern[k][i] in pattern[k];
    }
  }

  lemma NoDoubleStarWithin(parent: string, child: string, z: char)
    requires Foreign(z, parent) && "**" !in SplitSlash(parent)
    requires Contained(parent, child)
    ensures "**" !in Dense(SplitSlash(child))
  {
    var ps, cs := SplitSlash(parent), Dense(SplitSlash(child));
    ContainedWithin(parent, child);
    DenseSegments(child);
    if "**" in cs {
      var i :| 0 <= i < |cs| && cs[i] == "**";
      var left, right, copies := cs[..i], cs[i + 1..], seq(|ps| + 1, _ => [z]);
      assert cs == left + ["**"] + right;
      WithinPart(ps, left, copies, right, "**", false, IsSegment, IsDoubleStar, SegmentMatch);
      InstancesMatch(left + copies + right, z);
      FixedLength(ps, Instances(left + copies + right, z));
      assert false;
    }
  }

  lemma PlaceWithin(ps: seq<string>, cs: seq<string>, k: nat, z: char)
    requires |ps| == |cs| && k < |cs| && z != '/' && "**" !in ps && "**" !in cs
    requires forall c, x :: c in cs && x in c ==> x != '/'
    requires Within(ps, cs, false, IsSegment, IsDoubleStar, SegmentMatch)
    ensures forall s :: '/' !in s && SegmentMatch(cs[k], s) ==> SegmentMatch(ps[k], s)
  {
    forall s | '/' !in s && SegmentMatch(cs[k], s)
      ensures SegmentMatch(ps[k], s)
    {
      InstancesMatch(cs, z);
      FixedLength(cs, Instances(cs, z));
      var word := Instances(cs, z)[k := s];
      Stands(cs, word, IsDoubleStar, SegmentMatch);
      assert forall x :: x in word ==> x == s || x in Instances(cs, z);
      FixedLength(ps, word);
    }
  }

  lemma ContainedCoversWithoutDoubleStar(parent: string, child: string, z: char)
    requires Foreign(z, parent) && "**" !in SplitSlash(parent)
    requires Contained(parent, child)
    ensures Covers(parent, child)
  {
    var ps, cs := SplitSlash(parent), Dense(SplitSlash(child));
    ContainedWithin(parent, child);
    DenseSegments(child);
    SplitSlashChars(parent);
    NoDoubleStarWithin(parent, child, z);
    InstancesMatch(cs, z);
    FixedLength(ps, Instances(cs, z));
    forall k | 0 <= k < |ps|
      ensures SegmentCovers(ps[k], cs[k])
    {
      assert ps[k] in ps && cs[k] in cs;
      PlaceWithin(ps, cs, k, z);
      SegmentWithinCovers(ps[k], cs[k], z);
    }
    Stands(ps, cs, IsDoubleStar, SegmentCovers);
    SpreadAccepts(ps, false, "**", cs, IsDoubleStar, IsAnySegment, SegmentCovers);
    MatchesMeaning(SpreadSegments(ps), cs, IsDoubleStar, SegmentCovers);
  }

  // ---- The gate ----

  /** For a parent with one kind of wildcard trouble, covering decides containment. */
  lemma ContainmentIsCovering(parent: string, child: string, z: char)
    requires Foreign(z, parent) && OneKind(parent)
    ensures Contained(parent, child) <==> Covers(parent, child)
  {
    if Covers(parent, child) {
      CoversContains(parent, child);
    }
    if Contained(parent, child) {
      if '?' !in parent {
        ContainedCoversWithoutQuestion(parent, child, z);
      } else {
        ContainedCoversWithoutDoubleStar(parent, child, z);
      }
    }
  }

  /** Under the guard the gate decides containment exactly. */
  lemma GateDecidesContainment(parent: string, child: string, z: char)
    requires z != '/' && z !in parent
    requires GateExact(parent, child)
    ensures ParentScopeAllowsChild(parent, child) <==> Contained(parent, child)
  {
    if ParentScopeAllowsChild(parent, child) {
      AcceptedChildContained(parent, child);
    } else {
      RejectedChildEscapes(parent, child, z);
    }
  }

  /** And for parents with one kind of wildcard trouble only under the guard. */
  lemma GateRightExactlyUnderGuard(parent: string, child: string, z: char)
    requires Foreign(z, parent) && OneKind(parent)
    ensures (ParentScopeAllowsChild(parent, child) <==> Contained(parent, child)) <==> GateExact(parent, child)
  {
    ContainmentIsCovering(parent, child, z);
    if GateExact(parent, child) {
      GateDecidesContainment(parent, child, z);
    }
  }

  /** The easily seen condition is inside the guard, and so are the pairs the gate accepts unseen. */
  lemma PlainIsExact(parent: string, child: string)
    requires parent == "**/*" || parent == child || Plain(parent, child)
    ensures GateExact(parent, child)
  {
    MatchAllowed(parent, child);
    if parent == "**/*" {
      forall path { EverythingMatches(path); }
      ContainmentIsCovering(parent, child, 'a');
    } else if parent == child {
      CoversItself(parent);
    } else if GlobMatches(parent, child) {
      PlainMatchCovers(parent, child);
    }
  }
}
