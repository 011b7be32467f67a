/** The order of finished branches does not matter for the loop as it runs either: it cleans up what is
    releasable after each merge and once more at the end. */
module MergeSweeps {
  import opened Types
  import opened Nodes
  import opened Resources
  import opened ResourceSafety
  import opened EngineState
  import opened EngineSteps
  import opened Renaming
  import opened Merge
  import opened MergeKeeps
  import opened MergeOrder

  function Swept(s: State, ids: set<ResourceId>): State
  {
    s.(resources := SweptOn(s.resources, ids))
  }

  function CleanedUp(s: State): State
  {
    Swept(s, ReleasableSet(s.resources))
  }

  // ---- Cleaning up early or late ----

  lemma SweptRefsKnown(table: Table, ids: set<ResourceId>, lo: nat, nodes: nat, artifacts: nat)
    requires RefsKnown(table, lo, nodes, artifacts)
    ensures RefsKnown(SweptOn(table, ids), lo, nodes, artifacts)
  {
  }

  lemma SweptStore(s: State, lo: nat, n: NodeId, ids: set<ResourceId>)
    requires StoreOk(s, lo) && n in s.nodes
    ensures StoreOk(Swept(s, ids), lo) && (InTurn(s, n) ==> InTurn(Swept(s, ids), n))
  {
    UpdateResources(s, lo, n, SweptOn(s.resources, ids));
  }

  lemma SweptJoinable(p: State, lo: nat, n: NodeId, x: Finished, ids: set<ResourceId>)
    requires Joinable(p, lo, n, x)
    ensures Joinable(Swept(p, ids), lo, n, x)
  {
    SweptRefsKnown(p.resources, ids, lo, p.nextNode, p.nextArtifact);
    SweptStore(p, lo, x.child, ids);
    hide StoreOk, InTurn, RefsKnown;
  }

  lemma SweptWhole(p: State, lo: nat, n: NodeId, ids: set<ResourceId>)
    requires Whole(p, lo) && n in p.nodes
    ensures Whole(Swept(p, ids), lo)
  {
    SweptRefsKnown(p.resources, ids, lo, p.nextNode, p.nextArtifact);
    SweptStore(p, lo, n, ids);
    hide StoreOk, RefsKnown;
  }

  lemma SweptReady(p: State, lo: nat, n: NodeId, xs: seq<Finished>, ids: set<ResourceId>)
    requires Ready(p, lo, n, xs)
    ensures Ready(Swept(p, ids), lo, n, xs)
  {
    hide Joinable, Elsewhere, Swept;
    forall x | x in xs ensures Joinable(Swept(p, ids), lo, n, x) {
      SweptJoinable(p, lo, n, x, ids);
    }
  }

  /** A merge moves the branch the same way whatever the parent's resources are. */
  lemma SameMoves(p: State, q: State, c: NodeId, b: State)
    requires c <= p.nextNode && q == p.(resources := q.resources)
    ensures MovedNodes(q, c, b) == MovedNodes(p, c, b) && MovedArtifacts(q, c, b) == MovedArtifacts(p, c, b)
    ensures MovedMemo(q, b) == MovedMemo(p, b) && MovedResources(q, c, b) == MovedResources(p, c, b)
    ensures MergedAttempts(q, c, b) == MergedAttempts(p, c, b) && NodesOf(q, c, b) == NodesOf(p, c, b)
    ensures MovedResources(p, c, b).Keys == b.resources.Keys
  {
    assert NodesOf(q, c, b) == NodesOf(p, c, b) && ArtifactsOf(q, b) == ArtifactsOf(p, b);
    hide NodesOf, ArtifactsOf, RenameNode, RenameArtifact, RenameResource, RenameAttempts;
  }

  lemma MergedSwept(p: State, c: NodeId, b: State, ids: set<ResourceId>)
    requires c <= p.nextNode && c <= b.nextNode
    requires p.resources.Keys !! b.resources.Keys && ids <= p.resources.Keys
    ensures Merged(Swept(p, ids), c, b) == Swept(Merged(p, c, b), ids)
  {
    hide MovedNodes, MovedArtifacts, MovedMemo, MovedResources, MergedAttempts, NodesOf, ArtifactsOf, SweptOn,
         RenameEvents, RenameRuns;
    SameMoves(p, Swept(p, ids), c, b);
    SweptPlus(p.resources, MovedResources(p, c, b), ids);
  }

  /** What was cleaned up before a merge might as well be cleaned up after it. */
  lemma SweptJoined(p: State, lo: nat, n: NodeId, x: Finished, ids: set<ResourceId>)
    requires Joinable(p, lo, n, x) && x.child <= p.nextNode && x.child <= x.state.nextNode
    requires ids <= p.resources.Keys
    ensures Joined(Swept(p, ids), x) == Swept(Joined(p, x), ids)
    ensures ids <= Joined(p, x).resources.Keys
  {
    hide Joinable, StoreOk, Merged, SweptOn;
    JoinableParts(p, lo, n, x);
    MergedSwept(p, x.child, x.state, ids);
    JoinedKeeps(p, lo, n, x);
  }

  lemma SweptPlus(table: Table, more: Table, ids: set<ResourceId>)
    requires table.Keys !! more.Keys && ids <= table.Keys
    ensures SweptOn(table, ids) + more == SweptOn(table + more, ids)
  {
  }

  lemma {:induction false} SweptJoinedAll(p: State, lo: nat, n: NodeId, xs: seq<Finished>, ids: set<ResourceId>)
    requires Ready(p, lo, n, xs) && ids <= p.resources.Keys
    ensures Ready(Swept(p, ids), lo, n, xs)
    ensures JoinedAll(Swept(p, ids), lo, n, xs) == Swept(JoinedAll(p, lo, n, xs), ids)
    decreases |xs|
  {
    hide Joinable, Elsewhere, Merged, Swept;
    SweptReady(p, lo, n, xs, ids);
    if xs != [] {
      assert xs[0] in xs;
      ReadyAfter(p, lo, n, xs);
      ReadyAfter(Swept(p, ids), lo, n, xs);
      SweptJoined(p, lo, n, xs[0], ids);
      SweptJoinedAll(Joined(p, xs[0]), lo, n, xs[1..], ids);
    }
  }

  lemma {:induction false} JoinedAllKeeps(p: State, lo: nat, n: NodeId, xs: seq<Finished>)
    requires Ready(p, lo, n, xs)
    ensures forall id :: id in p.resources ==>
      id in JoinedAll(p, lo, n, xs).resources && JoinedAll(p, lo, n, xs).resources[id] == p.resources[id]
    decreases |xs|
  {
    hide Joinable, Elsewhere, Merged;
    if xs != [] {
      assert xs[0] in xs;
      ReadyAfter(p, lo, n, xs);
      JoinedKeeps(p, lo, n, xs[0]);
      JoinedAllKeeps(Joined(p, xs[0]), lo, n, xs[1..]);
    }
  }

  lemma JoinedKeeps(p: State, lo: nat, n: NodeId, x: Finished)
    requires Joinable(p, lo, n, x) && x.child <= p.nextNode && x.child <= x.state.nextNode
    ensures forall id :: id in p.resources ==>
      id in Joined(p, x).resources && Joined(p, x).resources[id] == p.resources[id]
  {
    JoinableParts(p, lo, n, x);
    hide Joinable, StoreOk;
    forall id | id in p.resources
      ensures id in Joined(p, x).resources && Joined(p, x).resources[id] == p.resources[id]
    {
      MergedResourceAt(p, x.child, x.state, id);
    }
  }

  // ---- The loop as it runs ----

  /** Merge a branch, clean up, go on; clean up once more at the end. The second part counts the cleanup
      calls. */
  ghost function Looped(p: State, lo: nat, n: NodeId, xs: seq<Finished>): (State, multiset<ResourceId>)
    requires Ready(p, lo, n, xs)
    decreases |xs|
  {
    if xs == [] then (CleanedUp(p), multiset(ReleasableSet(p.resources)))
    else
      ReadyAfter(p, lo, n, xs);
      var merged := Joined(p, xs[0]);
      SweptReady(merged, lo, n, xs[1..], ReleasableSet(merged.resources));
      var rest := Looped(CleanedUp(merged), lo, n, xs[1..]);
      (rest.0, multiset(ReleasableSet(merged.resources)) + rest.1)
  }

  lemma SweptTwice(whole: Table, part: Table)
    requires forall id :: id in part ==> id in whole && whole[id] == part[id]
    ensures var early := ReleasableSet(part);
      && SweptOn(SweptOn(whole, early), ReleasableSet(SweptOn(whole, early))) == SweptOn(whole, ReleasableSet(whole))
      && multiset(early) + multiset(ReleasableSet(SweptOn(whole, early))) == multiset(ReleasableSet(whole))
  {
    var early := ReleasableSet(part);
    var late := ReleasableSet(SweptOn(whole, early));
    assert early !! late && early + late == ReleasableSet(whole);
  }

  /** Cleaning up after each merge comes to the same as merging everything and cleaning up once. */
  lemma {:induction false} LoopedIs(p: State, lo: nat, n: NodeId, xs: seq<Finished>)
    requires Ready(p, lo, n, xs)
    ensures Looped(p, lo, n, xs) ==
      (CleanedUp(JoinedAll(p, lo, n, xs)), multiset(ReleasableSet(JoinedAll(p, lo, n, xs).resources)))
    decreases |xs|
  {
    hide Joinable, Elsewhere, Merged, SweptOn, ReleasableSet, Ready;
    if xs != [] {
      ReadyAfter(p, lo, n, xs);
      var merged := Joined(p, xs[0]);
      var early := ReleasableSet(merged.resources);
      EarlyKnown(merged.resources);
      SweptJoinedAll(merged, lo, n, xs[1..], early);
      LoopedIs(CleanedUp(merged), lo, n, xs[1..]);
      JoinedAllKeeps(merged, lo, n, xs[1..]);
      SweptTwice(JoinedAll(merged, lo, n, xs[1..]).resources, merged.resources);
    }
  }

  lemma EarlyKnown(table: Table)
    ensures ReleasableSet(table) <= table.Keys
  {
  }

  lemma SweptRenumbered(s: State, t: State, r: Renumbering, baseNode: NodeId, baseArtifact: ArtifactId)
    requires Renumbered(s, t, r, baseNode, baseArtifact)
    ensures ReleasableSet(s.resources) == ReleasableSet(t.resources)
    ensures Renumbered(CleanedUp(s), CleanedUp(t), r, baseNode, baseArtifact)
  {
    hide Permutes, SameNodes, SameArtifacts, SameLogs, RenameAttempts, At, RenameRef;
    forall id ensures Releasable(s.resources, id) <==> Releasable(t.resources, id) {
    }
    SameSwept(s, t, r);
    assert SameNodes(CleanedUp(s), CleanedUp(t), r) by { NodesKept(s, t, r); }
    assert SameArtifacts(CleanedUp(s), CleanedUp(t), r) by { NodesKept(s, t, r); }
    assert SameLogs(CleanedUp(s), CleanedUp(t), r) by { NodesKept(s, t, r); }
  }

  lemma SameSwept(s: State, t: State, r: Renumbering)
    requires SameTables(s, t, r) && ReleasableSet(s.resources) == ReleasableSet(t.resources)
    ensures SameTables(CleanedUp(s), CleanedUp(t), r)
  {
    hide RenameAttempts, At, RenameRef;
    forall id | id in CleanedUp(s).resources
      ensures CleanedUp(t).resources[id] == RenameResource(CleanedUp(s).resources[id], r.nodes, r.artifacts)
    {
      assert id in ReleasableSet(s.resources) <==> id in ReleasableSet(t.resources);
      assert t.resources[id] == RenameResource(s.resources[id], r.nodes, r.artifacts);
    }
  }

  lemma NodesKept(s: State, t: State, r: Renumbering)
    ensures SameNodes(s, t, r) ==> SameNodes(CleanedUp(s), CleanedUp(t), r)
    ensures SameArtifacts(s, t, r) ==> SameArtifacts(CleanedUp(s), CleanedUp(t), r)
    ensures SameLogs(s, t, r) ==> SameLogs(CleanedUp(s), CleanedUp(t), r)
  {
    hide RenameNode, RenameArtifact, RenameEvents, RenameRuns, CleanedUp;
    SweepsResourcesOnly(s);
    SweepsResourcesOnly(t);
  }

  lemma SweepsResourcesOnly(s: State)
    ensures CleanedUp(s) == s.(resources := CleanedUp(s).resources)
  {
  }

  /** The order in which branches finish matters neither for the engine the loop leaves, up to
      renumbering, nor for the cleanup calls it makes. */
  lemma AnyOrderCleaned(p: State, lo: nat, n: NodeId, xs: seq<Finished>, ys: seq<Finished>) returns (r: Renumbering)
    requires Whole(p, lo) && Ready(p, lo, n, xs) && OwnKeys(xs) && multiset(xs) == multiset(ys)
    ensures Ready(p, lo, n, ys)
    ensures Renumbered(Looped(p, lo, n, xs).0, Looped(p, lo, n, ys).0, r, p.nextNode, p.nextArtifact)
    ensures Looped(p, lo, n, xs).1 == Looped(p, lo, n, ys).1
  {
    hide Whole, Ready, JoinedAll, Renumbered, Looped;
    r := AnyOrder(p, lo, n, xs, ys);
    LoopedIs(p, lo, n, xs);
    LoopedIs(p, lo, n, ys);
    SweptRenumbered(JoinedAll(p, lo, n, xs), JoinedAll(p, lo, n, ys), r, p.nextNode, p.nextArtifact);
  }
}
