/** Merging a branch keeps the engine's invariant, its resource accounting and its run bound. */
module MergeKeeps {
  import opened Types
  import opened Nodes
  import opened Resources
  import opened ResourceSafety
  import opened EngineState
  import opened EngineSteps
  import opened Renaming
  import opened Merge

  lemma RenamedInherits(child: ProblemNode, parent: ProblemNode, nm: IdMap, am: IdMap)
    requires Inherits(child, parent)
    ensures Inherits(RenameNode(child, nm, am), RenameNode(parent, nm, am))
  {
  }

  lemma ParentInherits(p: State, lo: nat, c: NodeId, b: State, i: NodeId)
    requires Mergeable(p, lo, c, b) && i in b.nodes
    ensures var f := Merged(p, c, b);
      var node := RenameNode(b.nodes[i], NodesOf(p, c, b), ArtifactsOf(p, b));
      node.parent.Some? && node.parent.value in f.nodes ==>
        node.parent.value < ShiftNode(p.nextNode, c, i) && Inherits(node, f.nodes[node.parent.value])
  {
    hide Merged, MovedNodes, NodesOf, ArtifactsOf, Inherits, Produced, Staged, Grouped;
    assert Linked(b, i) && Linked(p, c);
    var parent := b.nodes[i].parent;
    if parent.Some? {
      var q := parent.value;
      AtNode(p, c, b, q);
      if i == c {
        MergedNodeAt(p, lo, c, b, q);
        if q in Merged(p, c, b).nodes {
          SameInherits(p.nodes[c], b.nodes[c], p.nodes[q], NodesOf(p, c, b), ArtifactsOf(p, b));
        }
      } else {
        MergedNodeImage(p, lo, c, b, q);
        RenamedInherits(b.nodes[i], b.nodes[q], NodesOf(p, c, b), ArtifactsOf(p, b));
      }
    }
  }

  lemma SameInherits(x: ProblemNode, y: ProblemNode, parent: ProblemNode, nm: IdMap, am: IdMap)
    requires SameIdentity(x, y) && Inherits(x, parent)
    ensures Inherits(RenameNode(y, nm, am), parent)
  {
  }

  lemma MergedLinked(p: State, lo: nat, c: NodeId, b: State, i: NodeId)
    requires Mergeable(p, lo, c, b) && i in b.nodes
    requires ShiftNode(p.nextNode, c, i) in Merged(p, c, b).nodes
    ensures Linked(Merged(p, c, b), ShiftNode(p.nextNode, c, i))
  {
    hide Merged, MovedNodes, NodesOf, ArtifactsOf, Inherits, Produced, Staged, Grouped;
    var f, j := Merged(p, c, b), ShiftNode(p.nextNode, c, i);
    assert Linked(b, i);
    MergedNodeImage(p, lo, c, b, i);
    ParentInherits(p, lo, c, b, i);
    RenamedIdentity(p, lo, c, b, i);
    var node := b.nodes[i];
    if node.parent.Some? { AtNode(p, c, b, node.parent.value); }
    forall k | 0 <= k < |node.children|
      ensures f.nodes[j].children[k] == ShiftNode(p.nextNode, c, node.children[k])
      ensures j < f.nodes[j].children[k] && f.nodes[j].children[k] in f.nodes
      ensures f.nodes[f.nodes[j].children[k]].parent == Some(j)
    {
      MergedNodeImage(p, lo, c, b, node.children[k]);
      AtNode(p, c, b, i);
    }
  }

  lemma MergedAcceptable(p: State, lo: nat, c: NodeId, b: State, a: ArtifactId, key: ProblemKey)
    requires Mergeable(p, lo, c, b) && Acceptable(b, a, key)
    ensures Acceptable(Merged(p, c, b), ShiftArtifact(p.nextArtifact, a), key)
  {
    hide Merged, MovedNodes, NodesOf, ArtifactsOf, Linked, Produced, Staged, Grouped, PathsSafe;
    MergedArtifactImage(p, lo, c, b, a);
    MergedNodeImage(p, lo, c, b, b.artifacts[a].node);
    RenamedSafe(b.nodes[b.artifacts[a].node], b.artifacts[a], NodesOf(p, c, b), ArtifactsOf(p, b));
  }

  lemma RenamedSafe(node: ProblemNode, artifact: Artifact, nm: IdMap, am: IdMap)
    requires PathsSafe(node, artifact)
    ensures PathsSafe(RenameNode(node, nm, am), RenameArtifact(artifact, nm, am))
  {
  }

  lemma MergedProduced(p: State, lo: nat, c: NodeId, b: State, i: NodeId)
    requires Mergeable(p, lo, c, b) && i in b.nodes
    requires ShiftNode(p.nextNode, c, i) in Merged(p, c, b).nodes
    ensures Produced(Merged(p, c, b), ShiftNode(p.nextNode, c, i))
  {
    hide Merged, MovedNodes, NodesOf, ArtifactsOf, Linked, Staged, Grouped, Acceptable;
    var node := b.nodes[i];
    assert Produced(b, i);
    MergedNodeImage(p, lo, c, b, i);
    MergedMemoAt(p, c, b, node.key);
    if node.candidate.Some? {
      AtArtifact(p, c, b, node.candidate.value);
      MergedArtifactImage(p, lo, c, b, node.candidate.value);
      AtNode(p, c, b, i);
    }
    if node.accepted.Some? {
      MergedAcceptable(p, lo, c, b, node.accepted.value, node.key);
      AcceptableExists(b, node.accepted.value, node.key);
      AtArtifact(p, c, b, node.accepted.value);
    }
  }

  lemma AcceptableExists(s: State, a: ArtifactId, key: ProblemKey)
    requires Acceptable(s, a, key)
    ensures a in s.artifacts
  {
  }

  lemma MergedStaged(p: State, lo: nat, c: NodeId, b: State, i: NodeId)
    requires Mergeable(p, lo, c, b) && i in b.nodes
    requires ShiftNode(p.nextNode, c, i) in Merged(p, c, b).nodes
    ensures Staged(Merged(p, c, b), ShiftNode(p.nextNode, c, i))
  {
    hide Merged, MovedNodes, NodesOf, ArtifactsOf, Produced;
    var f, j, node := Merged(p, c, b), ShiftNode(p.nextNode, c, i), b.nodes[i];
    assert Linked(b, i) && Staged(b, i);
    MergedNodeImage(p, lo, c, b, i);
    forall k | 0 <= k < |node.children|
      ensures f.nodes[j].children[k] in f.nodes
      ensures f.nodes[f.nodes[j].children[k]].status == b.nodes[node.children[k]].status
    {
      MergedNodeImage(p, lo, c, b, node.children[k]);
    }
  }

  lemma RenamedFollowsPlan(parent: ProblemNode, item: NodeTemplate, child: ProblemNode, movedParent: ProblemNode,
                           movedChild: ProblemNode)
    requires FollowsPlan(parent, item, child)
    requires SameIdentity(movedParent, parent.(id := movedParent.id, parent := movedParent.parent))
    requires SameIdentity(movedChild, child.(id := movedChild.id, parent := Some(movedParent.id)))
    ensures FollowsPlan(movedParent, item, movedChild)
  {
  }

  lemma RenamedAlike(node: ProblemNode, nm: IdMap, am: IdMap)
    ensures var moved := RenameNode(node, nm, am); SameIdentity(moved, node.(id := moved.id, parent := moved.parent))
  {
  }

  lemma MergedGrouped(p: State, lo: nat, c: NodeId, b: State, i: NodeId)
    requires Mergeable(p, lo, c, b) && i in b.nodes
    requires ShiftNode(p.nextNode, c, i) in Merged(p, c, b).nodes
    ensures Grouped(Merged(p, c, b), ShiftNode(p.nextNode, c, i))
  {
    hide Merged, MovedNodes, NodesOf, ArtifactsOf, Produced, Staged, FollowsPlan;
    var f, j, node := Merged(p, c, b), ShiftNode(p.nextNode, c, i), b.nodes[i];
    assert Linked(b, i) && Grouped(b, i);
    MergedLinked(p, lo, c, b, i);
    MergedNodeImage(p, lo, c, b, i);
    RenamedAlike(node, NodesOf(p, c, b), ArtifactsOf(p, b));
    forall k | 0 <= k < |node.children|
      ensures FollowsPlan(f.nodes[j], node.plan.group.items[k], f.nodes[f.nodes[j].children[k]])
    {
      var child := b.nodes[node.children[k]];
      MergedNodeImage(p, lo, c, b, node.children[k]);
      RenamedAlike(child, NodesOf(p, c, b), ArtifactsOf(p, b));
      RenamedFollowsPlan(node, node.plan.group.items[k], child, f.nodes[j], f.nodes[f.nodes[j].children[k]]);
    }
  }

  lemma MergedArtifactOk(p: State, lo: nat, c: NodeId, b: State, a: ArtifactId)
    requires Mergeable(p, lo, c, b) && a in b.artifacts
    requires ShiftArtifact(p.nextArtifact, a) in Merged(p, c, b).artifacts
    ensures ArtifactOk(Merged(p, c, b), ShiftArtifact(p.nextArtifact, a))
  {
    hide Merged, MovedNodes, NodesOf, ArtifactsOf, Produced, Linked, Staged, Grouped;
    assert ArtifactOk(b, a);
    MergedArtifactImage(p, lo, c, b, a);
    MergedNodeImage(p, lo, c, b, b.artifacts[a].node);
    forall k | 0 <= k < |b.artifacts[a].children|
      ensures At(ArtifactsOf(p, b), b.artifacts[a].children[k])
           == ShiftArtifact(p.nextArtifact, b.artifacts[a].children[k])
    {
      AtArtifact(p, c, b, b.artifacts[a].children[k]);
    }
  }

  lemma MergedMemoOk(p: State, lo: nat, c: NodeId, b: State, key: ProblemKey)
    requires Mergeable(p, lo, c, b) && key in Merged(p, c, b).memo
    ensures var f := Merged(p, c, b);
      (key in p.memo && p.memo[key] == f.memo[key]) || Acceptable(f, f.memo[key], key)
  {
    hide Merged, MovedNodes, NodesOf, ArtifactsOf, Linked, Produced, Staged, Grouped, ArtifactOk, LogsOk, Acceptable;
    MergedMemoAt(p, c, b, key);
    if key in b.memo {
      AcceptableExists(b, b.memo[key], key);
      AtArtifact(p, c, b, b.memo[key]);
      MergedAcceptable(p, lo, c, b, b.memo[key], key);
    }
  }

  lemma MergedLogs(p: State, c: NodeId, b: State, f: State, nm: IdMap)
    requires LogsOk(p) && LogsOk(b)
    requires forall i :: i in p.nodes ==> i in f.nodes
    requires forall i :: i in b.nodes ==> At(nm, i) in f.nodes
    requires f.events == p.events + RenameEvents(b.events, nm)
    requires f.runs == p.runs + RenameRuns(b.runs, nm)
    requires f.attempts.Keys == p.attempts.Keys + b.attempts.Keys
    requires forall key :: key in f.attempts ==>
      f.attempts[key] == AttemptsAt(p.attempts, key) + RenameAttempts(AttemptsAt(b.attempts, key), nm)
    ensures LogsOk(f)
  {
  }

  lemma MergedLogsOk(p: State, lo: nat, c: NodeId, b: State)
    requires Mergeable(p, lo, c, b)
    ensures LogsOk(Merged(p, c, b))
  {
    hide Merged, Linked, Produced, Staged, Grouped, ArtifactOk, MemoOk, LogsOk, NodesOf, ArtifactsOf;
    var f, nm := Merged(p, c, b), NodesOf(p, c, b);
    MergedLogsAt(p, c, b);
    MergedNextNode(p, c, b);
    forall i | i in p.nodes ensures i in f.nodes {
      MergedNodeAt(p, lo, c, b, i);
    }
    forall i | i in b.nodes ensures At(nm, i) in f.nodes {
      MergedNodeImage(p, lo, c, b, i);
    }
    MergedLogs(p, c, b, f, nm);
  }

  /** Merging a well-formed branch keeps the parent's store in order and changes no node but the
      branch root. */
  lemma MergeKeepsStore(p: State, lo: nat, c: NodeId, b: State)
    requires Mergeable(p, lo, c, b)
    ensures StoreOk(Merged(p, c, b), lo) && Kept(p, Merged(p, c, b), c) && InTurn(Merged(p, c, b), c)
  {
    hide Merged, MovedNodes, MovedArtifacts, NodesOf, ArtifactsOf, Linked, Produced, Staged, Grouped, ArtifactOk,
         LogsOk, Acceptable, InTurn, SameIdentity, Kept;
    var f := Merged(p, c, b);
    MergedKept(p, lo, c, b);
    MergedNumbered(p, lo, c, b);
    MergedLogsOk(p, lo, c, b);
    forall i | i in f.nodes && (i == c || i !in p.nodes)
      ensures Linked(f, i) && Produced(f, i) && Staged(f, i) && Grouped(f, i)
    {
      MergedNodeAt(p, lo, c, b, i);
      var o := Unshift(p.nextNode, c, i);
      MergedLinked(p, lo, c, b, o);
      MergedProduced(p, lo, c, b, o);
      MergedStaged(p, lo, c, b, o);
      MergedGrouped(p, lo, c, b, o);
    }
    forall a | a in f.artifacts && a !in p.artifacts
      ensures ArtifactOk(f, a)
    {
      MergedArtifactAt(p, lo, c, b, a);
      MergedArtifactOk(p, lo, c, b, a - p.nextArtifact);
    }
    forall key | key in f.memo
      ensures (key in p.memo && p.memo[key] == f.memo[key]) || Acceptable(f, f.memo[key], key)
    {
      MergedMemoOk(p, lo, c, b, key);
    }
    StoreKept(p, f, lo, c);
  }

  // ---- Resources ----

  lemma RefMapped(p: State, c: NodeId, b: State, ref: ResourceRef, lo: nat)
    requires Numbered(b, c) && c <= p.nextNode && lo <= c <= b.nextNode
    requires RefKnown(ref, c, b.nextNode, b.nextArtifact)
    ensures RemapRef(ref, NodesOf(p, c, b), ArtifactsOf(p, b))
         == Some(RenameRef(ref, NodesOf(p, c, b), ArtifactsOf(p, b)))
    ensures RefKnown(RenameRef(ref, NodesOf(p, c, b), ArtifactsOf(p, b)),
                     lo, Merged(p, c, b).nextNode, Merged(p, c, b).nextArtifact)
  {
    hide Merged, NodesOf, ArtifactsOf;
    MergedNextNode(p, c, b);
    match ref
    case RunningNode(n) => AtNode(p, c, b, n);
    case ChildInputForCombine(n) => AtNode(p, c, b, n);
    case MergeSurface(n) => AtNode(p, c, b, n);
    case CandidateArtifact(a) => AtArtifact(p, c, b, a);
    case DebugRetain =>
  }

  lemma MergedResourceAt(p: State, c: NodeId, b: State, id: ResourceId)
    requires c <= p.nextNode && c <= b.nextNode && p.resources.Keys !! b.resources.Keys
    ensures var f := Merged(p, c, b);
      && (id in f.resources <==> id in p.resources || id in b.resources)
      && (id in p.resources ==> f.resources[id] == p.resources[id])
      && (id in b.resources ==> f.resources[id] == RenameResource(b.resources[id], NodesOf(p, c, b), ArtifactsOf(p, b)))
  {
    hide MovedNodes, MovedArtifacts, MovedMemo, MergedAttempts, NodesOf, ArtifactsOf, RenameResource;
  }

  lemma MergedAccount(p: State, c: NodeId, b: State, ledger: Ledger)
    requires c <= p.nextNode && c <= b.nextNode && p.resources.Keys !! b.resources.Keys
    requires Accounted(p.resources, ledger) && Accounted(b.resources, ledger)
    ensures Accounted(Merged(p, c, b).resources, ledger) && Keeps(p.resources, Merged(p, c, b).resources)
    ensures Merged(p, c, b).resources.Keys == p.resources.Keys + b.resources.Keys
    ensures NoFailures(p.resources) && NoFailures(b.resources) ==> NoFailures(Merged(p, c, b).resources)
  {
    hide Merged, NodesOf, ArtifactsOf;
    forall id
      ensures var f := Merged(p, c, b);
        && (id in f.resources <==> id in p.resources || id in b.resources)
        && (id in p.resources ==> f.resources[id] == p.resources[id])
        && (id in b.resources ==>
              f.resources[id].id == b.resources[id].id && f.resources[id].state == b.resources[id].state)
    {
      MergedResourceAt(p, c, b, id);
    }
  }

  /** What the branch did since the parent's account was taken is no concern of the parent's resources. */
  lemma AccountLater(table: Table, l0: Ledger, branch: Table, l1: Ledger)
    requires Accounted(table, l0) && Accounted(branch, l1) && LedgerStep(map[], l0, branch, l1)
    ensures Accounted(table, l1) && table.Keys !! branch.Keys
    ensures forall after: Table :: after.Keys == table.Keys + branch.Keys ==> LedgerStep(table, l0, after, l1)
  {
  }

  lemma MergedRefsKnown(p: State, lo: nat, c: NodeId, b: State)
    requires Numbered(b, c) && lo <= c <= b.nextNode && c <= p.nextNode && p.resources.Keys !! b.resources.Keys
    requires RefsKnown(p.resources, lo, p.nextNode, p.nextArtifact)
    requires RefsKnown(b.resources, c, b.nextNode, b.nextArtifact)
    ensures var f := Merged(p, c, b); RefsKnown(f.resources, lo, f.nextNode, f.nextArtifact)
  {
    hide Merged, NodesOf, ArtifactsOf, RenameRef;
    var f := Merged(p, c, b);
    MergedNextNode(p, c, b);
    forall id, ref | id in f.resources && ref in f.resources[id].refs
      ensures RefKnown(ref, lo, f.nextNode, f.nextArtifact)
    {
      MergedResourceAt(p, c, b, id);
      if id in b.resources {
        var k :| 0 <= k < |f.resources[id].refs| && f.resources[id].refs[k] == ref;
        assert b.resources[id].refs[k] in b.resources[id].refs;
        RefMapped(p, c, b, b.resources[id].refs[k], lo);
      } else {
        assert ref in p.resources[id].refs && RefKnown(ref, lo, p.nextNode, p.nextArtifact);
      }
    }
  }

  lemma MergedHolds(p: State, c: NodeId, b: State, id: ResourceId, a: ArtifactId)
    requires c <= p.nextNode && c <= b.nextNode && p.resources.Keys !! b.resources.Keys
    requires a in b.artifacts && Holds(b.resources, id, a)
    ensures Holds(Merged(p, c, b).resources, id, ShiftArtifact(p.nextArtifact, a))
  {
    hide Merged, NodesOf, ArtifactsOf;
    MergedResourceAt(p, c, b, id);
    AtArtifact(p, c, b, a);
    var r :| 0 <= r < |b.resources[id].refs| && b.resources[id].refs[r] == CandidateArtifact(a);
    assert Merged(p, c, b).resources[id].refs[r] == CandidateArtifact(ShiftArtifact(p.nextArtifact, a));
  }

  lemma MergedHeld(p: State, lo: nat, c: NodeId, b: State, a: ArtifactId)
    requires Numbered(p, lo) && Numbered(b, c) && c in p.nodes && c in b.nodes && p.resources.Keys !! b.resources.Keys
    requires a in b.artifacts && Held(b, a)
    requires ShiftArtifact(p.nextArtifact, a) in Merged(p, c, b).artifacts
    ensures Held(Merged(p, c, b), ShiftArtifact(p.nextArtifact, a))
  {
    hide Merged, MovedNodes, NodesOf, ArtifactsOf, Holds;
    MergedArtifactImage(p, lo, c, b, a);
    if b.artifacts[a].change.Some? {
      var ids := b.artifacts[a].change.value.resourceIds;
      forall k | 0 <= k < |ids|
        ensures Holds(Merged(p, c, b).resources, ids[k], ShiftArtifact(p.nextArtifact, a))
      {
        MergedHolds(p, c, b, ids[k], a);
      }
    }
  }

  /** Merging keeps the resource invariant: every artifact, the parent's and the branch's, still holds
      its resources, every reference still resolves, and the cleanup account balances. */
  lemma MergedResourcesOk(p: State, lo: nat, c: NodeId, b: State, ledger: Ledger)
    requires Mergeable(p, lo, c, b)
    requires ResourcesOk(p, ledger, lo) && ResourcesOk(b, ledger, c)
    ensures ResourcesOk(Merged(p, c, b), ledger, lo) && Keeps(p.resources, Merged(p, c, b).resources)
    ensures Merged(p, c, b).resources.Keys == p.resources.Keys + b.resources.Keys
    ensures NoFailures(p.resources) && NoFailures(b.resources) ==> NoFailures(Merged(p, c, b).resources)
  {
    hide Merged, NodesOf, ArtifactsOf, Accounted, RefsKnown, NoFailures, Linked, Produced, Staged, Grouped,
         ArtifactOk, MemoOk, LogsOk;
    var f := Merged(p, c, b);
    MergedAccount(p, c, b, ledger);
    MergedRefsKnown(p, lo, c, b);
    forall a | a in f.artifacts
      ensures Held(f, a)
    {
      MergedArtifactAt(p, lo, c, b, a);
      if a in p.artifacts {
        assert Held(p, a);
      } else {
        MergedHeld(p, lo, c, b, a - p.nextArtifact);
      }
    }
  }

  /** The same when the branch ran since the parent's account was taken. */
  lemma MergeKeepsResources(p: State, l0: Ledger, lo: nat, c: NodeId, b: State, l1: Ledger)
    requires Mergeable(p, lo, c, b)
    requires ResourcesOk(p, l0, lo) && ResourcesOk(b, l1, c)
    requires LedgerStep(map[], l0, b.resources, l1)
    ensures ResourcesOk(Merged(p, c, b), l1, lo)
    ensures TableStep(p.resources, l0, Merged(p, c, b).resources, l1)
    ensures NoFailures(p.resources) && NoFailures(b.resources) ==> NoFailures(Merged(p, c, b).resources)
  {
    hide Merged, NodesOf, ArtifactsOf, Accounted, RefsKnown, LedgerStep, NoFailures, Mergeable, Held, Keeps;
    AccountLater(p.resources, l0, b.resources, l1);
    MergedResourcesOk(p, lo, c, b, l1);
  }
}
