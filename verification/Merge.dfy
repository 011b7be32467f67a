/** Merging the private engine of a finished parallel branch back into its parent. */
module Merge {
  import opened Types
  import opened Nodes
  import opened Resources
  import opened ResourceSafety
  import opened EngineState
  import opened EngineSteps
  import opened Renaming

  /** The branch root keeps its id; the ids after it follow the parent's last id in order. */
  function ShiftNode(base: NodeId, c: NodeId, i: NodeId): NodeId { if i <= c then i else i - c + base }

  function ShiftArtifact(base: ArtifactId, a: ArtifactId): ArtifactId { a + base }

  function NodesOf(p: State, c: NodeId, b: State): IdMap
  {
    map i | i in b.nodes :: ShiftNode(p.nextNode, c, i)
  }

  function ArtifactsOf(p: State, b: State): IdMap
  {
    map a | a in b.artifacts :: ShiftArtifact(p.nextArtifact, a)
  }

  /** A branch engine `b` for child `c`, ready to be merged into `p`. */
  ghost predicate Mergeable(p: State, lo: nat, c: NodeId, b: State)
  {
    && StoreOk(p, lo) && c in p.nodes && InTurn(p, c)
    && StoreOk(b, c) && c in b.nodes
    && SameIdentity(p.nodes[c], b.nodes[c])
    && p.resources.Keys !! b.resources.Keys
  }

  function MovedNodes(p: State, c: NodeId, b: State): map<NodeId, ProblemNode>
    requires c <= p.nextNode
  {
    map i | i in b.nodes :: ShiftNode(p.nextNode, c, i) := RenameNode(b.nodes[i], NodesOf(p, c, b), ArtifactsOf(p, b))
  }

  function MovedArtifacts(p: State, c: NodeId, b: State): map<ArtifactId, Artifact>
  {
    map a | a in b.artifacts ::
      ShiftArtifact(p.nextArtifact, a) := RenameArtifact(b.artifacts[a], NodesOf(p, c, b), ArtifactsOf(p, b))
  }

  function MovedMemo(p: State, b: State): map<ProblemKey, ArtifactId>
  {
    map key | key in b.memo :: At(ArtifactsOf(p, b), b.memo[key])
  }

  function MovedResources(p: State, c: NodeId, b: State): Table
  {
    map id | id in b.resources :: RenameResource(b.resources[id], NodesOf(p, c, b), ArtifactsOf(p, b))
  }

  function MergedAttempts(p: State, c: NodeId, b: State): map<ProblemKey, seq<AttemptRecord>>
  {
    map key | key in p.attempts.Keys + b.attempts.Keys ::
      AttemptsAt(p.attempts, key) + RenameAttempts(AttemptsAt(b.attempts, key), NodesOf(p, c, b))
  }

  function Merged(p: State, c: NodeId, b: State): State
    requires c <= p.nextNode && c <= b.nextNode
  {
    State(
      p.nextNode + b.nextNode - c,
      p.nextArtifact + b.nextArtifact,
      p.nodes + MovedNodes(p, c, b),
      p.artifacts + MovedArtifacts(p, c, b),
      p.memo + MovedMemo(p, b),
      MergedAttempts(p, c, b),
      p.events + RenameEvents(b.events, NodesOf(p, c, b)),
      p.runs + RenameRuns(b.runs, NodesOf(p, c, b)),
      p.resources + MovedResources(p, c, b))
  }

  // ---- The embedding ----

  /** Strictly increasing (hence injective) maps that send every new id beyond the parent's. */
  lemma IdMapsEmbed(p: State, lo: nat, c: NodeId, b: State)
    requires Numbered(p, lo) && Numbered(b, c) && c in p.nodes && c in b.nodes
    ensures var nm, am := NodesOf(p, c, b), ArtifactsOf(p, b);
      && nm.Keys == b.nodes.Keys && am.Keys == b.artifacts.Keys && nm[c] == c
      && (forall i, j :: i in nm && j in nm && i < j ==> nm[i] < nm[j])
      && (forall a, a' :: a in am && a' in am && a < a' ==> am[a] < am[a'])
      && (forall i :: i in nm && i != c ==> p.nextNode < nm[i] <= Merged(p, c, b).nextNode)
      && (forall a :: a in am ==> p.nextArtifact < am[a] <= Merged(p, c, b).nextArtifact)
  {
  }

  function Unshift(base: NodeId, c: NodeId, j: NodeId): int { if j == c then c else j - base + c }

  lemma MovedNodesAt(p: State, c: NodeId, b: State, j: NodeId)
    requires Numbered(b, c) && c <= p.nextNode && c <= b.nextNode
    ensures j in MovedNodes(p, c, b) <==> j == c || p.nextNode < j <= p.nextNode + b.nextNode - c
    ensures j in MovedNodes(p, c, b) ==>
              var i := Unshift(p.nextNode, c, j);
              && i in b.nodes && ShiftNode(p.nextNode, c, i) == j
              && MovedNodes(p, c, b)[j] == RenameNode(b.nodes[i], NodesOf(p, c, b), ArtifactsOf(p, b))
  {
    hide RenameNode, NodesOf, ArtifactsOf;
    if j == c || p.nextNode < j <= p.nextNode + b.nextNode - c {
      var i := Unshift(p.nextNode, c, j);
      assert ShiftNode(p.nextNode, c, i) == j && i in b.nodes;
    }
  }

  /** Which node sits where after the merge. */
  lemma MergedNodeAt(p: State, lo: nat, c: NodeId, b: State, j: NodeId)
    requires Numbered(p, lo) && Numbered(b, c) && c in p.nodes && c in b.nodes
    ensures var f := Merged(p, c, b);
      && (j in f.nodes <==> lo <= j <= f.nextNode)
      && (j in p.nodes && j != c ==> f.nodes[j] == p.nodes[j])
      && (j in f.nodes && !(j in p.nodes && j != c) ==>
            var i := Unshift(p.nextNode, c, j);
            && i in b.nodes && ShiftNode(p.nextNode, c, i) == j
            && f.nodes[j] == RenameNode(b.nodes[i], NodesOf(p, c, b), ArtifactsOf(p, b)))
  {
    MovedNodesAt(p, c, b, j);
    hide MovedNodes, RenameNode, NodesOf, ArtifactsOf;
  }

  lemma MovedArtifactsAt(p: State, c: NodeId, b: State, a: ArtifactId)
    requires Numbered(b, c)
    ensures a in MovedArtifacts(p, c, b) <==> p.nextArtifact < a <= p.nextArtifact + b.nextArtifact
    ensures a in MovedArtifacts(p, c, b) ==>
              var o := a - p.nextArtifact;
              && o in b.artifacts && ShiftArtifact(p.nextArtifact, o) == a
              && MovedArtifacts(p, c, b)[a] == RenameArtifact(b.artifacts[o], NodesOf(p, c, b), ArtifactsOf(p, b))
  {
    hide RenameArtifact, NodesOf, ArtifactsOf;
    if p.nextArtifact < a <= p.nextArtifact + b.nextArtifact {
      var o := a - p.nextArtifact;
      assert ShiftArtifact(p.nextArtifact, o) == a && o in b.artifacts;
    }
  }

  lemma MergedArtifactAt(p: State, lo: nat, c: NodeId, b: State, a: ArtifactId)
    requires Numbered(p, lo) && Numbered(b, c) && c in p.nodes && c in b.nodes
    ensures var f := Merged(p, c, b);
      && (a in f.artifacts <==> 1 <= a <= f.nextArtifact)
      && (a in p.artifacts ==> f.artifacts[a] == p.artifacts[a])
      && (a in f.artifacts && a !in p.artifacts ==>
            var o := a - p.nextArtifact;
            && o in b.artifacts && ShiftArtifact(p.nextArtifact, o) == a
            && f.artifacts[a] == RenameArtifact(b.artifacts[o], NodesOf(p, c, b), ArtifactsOf(p, b)))
  {
    MovedArtifactsAt(p, c, b, a);
    hide MovedNodes, MovedArtifacts, RenameArtifact, NodesOf, ArtifactsOf;
  }

  lemma AtNode(p: State, c: NodeId, b: State, i: NodeId)
    requires Numbered(b, c) && i <= b.nextNode
    ensures At(NodesOf(p, c, b), i) == ShiftNode(p.nextNode, c, i)
    ensures i in NodesOf(p, c, b) <==> i in b.nodes
  {
  }

  lemma AtArtifact(p: State, c: NodeId, b: State, a: ArtifactId)
    requires a in b.artifacts
    ensures At(ArtifactsOf(p, b), a) == ShiftArtifact(p.nextArtifact, a)
    ensures a in ArtifactsOf(p, b)
  {
  }

  /** A branch node is found under its new id. */
  lemma MergedNodeImage(p: State, lo: nat, c: NodeId, b: State, i: NodeId)
    requires Numbered(p, lo) && Numbered(b, c) && c in p.nodes && c in b.nodes && i in b.nodes
    ensures var f, j := Merged(p, c, b), ShiftNode(p.nextNode, c, i);
      && j == At(NodesOf(p, c, b), i) && j in f.nodes && (j == c || j !in p.nodes)
      && f.nodes[j] == RenameNode(b.nodes[i], NodesOf(p, c, b), ArtifactsOf(p, b))
  {
    hide Merged, MovedNodes, RenameNode, NodesOf, ArtifactsOf;
    var j := ShiftNode(p.nextNode, c, i);
    AtNode(p, c, b, i);
    assert Unshift(p.nextNode, c, j) == i;
    MergedNodeAt(p, lo, c, b, j);
    MergedNextNode(p, c, b);
  }

  lemma MergedNextNode(p: State, c: NodeId, b: State)
    requires c <= p.nextNode && c <= b.nextNode
    ensures Merged(p, c, b).nextNode == p.nextNode + b.nextNode - c
    ensures Merged(p, c, b).nextArtifact == p.nextArtifact + b.nextArtifact
  {
  }

  /** A branch artifact is found under its new id. */
  lemma MergedArtifactImage(p: State, lo: nat, c: NodeId, b: State, a: ArtifactId)
    requires Numbered(p, lo) && Numbered(b, c) && c in p.nodes && c in b.nodes && a in b.artifacts
    ensures var f, o := Merged(p, c, b), ShiftArtifact(p.nextArtifact, a);
      && o == At(ArtifactsOf(p, b), a) && o in f.artifacts && o !in p.artifacts
      && f.artifacts[o] == RenameArtifact(b.artifacts[a], NodesOf(p, c, b), ArtifactsOf(p, b))
  {
    hide Merged, MovedArtifacts, RenameArtifact, NodesOf, ArtifactsOf;
    AtArtifact(p, c, b, a);
    MergedArtifactAt(p, lo, c, b, ShiftArtifact(p.nextArtifact, a));
    MergedNextNode(p, c, b);
  }

  // ---- Well-formedness of the merged engine ----

  lemma RenamedIdentity(p: State, lo: nat, c: NodeId, b: State, i: NodeId)
    requires Numbered(p, lo) && Numbered(b, c) && c in p.nodes && i in b.nodes && Linked(b, i)
    requires i == c ==> b.nodes[c].parent == p.nodes[c].parent
    ensures var node := RenameNode(b.nodes[i], NodesOf(p, c, b), ArtifactsOf(p, b));
      && node.id == ShiftNode(p.nextNode, c, i)
      && (i == c ==> node.parent == b.nodes[c].parent)
      && (i > c && node.parent.Some? ==> c <= node.parent.value)
      && (node.parent.Some? <==> b.nodes[i].parent.Some?)
  {
    hide NodesOf, ArtifactsOf;
    AtNode(p, c, b, i);
    if b.nodes[i].parent.Some? {
      AtNode(p, c, b, b.nodes[i].parent.value);
    }
  }

  lemma MergedNumbered(p: State, lo: nat, c: NodeId, b: State)
    requires Mergeable(p, lo, c, b)
    ensures Numbered(Merged(p, c, b), lo)
  {
    hide Merged, MovedNodes, MovedArtifacts, NodesOf, ArtifactsOf, RenameNode, Linked, Produced, Staged, Grouped;
    var f := Merged(p, c, b);
    MergedNextNode(p, c, b);
    forall j: nat
      ensures j in f.nodes <==> lo <= j <= f.nextNode
      ensures j in f.nodes ==> f.nodes[j].id == j
      ensures j in f.nodes && j > lo && f.nodes[j].parent.Some? ==> lo <= f.nodes[j].parent.value
      ensures j in f.nodes && j > lo && lo > 1 ==> f.nodes[j].parent.Some?
    {
      MergedNodeAt(p, lo, c, b, j);
      if j in f.nodes && !(j in p.nodes && j != c) {
        RenamedIdentity(p, lo, c, b, Unshift(p.nextNode, c, j));
      }
    }
    forall a: nat
      ensures a in f.artifacts <==> 1 <= a <= f.nextArtifact
      ensures a in f.artifacts ==> f.artifacts[a].id == a
    {
      MergedArtifactAt(p, lo, c, b, a);
      if a in f.artifacts && a !in p.artifacts {
        AtArtifact(p, c, b, a - p.nextArtifact);
      }
    }
  }

  lemma MergedGrows(p: State, c: NodeId, b: State)
    requires c <= p.nextNode && c <= b.nextNode
    ensures var f := Merged(p, c, b);
      p.events <= f.events && p.runs <= f.runs && p.memo.Keys <= f.memo.Keys
  {
  }

  lemma MergedMemoAt(p: State, c: NodeId, b: State, key: ProblemKey)
    requires c <= p.nextNode && c <= b.nextNode
    ensures var f := Merged(p, c, b);
      && (key in f.memo <==> key in p.memo || key in b.memo)
      && (key in f.memo ==>
            f.memo[key] == if key in b.memo then At(ArtifactsOf(p, b), b.memo[key]) else p.memo[key])
  {
    hide MovedNodes, MovedArtifacts, MovedResources, NodesOf, ArtifactsOf;
  }

  lemma MergedLogsAt(p: State, c: NodeId, b: State)
    requires c <= p.nextNode && c <= b.nextNode
    ensures var f, nm := Merged(p, c, b), NodesOf(p, c, b);
      && f.events == p.events + RenameEvents(b.events, nm)
      && f.runs == p.runs + RenameRuns(b.runs, nm)
      && f.attempts.Keys == p.attempts.Keys + b.attempts.Keys
      && forall key :: key in f.attempts ==>
           f.attempts[key] == AttemptsAt(p.attempts, key) + RenameAttempts(AttemptsAt(b.attempts, key), nm)
  {
    hide MovedNodes, MovedArtifacts, MovedResources, MovedMemo, NodesOf, ArtifactsOf, RenameEvents, RenameRuns,
         RenameAttempts;
  }

  lemma MergedKept(p: State, lo: nat, c: NodeId, b: State)
    requires Mergeable(p, lo, c, b)
    ensures Kept(p, Merged(p, c, b), c)
  {
    hide Merged, MovedNodes, MovedArtifacts, NodesOf, ArtifactsOf, Linked, Produced, Staged, Grouped, ArtifactOk,
         MemoOk, LogsOk;
    var f := Merged(p, c, b);
    MergedGrows(p, c, b);
    MergedNextNode(p, c, b);
    MergedNodeAt(p, lo, c, b, c);
    RenamedIdentity(p, lo, c, b, c);
    forall i | i in p.nodes
      ensures i in f.nodes && SameIdentity(p.nodes[i], f.nodes[i])
      ensures i != c ==> f.nodes[i] == p.nodes[i]
    {
      MergedNodeAt(p, lo, c, b, i);
    }
    forall a | a in p.artifacts
      ensures a in f.artifacts && f.artifacts[a] == p.artifacts[a]
    {
      MergedArtifactAt(p, lo, c, b, a);
    }
  }
}
