/** The loops by which a branch is merged, and what they compute on a well-formed branch. */
module MergeLoops {
  import opened Types
  import opened Nodes
  import opened Resources
  import opened ResourceSafety
  import opened EngineState
  import opened EngineSteps
  import opened Renaming
  import opened Merge
  import opened MergeKeeps

  // ---- Ascending ids ----

  lemma Minimum(ids: set<nat>) returns (least: nat)
    requires ids != {}
    ensures least in ids && forall id :: id in ids ==> least <= id
  {
    var id :| id in ids;
    var others := ids - {id};
    assert ids == others + {id};
    if others == {} {
      least := id;
    } else {
      var rest := Minimum(others);
      least := if id <= rest then id else rest;
    }
  }

  predicate Ascending(ids: seq<nat>)
  {
    forall j, k :: 0 <= j < k < |ids| ==> ids[j] < ids[k]
  }

  method SortIds(ids: set<nat>) returns (sorted: seq<nat>)
    ensures Ascending(sorted)
    ensures forall id :: id in sorted <==> id in ids
  {
    sorted := [];
    var pending := ids;
    while pending != {}
      invariant pending <= ids && Ascending(sorted)
      invariant forall id :: id in sorted <==> id in ids && id !in pending
      invariant forall id, k :: id in pending && 0 <= k < |sorted| ==> sorted[k] < id
      decreases |pending|
    {
      ghost var least := Minimum(pending);
      var id :| id in pending && forall other :: other in pending ==> id <= other;
      sorted := sorted + [id];
      pending := pending - {id};
    }
  }

  /** The sorted ids of a gapless interval are the interval. */
  lemma SortedRange(sorted: seq<nat>, first: nat, last: int)
    requires Ascending(sorted) && first <= last + 1
    requires forall id :: id in sorted <==> first <= id <= last
    ensures sorted == Range(first, last)
  {
    var k := 0;
    while k < |sorted|
      invariant k <= |sorted| && first + k <= last + 1
      invariant forall i :: 0 <= i < k ==> sorted[i] == first + i
    {
      assert sorted[k] in sorted;
      assert k > 0 ==> sorted[k - 1] == first + (k - 1);
      assert first + k in sorted;
      var j :| 0 <= j < |sorted| && sorted[j] == first + k;
      assert k <= j;
      k := k + 1;
    }
    assert first + k in sorted <==> first + k <= last;
  }

  /** The branch root keeps its id; the other ids are numbered in order from `base + 1` on. */
  method NumberNodes(ids: seq<nat>, root: NodeId, base: NodeId, ghost hi: NodeId) returns (mapped: IdMap, last: NodeId)
    ensures root <= hi && ids == Range(root, hi) ==>
      && last == base + hi - root
      && forall i :: (i in mapped <==> root <= i <= hi) && (i in mapped ==> mapped[i] == ShiftNode(base, root, i))
  {
    mapped := map[root := root];
    last := base;
    for k := 0 to |ids|
      invariant root <= hi && ids == Range(root, hi) ==>
        && last == base + (if k == 0 then 0 else k - 1)
        && forall i :: (i in mapped <==> i == root || root <= i < root + k)
                       && (i in mapped ==> mapped[i] == ShiftNode(base, root, i))
    {
      if ids[k] != root {
        last := last + 1;
        mapped := mapped[ids[k] := last];
      }
    }
  }

  method NumberArtifacts(ids: seq<nat>, base: ArtifactId, ghost hi: ArtifactId) returns (mapped: IdMap,
                         last: ArtifactId)
    ensures ids == Range(1, hi) ==>
      && last == base + hi
      && forall i :: (i in mapped <==> 1 <= i <= hi) && (i in mapped ==> mapped[i] == ShiftArtifact(base, i))
  {
    mapped := map[];
    last := base;
    for k := 0 to |ids|
      invariant ids == Range(1, hi) ==>
        && last == base + k
        && forall i :: (i in mapped <==> 1 <= i <= k) && (i in mapped ==> mapped[i] == ShiftArtifact(base, i))
    {
      last := last + 1;
      mapped := mapped[ids[k] := last];
    }
  }

  // ---- Inserting renumbered entries ----

  /** Every entry can be renumbered, to pairwise different ids. */
  ghost predicate Total<V(!new)>(moved: map<nat, V>, remap: V -> Outcome<V>, idOf: V -> nat)
  {
    && (forall i :: i in moved ==> remap(moved[i]).Ok?)
    && (forall i, j :: i in moved && j in moved && i != j ==>
          idOf(remap(moved[i]).value) != idOf(remap(moved[j]).value))
  }

  /** The entries at `placed` sit under their new ids; everything else is as before. */
  ghost predicate PlacedSoFar<V(!new)>(before: map<nat, V>, moved: map<nat, V>, remap: V -> Outcome<V>, idOf: V -> nat,
                                       placed: set<nat>, after: map<nat, V>)
    requires Total(moved, remap, idOf) && placed <= moved.Keys
  {
    && (forall i :: i in placed ==>
          idOf(remap(moved[i]).value) in after && after[idOf(remap(moved[i]).value)] == remap(moved[i]).value)
    && (forall j :: j in before ==> j in after)
    && (forall j :: j in after ==>
          || (j in before && after[j] == before[j])
          || (exists i :: i in placed && idOf(remap(moved[i]).value) == j))
  }

  ghost predicate PlacedIn<V(!new)>(before: map<nat, V>, moved: map<nat, V>, remap: V -> Outcome<V>, idOf: V -> nat,
                             after: map<nat, V>)
    requires Total(moved, remap, idOf)
  {
    PlacedSoFar(before, moved, remap, idOf, moved.Keys, after)
  }

  lemma PlacedOneMore<V(!new)>(before: map<nat, V>, moved: map<nat, V>, remap: V -> Outcome<V>, idOf: V -> nat,
                               placed: set<nat>, current: map<nat, V>, i: nat)
    requires Total(moved, remap, idOf) && placed <= moved.Keys && i in moved && i !in placed
    requires PlacedSoFar(before, moved, remap, idOf, placed, current)
    ensures var entry := remap(moved[i]).value;
      PlacedSoFar(before, moved, remap, idOf, placed + {i}, current[idOf(entry) := entry])
  {
    var entry := remap(moved[i]).value;
    var after := current[idOf(entry) := entry];
    forall j | j in after
      ensures (j in before && after[j] == before[j])
           || (exists k :: k in placed + {i} && idOf(remap(moved[k]).value) == j)
    {
      if j == idOf(entry) {
        assert i in placed + {i};
      } else if !(j in before && after[j] == before[j]) {
        var k :| k in placed && idOf(remap(moved[k]).value) == j;
        assert k in placed + {i};
      }
    }
  }

  /** Renumbers every entry, in any order, and inserts it under its own new id. */
  method InsertRemapped<V(!new)>(target: map<nat, V>, moved: map<nat, V>, remap: V -> Outcome<V>, idOf: V -> nat)
    returns (r: Outcome<map<nat, V>>)
    ensures r.Err? <==> exists i :: i in moved && remap(moved[i]).Err?
    ensures Total(moved, remap, idOf) ==> r.Ok? && PlacedIn(target, moved, remap, idOf, r.value)
  {
    hide PlacedSoFar;
    var current: map<nat, V> := target;
    var pending := moved.Keys;
    ghost var total := Total(moved, remap, idOf);
    if total {
      PlacedNothing(target, moved, remap, idOf);
    }
    while pending != {}
      invariant pending <= moved.Keys
      invariant forall i :: i in moved && i !in pending ==> remap(moved[i]).Ok?
      invariant total ==> PlacedSoFar(target, moved, remap, idOf, moved.Keys - pending, current)
      decreases |pending|
    {
      var i :| i in pending;
      var entry := remap(moved[i]);
      if entry.Err? {
        return Err(entry.error);
      }
      if total {
        PlacedOneMore(target, moved, remap, idOf, moved.Keys - pending, current, i);
        assert moved.Keys - (pending - {i}) == (moved.Keys - pending) + {i};
      }
      current := current[idOf(entry.value) := entry.value];
      pending := pending - {i};
    }
    assert moved.Keys - {} == moved.Keys;
    return Ok(current);
  }

  lemma PlacedNothing<V(!new)>(before: map<nat, V>, moved: map<nat, V>, remap: V -> Outcome<V>, idOf: V -> nat)
    requires Total(moved, remap, idOf)
    ensures PlacedSoFar(before, moved, remap, idOf, moved.Keys - moved.Keys, before)
  {
  }

  // ---- On a well-formed branch every lookup succeeds ----

  lemma BranchNodeRemaps(p: State, lo: nat, c: NodeId, b: State, i: NodeId)
    requires Mergeable(p, lo, c, b) && i in b.nodes
    ensures RemapNode(b.nodes[i], NodesOf(p, c, b), ArtifactsOf(p, b))
         == Ok(RenameNode(b.nodes[i], NodesOf(p, c, b), ArtifactsOf(p, b)))
    ensures RenameNode(b.nodes[i], NodesOf(p, c, b), ArtifactsOf(p, b)).id == ShiftNode(p.nextNode, c, i)
  {
    assert Linked(b, i) && Produced(b, i);
    var node := b.nodes[i];
    if node.accepted.Some? {
      AcceptableExists(b, node.accepted.value, node.key);
    }
    hide Acceptable, StoreOk, Numbered, InTurn;
    RemapNodeTotal(node, NodesOf(p, c, b), ArtifactsOf(p, b));
  }

  lemma BranchArtifactRemaps(p: State, lo: nat, c: NodeId, b: State, a: ArtifactId)
    requires Mergeable(p, lo, c, b) && a in b.artifacts
    ensures RemapArtifact(b.artifacts[a], NodesOf(p, c, b), ArtifactsOf(p, b))
         == Ok(RenameArtifact(b.artifacts[a], NodesOf(p, c, b), ArtifactsOf(p, b)))
    ensures RenameArtifact(b.artifacts[a], NodesOf(p, c, b), ArtifactsOf(p, b)).id == ShiftArtifact(p.nextArtifact, a)
  {
    BranchArtifactMapped(p, lo, c, b, a);
    hide Mergeable, RemapArtifact;
    RemapArtifactTotal(b.artifacts[a], NodesOf(p, c, b), ArtifactsOf(p, b));
  }

  lemma BranchArtifactMapped(p: State, lo: nat, c: NodeId, b: State, a: ArtifactId)
    requires Mergeable(p, lo, c, b) && a in b.artifacts
    ensures b.artifacts[a].id == a && a in ArtifactsOf(p, b) && ArtifactsOf(p, b)[a] == ShiftArtifact(p.nextArtifact, a)
    ensures b.artifacts[a].node in NodesOf(p, c, b)
    ensures forall k :: 0 <= k < |b.artifacts[a].children| ==> b.artifacts[a].children[k] in ArtifactsOf(p, b)
  {
    hide Linked, Produced, Staged, Grouped, MemoOk, LogsOk, InTurn, SameIdentity;
    assert ArtifactOk(b, a);
  }

  lemma BranchNodesPlaced(p: State, lo: nat, c: NodeId, b: State, remap: ProblemNode -> Outcome<ProblemNode>,
                          idOf: ProblemNode -> nat)
    requires Mergeable(p, lo, c, b)
    requires forall i :: i in b.nodes ==>
      remap(b.nodes[i]) == RemapNode(b.nodes[i], NodesOf(p, c, b), ArtifactsOf(p, b))
    requires forall node :: idOf(node) == node.id
    ensures Total(b.nodes, remap, idOf)
    ensures forall after :: PlacedIn(p.nodes, b.nodes, remap, idOf, after) ==> after == Merged(p, c, b).nodes
  {
    hide Merged, MovedNodes, NodesOf, ArtifactsOf, RenameNode, RemapNode, Linked, Produced, Staged, Grouped, ArtifactOk,
         MemoOk, LogsOk, InTurn, SameIdentity;
    forall i | i in b.nodes
      ensures remap(b.nodes[i]).Ok? && idOf(remap(b.nodes[i]).value) == ShiftNode(p.nextNode, c, i)
    {
      BranchNodeRemaps(p, lo, c, b, i);
    }
    forall after | PlacedIn(p.nodes, b.nodes, remap, idOf, after)
      ensures after == Merged(p, c, b).nodes
    {
      forall j: nat
        ensures j in after <==> j in Merged(p, c, b).nodes
        ensures j in after ==> after[j] == Merged(p, c, b).nodes[j]
      {
        BranchNodePlaced(p, lo, c, b, remap, idOf, after, j);
      }
    }
  }

  lemma BranchNodePlaced(p: State, lo: nat, c: NodeId, b: State, remap: ProblemNode -> Outcome<ProblemNode>,
                         idOf: ProblemNode -> nat, after: map<NodeId, ProblemNode>, j: NodeId)
    requires Mergeable(p, lo, c, b)
    requires forall i :: i in b.nodes ==>
      remap(b.nodes[i]) == RemapNode(b.nodes[i], NodesOf(p, c, b), ArtifactsOf(p, b))
    requires forall i :: i in b.nodes ==>
      remap(b.nodes[i]).Ok? && idOf(remap(b.nodes[i]).value) == ShiftNode(p.nextNode, c, i)
    requires Total(b.nodes, remap, idOf) && PlacedIn(p.nodes, b.nodes, remap, idOf, after)
    ensures j in after <==> j in Merged(p, c, b).nodes
    ensures j in after ==> after[j] == Merged(p, c, b).nodes[j]
  {
    hide Merged, MovedNodes, NodesOf, ArtifactsOf, RenameNode, RemapNode, Linked, Produced, Staged, Grouped, ArtifactOk,
         MemoOk, LogsOk, InTurn, SameIdentity;
    MergedNodeAt(p, lo, c, b, j);
    MergedNextNode(p, c, b);
    if j == c || p.nextNode < j <= p.nextNode + b.nextNode - c {
      var i := Unshift(p.nextNode, c, j);
      assert i in b.nodes && ShiftNode(p.nextNode, c, i) == j;
      BranchNodeRemaps(p, lo, c, b, i);
    }
  }

  lemma BranchArtifactsPlaced(p: State, lo: nat, c: NodeId, b: State, remap: Artifact -> Outcome<Artifact>,
                              idOf: Artifact -> nat)
    requires Mergeable(p, lo, c, b)
    requires forall a :: a in b.artifacts ==>
      remap(b.artifacts[a]) == RemapArtifact(b.artifacts[a], NodesOf(p, c, b), ArtifactsOf(p, b))
    requires forall artifact :: idOf(artifact) == artifact.id
    ensures Total(b.artifacts, remap, idOf)
    ensures forall after :: PlacedIn(p.artifacts, b.artifacts, remap, idOf, after) ==>
      after == Merged(p, c, b).artifacts
  {
    hide Merged, MovedArtifacts, NodesOf, ArtifactsOf, RenameArtifact, RemapArtifact, Linked, Produced, Staged, Grouped,
         ArtifactOk, MemoOk, LogsOk, InTurn, SameIdentity;
    forall a | a in b.artifacts
      ensures remap(b.artifacts[a]).Ok? && idOf(remap(b.artifacts[a]).value) == ShiftArtifact(p.nextArtifact, a)
    {
      BranchArtifactRemaps(p, lo, c, b, a);
    }
    forall after | PlacedIn(p.artifacts, b.artifacts, remap, idOf, after)
      ensures after == Merged(p, c, b).artifacts
    {
      forall a: nat
        ensures a in after <==> a in Merged(p, c, b).artifacts
        ensures a in after ==> after[a] == Merged(p, c, b).artifacts[a]
      {
        BranchArtifactPlaced(p, lo, c, b, remap, idOf, after, a);
      }
    }
  }

  lemma BranchArtifactPlaced(p: State, lo: nat, c: NodeId, b: State, remap: Artifact -> Outcome<Artifact>,
                             idOf: Artifact -> nat, after: map<ArtifactId, Artifact>, a: ArtifactId)
    requires Mergeable(p, lo, c, b)
    requires forall o :: o in b.artifacts ==>
      remap(b.artifacts[o]) == RemapArtifact(b.artifacts[o], NodesOf(p, c, b), ArtifactsOf(p, b))
    requires forall o :: o in b.artifacts ==>
      remap(b.artifacts[o]).Ok? && idOf(remap(b.artifacts[o]).value) == ShiftArtifact(p.nextArtifact, o)
    requires Total(b.artifacts, remap, idOf) && PlacedIn(p.artifacts, b.artifacts, remap, idOf, after)
    ensures a in after <==> a in Merged(p, c, b).artifacts
    ensures a in after ==> after[a] == Merged(p, c, b).artifacts[a]
  {
    hide Merged, MovedArtifacts, NodesOf, ArtifactsOf, RenameArtifact, RemapArtifact, Linked, Produced, Staged, Grouped,
         ArtifactOk, MemoOk, LogsOk, InTurn, SameIdentity;
    MergedArtifactAt(p, lo, c, b, a);
    MergedNextNode(p, c, b);
    if p.nextArtifact < a <= p.nextArtifact + b.nextArtifact {
      var o := a - p.nextArtifact;
      assert o in b.artifacts && ShiftArtifact(p.nextArtifact, o) == a;
      BranchArtifactRemaps(p, lo, c, b, o);
    }
  }

  /** No reference of a branch resource is dropped. */
  lemma BranchResourceRemaps(p: State, lo: nat, c: NodeId, b: State, ledger: Ledger, id: ResourceId)
    requires Mergeable(p, lo, c, b) && ResourcesOk(b, ledger, c) && id in b.resources
    ensures RemapResource(b.resources[id], NodesOf(p, c, b), ArtifactsOf(p, b))
         == RenameResource(b.resources[id], NodesOf(p, c, b), ArtifactsOf(p, b))
  {
    assert lo <= c <= p.nextNode && c <= b.nextNode;
    assert Numbered(b, c) && RefsKnown(b.resources, c, b.nextNode, b.nextArtifact);
    hide StoreOk, ResourcesOk, NodesOf, ArtifactsOf, RemapRef;
    var refs := b.resources[id].refs;
    forall k | 0 <= k < |refs|
      ensures RemapRef(refs[k], NodesOf(p, c, b), ArtifactsOf(p, b)).Some?
    {
      assert refs[k] in refs;
      RefMapped(p, c, b, refs[k], lo);
    }
    RemapResourceTotal(b.resources[id], NodesOf(p, c, b), ArtifactsOf(p, b));
  }

  // ---- Logs and tables ----

  function RemapEvent(event: OperationEvent, nodes: IdMap): Outcome<OperationEvent>
  {
    var id := RemapNodeId(event.node, nodes);
    if id.Err? then Err(id.error) else Ok(event.(node := id.value))
  }

  function RemapRun(run: RunRecord, nodes: IdMap): Outcome<RunRecord>
  {
    var id := RemapNodeId(run.node, nodes);
    if id.Err? then Err(id.error) else Ok(run.(node := id.value))
  }

  function RemapAttempt(attempt: AttemptRecord, nodes: IdMap): Outcome<AttemptRecord>
  {
    var id := RemapNodeId(attempt.node, nodes);
    if id.Err? then Err(id.error) else Ok(attempt.(node := id.value))
  }

  /** Appends the renumbered entries of `more`, in order; fails on the first entry without a number. */
  method AppendRemapped<V>(list: seq<V>, more: seq<V>, remap: V -> Outcome<V>) returns (r: Outcome<seq<V>>)
    ensures r.Ok? <==> forall k :: 0 <= k < |more| ==> remap(more[k]).Ok?
    ensures r.Ok? ==> |r.value| == |list| + |more| && r.value[..|list|] == list
    ensures r.Ok? ==> forall k :: 0 <= k < |more| ==> r.value[|list| + k] == remap(more[k]).value
  {
    var current := list;
    for i := 0 to |more|
      invariant |current| == |list| + i && current[..|list|] == list
      invariant forall k :: 0 <= k < i ==> remap(more[k]).Ok? && current[|list| + k] == remap(more[k]).value
    {
      var entry := remap(more[i]);
      if entry.Err? {
        return Err(entry.error);
      }
      current := current + [entry.value];
    }
    return Ok(current);
  }

  method AppendEvents(list: seq<OperationEvent>, more: seq<OperationEvent>,
                      nodes: IdMap)
    returns (r: Outcome<seq<OperationEvent>>)
    ensures (forall k :: 0 <= k < |more| ==> more[k].node in nodes) ==> r == Ok(list + RenameEvents(more, nodes))
  {
    r := AppendRemapped(list, more, event => RemapEvent(event, nodes));
    if forall k :: 0 <= k < |more| ==> more[k].node in nodes {
      assert r.value == r.value[..|list|] + r.value[|list|..];
      assert r.value[|list|..] == RenameEvents(more, nodes);
    }
  }

  method AppendRuns(list: seq<RunRecord>, more: seq<RunRecord>, nodes: IdMap) returns (r: Outcome<seq<RunRecord>>)
    ensures (forall k :: 0 <= k < |more| ==> more[k].node in nodes) ==> r == Ok(list + RenameRuns(more, nodes))
  {
    r := AppendRemapped(list, more, run => RemapRun(run, nodes));
    if forall k :: 0 <= k < |more| ==> more[k].node in nodes {
      assert r.value == r.value[..|list|] + r.value[|list|..];
      assert r.value[|list|..] == RenameRuns(more, nodes);
    }
  }

  method AppendAttempts(list: seq<AttemptRecord>, more: seq<AttemptRecord>,
                        nodes: IdMap)
    returns (r: Outcome<seq<AttemptRecord>>)
    ensures (forall k :: 0 <= k < |more| ==> more[k].node in nodes) ==> r == Ok(list + RenameAttempts(more, nodes))
  {
    r := AppendRemapped(list, more, attempt => RemapAttempt(attempt, nodes));
    if forall k :: 0 <= k < |more| ==> more[k].node in nodes {
      assert r.value == r.value[..|list|] + r.value[|list|..];
      assert r.value[|list|..] == RenameAttempts(more, nodes);
    }
  }

  predicate AttemptsMapped(more: map<ProblemKey, seq<AttemptRecord>>, nodes: IdMap)
  {
    forall key, k :: key in more && 0 <= k < |more[key]| ==> more[key][k].node in nodes
  }

  function ExtendedAt(table: map<ProblemKey, seq<AttemptRecord>>, more: map<ProblemKey, seq<AttemptRecord>>,
                      nodes: IdMap, key: ProblemKey): seq<AttemptRecord>
  {
    AttemptsAt(table, key) + RenameAttempts(AttemptsAt(more, key), nodes)
  }

  /** The keys of `more` outside `pending` are extended, everything else is as in `table`. */
  ghost predicate ExtendedSoFar(table: map<ProblemKey, seq<AttemptRecord>>, more: map<ProblemKey, seq<AttemptRecord>>,
                                nodes: IdMap, current: map<ProblemKey, seq<AttemptRecord>>, pending: set<ProblemKey>)
  {
    && current.Keys == table.Keys + (more.Keys - pending)
    && (forall key :: key in pending ==> AttemptsAt(current, key) == AttemptsAt(table, key))
    && (forall key :: key in current && key !in pending ==> current[key] == ExtendedAt(table, more, nodes, key))
  }

  lemma ExtendedNothing(table: map<ProblemKey, seq<AttemptRecord>>, more: map<ProblemKey, seq<AttemptRecord>>,
                        nodes: IdMap)
    ensures ExtendedSoFar(table, more, nodes, table, more.Keys)
  {
    hide ExtendedAt;
    forall key | key in table && key !in more.Keys
      ensures table[key] == ExtendedAt(table, more, nodes, key)
    {
      ExtendedElsewhere(table, more, nodes, key);
    }
  }

  lemma ExtendedStep(table: map<ProblemKey, seq<AttemptRecord>>, more: map<ProblemKey, seq<AttemptRecord>>,
                     nodes: IdMap,
                     current: map<ProblemKey, seq<AttemptRecord>>, pending: set<ProblemKey>, key: ProblemKey)
    requires ExtendedSoFar(table, more, nodes, current, pending) && pending <= more.Keys && key in pending
    ensures AttemptsAt(current, key) == AttemptsAt(table, key)
    ensures ExtendedSoFar(table, more, nodes, current[key := ExtendedAt(table, more, nodes, key)], pending - {key})
  {
    hide ExtendedAt;
  }

  /** Extends the attempt lists key by key. */
  method ExtendAttempts(table: map<ProblemKey, seq<AttemptRecord>>, more: map<ProblemKey, seq<AttemptRecord>>,
                        nodes: IdMap)
    returns (r: Outcome<map<ProblemKey, seq<AttemptRecord>>>)
    ensures AttemptsMapped(more, nodes) ==> r.Ok? && ExtendedSoFar(table, more, nodes, r.value, {})
  {
    hide ExtendedAt, AttemptsMapped, ExtendedSoFar;
    var current := table;
    var pending := more.Keys;
    ExtendedNothing(table, more, nodes);
    while pending != {}
      invariant pending <= more.Keys
      invariant AttemptsMapped(more, nodes) ==> ExtendedSoFar(table, more, nodes, current, pending)
      decreases |pending|
    {
      var key :| key in pending;
      var extended := AppendAttempts(AttemptsAt(current, key), more[key], nodes);
      if AttemptsMapped(more, nodes) {
        ExtendedHere(table, more, nodes, key);
        ExtendedStep(table, more, nodes, current, pending, key);
      }
      if extended.Err? {
        return Err(extended.error);
      }
      current := current[key := extended.value];
      pending := pending - {key};
    }
    return Ok(current);
  }

  lemma ExtendedElsewhere(table: map<ProblemKey, seq<AttemptRecord>>, more: map<ProblemKey, seq<AttemptRecord>>,
                          nodes: IdMap, key: ProblemKey)
    ensures key in table && key !in more ==> ExtendedAt(table, more, nodes, key) == table[key]
  {
  }

  lemma ExtendedHere(table: map<ProblemKey, seq<AttemptRecord>>, more: map<ProblemKey, seq<AttemptRecord>>,
                     nodes: IdMap, key: ProblemKey)
    requires key in more && AttemptsMapped(more, nodes)
    ensures forall k :: 0 <= k < |more[key]| ==> more[key][k].node in nodes
    ensures ExtendedAt(table, more, nodes, key) == AttemptsAt(table, key) + RenameAttempts(more[key], nodes)
  {
  }

  function MappedMemo(more: map<ProblemKey, ArtifactId>, artifacts: IdMap, done: set<ProblemKey>)
    : map<ProblemKey, ArtifactId>
  {
    map key | key in done && key in more :: At(artifacts, more[key])
  }

  lemma MappedMore(memo: map<ProblemKey, ArtifactId>, more: map<ProblemKey, ArtifactId>, artifacts: IdMap,
                   done: set<ProblemKey>, key: ProblemKey)
    requires key in more
    ensures (memo + MappedMemo(more, artifacts, done))[key := At(artifacts, more[key])]
         == memo + MappedMemo(more, artifacts, done + {key})
  {
  }

  lemma MappedAll(memo: map<ProblemKey, ArtifactId>, more: map<ProblemKey, ArtifactId>, artifacts: IdMap)
    ensures memo + MappedMemo(more, artifacts, {}) == memo
    ensures MappedMemo(more, artifacts, more.Keys) == map key | key in more :: At(artifacts, more[key])
  {
  }

  method MergeMemo(memo: map<ProblemKey, ArtifactId>, more: map<ProblemKey, ArtifactId>, artifacts: IdMap)
    returns (r: Outcome<map<ProblemKey, ArtifactId>>)
    ensures (forall key :: key in more ==> more[key] in artifacts) ==>
      r == Ok(memo + map key | key in more :: At(artifacts, more[key]))
  {
    hide MappedMemo;
    var current: map<ProblemKey, ArtifactId> := memo;
    var pending := more.Keys;
    ghost var done := {};
    MappedAll(memo, more, artifacts);
    while pending != {}
      invariant done + pending == more.Keys
      invariant (forall key :: key in more ==> more[key] in artifacts) ==>
        current == memo + MappedMemo(more, artifacts, done)
      decreases |pending|
    {
      var key :| key in pending;
      var id := RemapArtifactId(more[key], artifacts);
      if id.Err? {
        return Err(id.error);
      }
      MappedMore(memo, more, artifacts, done, key);
      current := current[key := id.value];
      pending := pending - {key};
      done := done + {key};
    }
    return Ok(current);
  }

  /** Tracks every drained resource of the branch with its references renumbered. */
  method TrackBranch(registry: WorkspaceResourceRegistry, branch: WorkspaceResourceRegistry, nodes: IdMap,
                     artifacts: IdMap)
    requires registry != branch
    modifies registry, branch
    ensures (forall id :: id in old(branch.resources) ==> old(branch.resources)[id].id == id) ==>
      registry.resources == old(registry.resources)
        + map id | id in old(branch.resources) :: RemapResource(old(branch.resources)[id], nodes, artifacts)
  {
    ghost var before, moved := registry.resources, branch.resources;
    var drained, ids := branch.DrainAll();
    var remapped: seq<Resource> := [];
    for i := 0 to |drained|
      invariant |remapped| == i
      invariant forall k :: 0 <= k < i ==> remapped[k] == RemapResource(drained[k], nodes, artifacts)
    {
      remapped := remapped + [RemapResource(drained[i], nodes, artifacts)];
    }
    registry.TrackAll(remapped);
    if forall id :: id in moved ==> moved[id].id == id {
      TrackedDistinct(before, remapped, ids);
      var after := before + map id | id in moved :: RemapResource(moved[id], nodes, artifacts);
      forall id
        ensures id in registry.resources <==> id in after
        ensures id in after ==> registry.resources[id] == after[id]
      {
        if id in moved {
          var k :| 0 <= k < |ids| && ids[k] == id;
        }
      }
    }
  }

  lemma {:induction false} TrackedDistinct(table: Table, resources: seq<Resource>, ids: seq<ResourceId>)
    requires |ids| == |resources| && forall k :: 0 <= k < |ids| ==> resources[k].id == ids[k]
    requires forall j, k :: 0 <= j < k < |ids| ==> ids[j] != ids[k]
    ensures Tracked(table, resources).Keys == table.Keys + set id | id in ids
    ensures forall id :: id in table && id !in ids ==> Tracked(table, resources)[id] == table[id]
    ensures forall k :: 0 <= k < |ids| ==> Tracked(table, resources)[ids[k]] == resources[k]
    decreases |ids|
  {
    if ids != [] {
      TrackedDistinct(table[resources[0].id := resources[0]], resources[1..], ids[1..]);
      assert ids == [ids[0]] + ids[1..];
      assert ids[0] !in ids[1..];
      forall k | 0 <= k < |ids|
        ensures Tracked(table, resources)[ids[k]] == resources[k]
      {
        if k > 0 { assert ids[1..][k - 1] == ids[k] && resources[1..][k - 1] == resources[k]; }
      }
    }
  }

  // ---- Putting the pieces together ----

  ghost predicate MergeReady(p: State, lo: nat, c: NodeId, b: State, ledger: Ledger)
  {
    Mergeable(p, lo, c, b) && ResourcesOk(b, ledger, c)
  }

  lemma MergeableParts(p: State, lo: nat, c: NodeId, b: State)
    requires Mergeable(p, lo, c, b)
    ensures Numbered(p, lo) && Numbered(b, c) && lo <= c <= p.nextNode && c <= b.nextNode
    ensures LogsOk(b) && MemoOk(b)
  {
    hide Linked, Produced, Staged, Grouped, ArtifactOk, MemoOk, LogsOk, InTurn, SameIdentity;
  }

  lemma BranchNodeMap(p: State, lo: nat, c: NodeId, b: State, ids: seq<nat>, nm: IdMap, last: nat)
    requires Mergeable(p, lo, c, b)
    requires Ascending(ids) && forall id :: id in ids <==> id in b.nodes.Keys
    requires c <= b.nextNode && ids == Range(c, b.nextNode) ==>
      && last == p.nextNode + b.nextNode - c
      && forall i :: (i in nm <==> c <= i <= b.nextNode) && (i in nm ==> nm[i] == ShiftNode(p.nextNode, c, i))
    ensures nm == NodesOf(p, c, b) && last == Merged(p, c, b).nextNode
  {
    hide Mergeable, Merged, ShiftNode;
    MergeableParts(p, lo, c, b);
    MergedNextNode(p, c, b);
    assert forall id :: id in ids <==> c <= id <= b.nextNode;
    SortedRange(ids, c, b.nextNode);
  }

  lemma BranchArtifactMap(p: State, lo: nat, c: NodeId, b: State, ids: seq<nat>, am: IdMap, last: nat)
    requires Mergeable(p, lo, c, b)
    requires Ascending(ids) && forall id :: id in ids <==> id in b.artifacts.Keys
    requires ids == Range(1, b.nextArtifact) ==>
      && last == p.nextArtifact + b.nextArtifact
      && forall i :: (i in am <==> 1 <= i <= b.nextArtifact) && (i in am ==> am[i] == ShiftArtifact(p.nextArtifact, i))
    ensures am == ArtifactsOf(p, b) && last == Merged(p, c, b).nextArtifact
  {
    hide Mergeable, Merged, ShiftArtifact;
    MergeableParts(p, lo, c, b);
    MergedNextNode(p, c, b);
    assert forall id :: id in ids <==> 1 <= id <= b.nextArtifact;
    SortedRange(ids, 1, b.nextArtifact);
  }

  lemma BranchResources(p: State, lo: nat, c: NodeId, b: State, ledger: Ledger)
    requires MergeReady(p, lo, c, b, ledger)
    ensures forall id :: id in b.resources ==> b.resources[id].id == id
    ensures p.resources
         + (map id | id in b.resources :: RemapResource(b.resources[id], NodesOf(p, c, b), ArtifactsOf(p, b)))
         == Merged(p, c, b).resources
  {
    hide Mergeable, RemapResource, RenameResource, MovedNodes, MovedArtifacts, MovedMemo, MergedAttempts, NodesOf,
         ArtifactsOf;
    MergeableParts(p, lo, c, b);
    forall id | id in b.resources
      ensures RemapResource(b.resources[id], NodesOf(p, c, b), ArtifactsOf(p, b))
           == RenameResource(b.resources[id], NodesOf(p, c, b), ArtifactsOf(p, b))
    {
      BranchResourceRemaps(p, lo, c, b, ledger, id);
    }
  }

  /** Every log entry, attempt and memo entry of the branch is mapped, so nothing of it is lost. */
  lemma BranchLogs(p: State, lo: nat, c: NodeId, b: State)
    requires Mergeable(p, lo, c, b)
    ensures var nm, am, f := NodesOf(p, c, b), ArtifactsOf(p, b), Merged(p, c, b);
      && (forall k :: 0 <= k < |b.events| ==> b.events[k].node in nm)
      && (forall k :: 0 <= k < |b.runs| ==> b.runs[k].node in nm)
      && AttemptsMapped(b.attempts, nm)
      && (forall key :: key in b.memo ==> b.memo[key] in am)
      && f.events == p.events + RenameEvents(b.events, nm)
      && f.runs == p.runs + RenameRuns(b.runs, nm)
      && (forall table :: ExtendedSoFar(p.attempts, b.attempts, nm, table, {}) ==> table == f.attempts)
      && p.memo + (map key | key in b.memo :: At(am, b.memo[key])) == f.memo
  {
    hide Mergeable, Numbered, MovedNodes, MovedArtifacts, RenameEvents, RenameRuns, RenameAttempts;
    MergeableParts(p, lo, c, b);
    MergedLogsAt(p, c, b);
    forall table | ExtendedSoFar(p.attempts, b.attempts, NodesOf(p, c, b), table, {})
      ensures table == Merged(p, c, b).attempts
    {
    }
  }
}
