/** The order in which parallel branches finish does not matter: merging them in any order yields the same
    engine up to a renumbering of the ids handed out since. */
module MergeOrder {
  import opened Types
  import opened Nodes
  import opened Resources
  import opened ResourceSafety
  import opened EngineState
  import opened EngineSteps
  import opened Renaming
  import opened Merge
  import opened MergeKeeps

  // ---- Renumberings ----

  datatype Renumbering = Renumbering(nodes: IdMap, nodesBack: IdMap, artifacts: IdMap, artifactsBack: IdMap)

  ghost predicate Inverse(ids: IdMap, back: IdMap)
  {
    && (forall i :: At(back, At(ids, i)) == i)
    && (forall i :: At(ids, At(back, i)) == i)
  }

  predicate Within(ids: IdMap, base: nat, top: nat)
  {
    forall i :: i in ids ==> base < i <= top && base < ids[i] <= top
  }

  /** A permutation of the ids base+1..top that leaves all others alone. */
  ghost predicate Permutes(ids: IdMap, back: IdMap, base: nat, top: nat)
  {
    Inverse(ids, back) && Within(ids, base, top) && Within(back, base, top)
  }

  function Then(first: IdMap, second: IdMap): IdMap
  {
    map i | i in first.Keys + second.Keys :: At(second, At(first, i))
  }

  lemma AtThen(first: IdMap, second: IdMap, i: nat)
    ensures At(Then(first, second), i) == At(second, At(first, i))
  {
  }

  lemma PermutesThen(first: IdMap, firstBack: IdMap, second: IdMap, secondBack: IdMap, base: nat, top: nat)
    requires Permutes(first, firstBack, base, top) && Permutes(second, secondBack, base, top)
    ensures Permutes(Then(first, second), Then(secondBack, firstBack), base, top)
  {
    hide Then;
    var ids, back := Then(first, second), Then(secondBack, firstBack);
    forall i: nat
      ensures At(back, At(ids, i)) == i && At(ids, At(back, i)) == i
    {
      AtThen(first, second, i);
      AtThen(secondBack, firstBack, At(ids, i));
      AtThen(secondBack, firstBack, i);
      AtThen(first, second, At(back, i));
    }
    ThenWithin(first, second, base, top);
    ThenWithin(secondBack, firstBack, base, top);
  }

  lemma ThenWithin(first: IdMap, second: IdMap, base: nat, top: nat)
    requires Within(first, base, top) && Within(second, base, top)
    ensures Within(Then(first, second), base, top)
  {
    var ids := Then(first, second);
    forall i | i in ids
      ensures base < i <= top && base < ids[i] <= top
    {
      assert ids[i] == At(second, At(first, i));
    }
  }

  // ---- Two adjacent blocks of ids trade places ----

  function Traded(base: nat, n: nat, m: nat, i: nat): nat
  {
    if base < i <= base + n then i + m else if base + n < i <= base + n + m then i - n else i
  }

  function Trade(base: nat, n: nat, m: nat): IdMap
  {
    map i: nat | base < i <= base + n + m :: Traded(base, n, m, i)
  }

  lemma AtTrade(base: nat, n: nat, m: nat, i: nat)
    ensures At(Trade(base, n, m), i) == Traded(base, n, m, i)
  {
  }

  lemma TradePermutes(base: nat, n: nat, m: nat)
    ensures Permutes(Trade(base, n, m), Trade(base, m, n), base, base + n + m)
  {
    forall i: nat
      ensures At(Trade(base, m, n), At(Trade(base, n, m), i)) == i
      ensures At(Trade(base, n, m), At(Trade(base, m, n), i)) == i
    {
      AtTrade(base, n, m, i);
      AtTrade(base, m, n, Traded(base, n, m, i));
      AtTrade(base, m, n, i);
      AtTrade(base, n, m, Traded(base, m, n, i));
    }
  }

  // ---- Renaming twice, and renaming what stays put ----

  /** `first` and then `second` do what `both` does, on ids up to `top`. */
  ghost predicate Composes(first: IdMap, second: IdMap, both: IdMap, top: nat)
  {
    forall i :: 0 <= i <= top ==> At(second, At(first, i)) == At(both, i)
  }

  ghost predicate Fixes(ids: IdMap, top: nat)
  {
    forall i :: 0 <= i <= top ==> At(ids, i) == i
  }

  predicate NodeWithin(node: ProblemNode, nodes: nat, artifacts: nat)
  {
    && node.id <= nodes
    && (node.parent.Some? ==> node.parent.value <= nodes)
    && (forall k :: 0 <= k < |node.children| ==> node.children[k] <= nodes)
    && (node.candidate.Some? ==> node.candidate.value <= artifacts)
    && (node.accepted.Some? ==> node.accepted.value <= artifacts)
  }

  predicate ArtifactWithin(artifact: Artifact, nodes: nat, artifacts: nat)
  {
    && artifact.id <= artifacts && artifact.node <= nodes && Bare(artifact.change)
    && (forall k :: 0 <= k < |artifact.children| ==> artifact.children[k] <= artifacts)
  }

  predicate RefWithin(ref: ResourceRef, nodes: nat, artifacts: nat)
  {
    match ref
    case RunningNode(n) => n <= nodes
    case ChildInputForCombine(n) => n <= nodes
    case MergeSurface(n) => n <= nodes
    case CandidateArtifact(a) => a <= artifacts
    case DebugRetain => true
  }

  predicate ResourceWithin(resource: Resource, nodes: nat, artifacts: nat)
  {
    forall k :: 0 <= k < |resource.refs| ==> RefWithin(resource.refs[k], nodes, artifacts)
  }

  lemma NodeTwice(node: ProblemNode, n1: IdMap, a1: IdMap, n2: IdMap, a2: IdMap, n3: IdMap, a3: IdMap, nodes: nat,
                  artifacts: nat)
    requires NodeWithin(node, nodes, artifacts) && Composes(n1, n2, n3, nodes) && Composes(a1, a2, a3, artifacts)
    ensures RenameNode(RenameNode(node, n1, a1), n2, a2) == RenameNode(node, n3, a3)
  {
    hide At;
    assert AtAll(n2, AtAll(n1, node.children)) == AtAll(n3, node.children);
  }

  lemma BareStays(change: Option<Change>, nodes: IdMap, artifacts: IdMap)
    requires Bare(change)
    ensures change.Some? ==> RemapChange(change.value, nodes, artifacts) == change.value
  {
    if change.Some? {
      var resources := change.value.resources;
      forall k | 0 <= k < |resources|
        ensures RemapResource(resources[k], nodes, artifacts) == resources[k]
      {
      }
      assert RemapChange(change.value, nodes, artifacts).resources == resources;
    }
  }

  lemma ArtifactTwice(artifact: Artifact, n1: IdMap, a1: IdMap, n2: IdMap, a2: IdMap, n3: IdMap, a3: IdMap,
                      nodes: nat, artifacts: nat)
    requires ArtifactWithin(artifact, nodes, artifacts) && Composes(n1, n2, n3, nodes)
    requires Composes(a1, a2, a3, artifacts)
    ensures RenameArtifact(RenameArtifact(artifact, n1, a1), n2, a2) == RenameArtifact(artifact, n3, a3)
  {
    BareStays(artifact.change, n1, a1);
    BareStays(artifact.change, n2, a2);
    BareStays(artifact.change, n3, a3);
    hide At, RemapChange, Bare;
    assert AtAll(a2, AtAll(a1, artifact.children)) == AtAll(a3, artifact.children);
  }

  lemma RefTwice(ref: ResourceRef, n1: IdMap, a1: IdMap, n2: IdMap, a2: IdMap, n3: IdMap, a3: IdMap, nodes: nat,
                 artifacts: nat)
    requires RefWithin(ref, nodes, artifacts) && Composes(n1, n2, n3, nodes) && Composes(a1, a2, a3, artifacts)
    ensures RenameRef(RenameRef(ref, n1, a1), n2, a2) == RenameRef(ref, n3, a3)
  {
    hide At;
  }

  lemma ResourceTwice(resource: Resource, n1: IdMap, a1: IdMap, n2: IdMap, a2: IdMap, n3: IdMap, a3: IdMap,
                      nodes: nat, artifacts: nat)
    requires ResourceWithin(resource, nodes, artifacts) && Composes(n1, n2, n3, nodes)
    requires Composes(a1, a2, a3, artifacts)
    ensures RenameResource(RenameResource(resource, n1, a1), n2, a2) == RenameResource(resource, n3, a3)
  {
    hide At, RenameRef, Composes;
    forall k | 0 <= k < |resource.refs|
      ensures RenameRef(RenameRef(resource.refs[k], n1, a1), n2, a2) == RenameRef(resource.refs[k], n3, a3)
    {
      RefTwice(resource.refs[k], n1, a1, n2, a2, n3, a3, nodes, artifacts);
    }
    assert RenameResource(RenameResource(resource, n1, a1), n2, a2).refs == RenameResource(resource, n3, a3).refs;
  }

  predicate EventsWithin(events: seq<OperationEvent>, nodes: nat)
  {
    forall k :: 0 <= k < |events| ==> events[k].node <= nodes
  }

  predicate RunsWithin(runs: seq<RunRecord>, nodes: nat)
  {
    forall k :: 0 <= k < |runs| ==> runs[k].node <= nodes
  }

  predicate AttemptsWithin(attempts: seq<AttemptRecord>, nodes: nat)
  {
    forall k :: 0 <= k < |attempts| ==> attempts[k].node <= nodes
  }

  lemma LogsTwice(events: seq<OperationEvent>, runs: seq<RunRecord>, n1: IdMap, n2: IdMap, n3: IdMap, nodes: nat)
    requires EventsWithin(events, nodes) && RunsWithin(runs, nodes) && Composes(n1, n2, n3, nodes)
    ensures RenameEvents(RenameEvents(events, n1), n2) == RenameEvents(events, n3)
    ensures RenameRuns(RenameRuns(runs, n1), n2) == RenameRuns(runs, n3)
  {
    hide At;
  }

  lemma AttemptsTwice(attempts: seq<AttemptRecord>, n1: IdMap, n2: IdMap, n3: IdMap, nodes: nat)
    requires AttemptsWithin(attempts, nodes) && Composes(n1, n2, n3, nodes)
    ensures RenameAttempts(RenameAttempts(attempts, n1), n2) == RenameAttempts(attempts, n3)
  {
    hide At;
  }

  lemma NodeStays(node: ProblemNode, n: IdMap, a: IdMap, nodes: nat, artifacts: nat)
    requires NodeWithin(node, nodes, artifacts) && Fixes(n, nodes) && Fixes(a, artifacts)
    ensures RenameNode(node, n, a) == node
  {
    hide At;
    assert AtAll(n, node.children) == node.children;
  }

  lemma ArtifactStays(artifact: Artifact, n: IdMap, a: IdMap, nodes: nat, artifacts: nat)
    requires ArtifactWithin(artifact, nodes, artifacts) && Fixes(n, nodes) && Fixes(a, artifacts)
    ensures RenameArtifact(artifact, n, a) == artifact
  {
    BareStays(artifact.change, n, a);
    hide At, RemapChange, Bare;
    assert AtAll(a, artifact.children) == artifact.children;
  }

  lemma ResourceStays(resource: Resource, n: IdMap, a: IdMap, nodes: nat, artifacts: nat)
    requires ResourceWithin(resource, nodes, artifacts) && Fixes(n, nodes) && Fixes(a, artifacts)
    ensures RenameResource(resource, n, a) == resource
  {
    hide At;
    forall k | 0 <= k < |resource.refs|
      ensures RenameRef(resource.refs[k], n, a) == resource.refs[k]
    {
      assert RefWithin(resource.refs[k], nodes, artifacts);
    }
    assert RenameResource(resource, n, a).refs == resource.refs;
  }

  lemma LogsStay(events: seq<OperationEvent>, runs: seq<RunRecord>, n: IdMap, nodes: nat)
    requires EventsWithin(events, nodes) && RunsWithin(runs, nodes) && Fixes(n, nodes)
    ensures RenameEvents(events, n) == events && RenameRuns(runs, n) == runs
  {
    hide At;
  }

  lemma AttemptsStay(attempts: seq<AttemptRecord>, n: IdMap, nodes: nat)
    requires AttemptsWithin(attempts, nodes) && Fixes(n, nodes)
    ensures RenameAttempts(attempts, n) == attempts
  {
    hide At;
  }

  // ---- In a well-formed engine every id is one it handed out ----

  lemma StoreWithin(s: State, lo: nat, i: NodeId)
    requires StoreOk(s, lo) && i in s.nodes
    ensures NodeWithin(s.nodes[i], s.nextNode, s.nextArtifact)
  {
    assert Linked(s, i) && Produced(s, i);
    hide Staged, Grouped, ArtifactOk, MemoOk, LogsOk;
  }

  lemma StoreArtifactWithin(s: State, lo: nat, a: ArtifactId)
    requires StoreOk(s, lo) && a in s.artifacts
    ensures ArtifactWithin(s.artifacts[a], s.nextNode, s.nextArtifact)
  {
    hide Linked, Produced, Staged, Grouped, MemoOk, LogsOk;
    assert ArtifactOk(s, a);
  }

  lemma StoreMemoWithin(s: State, lo: nat, key: ProblemKey)
    requires StoreOk(s, lo) && key in s.memo
    ensures s.memo[key] in s.artifacts && 1 <= s.memo[key] <= s.nextArtifact
  {
    hide Linked, Produced, Staged, Grouped, ArtifactOk, LogsOk;
    assert Acceptable(s, s.memo[key], key);
  }

  lemma StoreLogsWithin(s: State, lo: nat)
    requires StoreOk(s, lo)
    ensures EventsWithin(s.events, s.nextNode) && RunsWithin(s.runs, s.nextNode)
    ensures forall key :: AttemptsWithin(AttemptsAt(s.attempts, key), s.nextNode)
  {
    hide Linked, Produced, Staged, Grouped, ArtifactOk, MemoOk;
  }

  lemma TableWithin(table: Table, lo: nat, nodes: nat, artifacts: nat, id: ResourceId)
    requires RefsKnown(table, lo, nodes, artifacts) && id in table
    ensures ResourceWithin(table[id], nodes, artifacts)
  {
    forall k | 0 <= k < |table[id].refs|
      ensures RefWithin(table[id].refs[k], nodes, artifacts)
    {
      assert table[id].refs[k] in table[id].refs;
      assert RefKnown(table[id].refs[k], lo, nodes, artifacts);
    }
  }

  // ---- Engines equal up to renumbering ----

  ghost predicate SameNodes(s: State, t: State, r: Renumbering)
  {
    && (forall i :: i in s.nodes ==> At(r.nodes, i) in t.nodes)
    && (forall i :: i in s.nodes ==> t.nodes[At(r.nodes, i)] == RenameNode(s.nodes[i], r.nodes, r.artifacts))
  }

  ghost predicate SameArtifacts(s: State, t: State, r: Renumbering)
  {
    && (forall a :: a in s.artifacts ==> At(r.artifacts, a) in t.artifacts)
    && (forall a :: a in s.artifacts ==>
          t.artifacts[At(r.artifacts, a)] == RenameArtifact(s.artifacts[a], r.nodes, r.artifacts))
  }

  ghost predicate SameTables(s: State, t: State, r: Renumbering)
  {
    && s.memo.Keys == t.memo.Keys && s.attempts.Keys == t.attempts.Keys && s.resources.Keys == t.resources.Keys
    && (forall key :: key in s.memo ==> t.memo[key] == At(r.artifacts, s.memo[key]))
    && (forall key :: key in s.attempts ==> t.attempts[key] == RenameAttempts(s.attempts[key], r.nodes))
    && (forall id :: id in s.resources ==> t.resources[id] == RenameResource(s.resources[id], r.nodes, r.artifacts))
  }

  ghost predicate SameLogs(s: State, t: State, r: Renumbering)
  {
    && multiset(t.events) == multiset(RenameEvents(s.events, r.nodes))
    && multiset(t.runs) == multiset(RenameRuns(s.runs, r.nodes))
  }

  /** `t` is `s` with the ids beyond the bases permuted; logs may be shuffled. */
  ghost predicate Renumbered(s: State, t: State, r: Renumbering, baseNode: NodeId, baseArtifact: ArtifactId)
  {
    && s.nextNode == t.nextNode && s.nextArtifact == t.nextArtifact
    && Permutes(r.nodes, r.nodesBack, baseNode, s.nextNode)
    && Permutes(r.artifacts, r.artifactsBack, baseArtifact, s.nextArtifact)
    && SameNodes(s, t, r) && SameArtifacts(s, t, r) && SameTables(s, t, r) && SameLogs(s, t, r)
  }

  /** All of a state's ids are its own. */
  ghost predicate Closed(s: State)
  {
    && (forall i :: i in s.nodes ==> NodeWithin(s.nodes[i], s.nextNode, s.nextArtifact))
    && (forall a :: a in s.artifacts ==> ArtifactWithin(s.artifacts[a], s.nextNode, s.nextArtifact))
    && (forall key :: key in s.memo ==> s.memo[key] <= s.nextArtifact)
    && EventsWithin(s.events, s.nextNode) && RunsWithin(s.runs, s.nextNode)
    && (forall key :: key in s.attempts ==> AttemptsWithin(s.attempts[key], s.nextNode))
    && (forall id :: id in s.resources ==> ResourceWithin(s.resources[id], s.nextNode, s.nextArtifact))
  }

  lemma StoreClosed(s: State, lo: nat)
    requires StoreOk(s, lo) && RefsKnown(s.resources, lo, s.nextNode, s.nextArtifact)
    ensures Closed(s)
  {
    hide StoreOk, RefsKnown, NodeWithin, ArtifactWithin, EventsWithin, RunsWithin, AttemptsWithin, ResourceWithin;
    StoreLogsWithin(s, lo);
    forall i | i in s.nodes ensures NodeWithin(s.nodes[i], s.nextNode, s.nextArtifact) {
      StoreWithin(s, lo, i);
    }
    forall a | a in s.artifacts ensures ArtifactWithin(s.artifacts[a], s.nextNode, s.nextArtifact) {
      StoreArtifactWithin(s, lo, a);
    }
    forall key | key in s.memo ensures s.memo[key] <= s.nextArtifact {
      StoreMemoWithin(s, lo, key);
    }
    forall key | key in s.attempts ensures AttemptsWithin(s.attempts[key], s.nextNode) {
      assert AttemptsAt(s.attempts, key) == s.attempts[key];
    }
    forall id | id in s.resources ensures ResourceWithin(s.resources[id], s.nextNode, s.nextArtifact) {
      TableWithin(s.resources, lo, s.nextNode, s.nextArtifact, id);
    }
  }

  lemma IdentityFixes(top: nat)
    ensures Fixes(map[], top)
  {
  }

  lemma RenumberedSame(s: State, baseNode: NodeId, baseArtifact: ArtifactId)
    requires Closed(s)
    ensures Renumbered(s, s, Renumbering(map[], map[], map[], map[]), baseNode, baseArtifact)
  {
    hide NodeWithin, ArtifactWithin, EventsWithin, RunsWithin, AttemptsWithin, ResourceWithin, RenameNode,
         RenameArtifact, RenameResource, RenameEvents, RenameRuns, RenameAttempts, Fixes;
    IdentityFixes(s.nextNode);
    IdentityFixes(s.nextArtifact);
    LogsStay(s.events, s.runs, map[], s.nextNode);
    forall i | i in s.nodes ensures RenameNode(s.nodes[i], map[], map[]) == s.nodes[i] {
      NodeStays(s.nodes[i], map[], map[], s.nextNode, s.nextArtifact);
    }
    forall a | a in s.artifacts ensures RenameArtifact(s.artifacts[a], map[], map[]) == s.artifacts[a] {
      ArtifactStays(s.artifacts[a], map[], map[], s.nextNode, s.nextArtifact);
    }
    forall key | key in s.attempts ensures RenameAttempts(s.attempts[key], map[]) == s.attempts[key] {
      AttemptsStay(s.attempts[key], map[], s.nextNode);
    }
    forall id | id in s.resources ensures RenameResource(s.resources[id], map[], map[]) == s.resources[id] {
      ResourceStays(s.resources[id], map[], map[], s.nextNode, s.nextArtifact);
    }
  }

  function Both(first: Renumbering, second: Renumbering): Renumbering
  {
    Renumbering(Then(first.nodes, second.nodes), Then(second.nodesBack, first.nodesBack),
                Then(first.artifacts, second.artifacts), Then(second.artifactsBack, first.artifactsBack))
  }

  lemma ThenComposes(first: IdMap, second: IdMap, top: nat)
    ensures Composes(first, second, Then(first, second), top)
  {
    hide Then;
    forall i: nat | i <= top ensures At(second, At(first, i)) == At(Then(first, second), i) {
      AtThen(first, second, i);
    }
  }

  function Mapped<V>(items: seq<V>, f: V -> V): (mapped: seq<V>)
    ensures |mapped| == |items| && forall k :: 0 <= k < |items| ==> mapped[k] == f(items[k])
  {
    seq(|items|, k requires 0 <= k < |items| => f(items[k]))
  }

  function Removed<V>(items: seq<V>, k: nat): (rest: seq<V>)
    requires k < |items|
    ensures |rest| == |items| - 1
  {
    items[..k] + items[k + 1..]
  }

  lemma TakenOut<V>(items: seq<V>, k: nat)
    requires k < |items|
    ensures multiset(items) == multiset(Removed(items, k)) + multiset{items[k]}
  {
    assert items == items[..k] + [items[k]] + items[k + 1..];
  }

  lemma OneMapped<V>(items: seq<V>, k: nat, f: V -> V)
    requires k < |items|
    ensures multiset(Mapped(items, f)) == multiset(Mapped(Removed(items, k), f)) + multiset{f(items[k])}
  {
    var mapped := Mapped(items, f);
    TakenOut(mapped, k);
    assert Mapped(Removed(items, k), f) == Removed(mapped, k);
  }

  lemma {:induction false} ShuffledMaps<V>(first: seq<V>, second: seq<V>, f: V -> V)
    requires multiset(first) == multiset(second)
    ensures multiset(Mapped(first, f)) == multiset(Mapped(second, f))
    decreases |first|
  {
    hide Mapped, Removed;
    if first == [] {
      assert |multiset(first)| == |multiset(second)|;
    } else {
      assert first[0] in multiset(second);
      var k :| 0 <= k < |second| && second[k] == first[0];
      TakenOut(second, k);
      TakenOut(first, 0);
      OneMapped(first, 0, f);
      OneMapped(second, k, f);
      SameRest(multiset(Removed(first, 0)), multiset(Removed(second, k)), first[0]);
      ShuffledMaps(Removed(first, 0), Removed(second, k), f);
    }
  }

  lemma SameRest<V>(first: multiset<V>, second: multiset<V>, item: V)
    requires first + multiset{item} == second + multiset{item}
    ensures first == second
  {
    assert (first + multiset{item}) - multiset{item} == first;
    assert (second + multiset{item}) - multiset{item} == second;
  }

  lemma ShuffledLogs(s: State, t: State, n: IdMap)
    requires multiset(s.events) == multiset(t.events) && multiset(s.runs) == multiset(t.runs)
    ensures multiset(RenameEvents(s.events, n)) == multiset(RenameEvents(t.events, n))
    ensures multiset(RenameRuns(s.runs, n)) == multiset(RenameRuns(t.runs, n))
  {
    var event := (event: OperationEvent) => event.(node := At(n, event.node));
    var run := (run: RunRecord) => run.(node := At(n, run.node));
    hide At;
    ShuffledMaps(s.events, t.events, event);
    ShuffledMaps(s.runs, t.runs, run);
    assert RenameEvents(s.events, n) == Mapped(s.events, event) && RenameEvents(t.events, n) == Mapped(t.events, event);
    assert RenameRuns(s.runs, n) == Mapped(s.runs, run) && RenameRuns(t.runs, n) == Mapped(t.runs, run);
  }

  lemma SameNodesTwice(s: State, t: State, u: State, first: Renumbering, second: Renumbering)
    requires Closed(s) && SameNodes(s, t, first) && SameNodes(t, u, second)
    ensures SameNodes(s, u, Both(first, second))
  {
    hide NodeWithin, ArtifactWithin, RenameNode, Then, Composes;
    var r := Both(first, second);
    ThenComposes(first.nodes, second.nodes, s.nextNode);
    ThenComposes(first.artifacts, second.artifacts, s.nextArtifact);
    forall i | i in s.nodes
      ensures At(r.nodes, i) in u.nodes && u.nodes[At(r.nodes, i)] == RenameNode(s.nodes[i], r.nodes, r.artifacts)
    {
      AtThen(first.nodes, second.nodes, i);
      NodeTwice(s.nodes[i], first.nodes, first.artifacts, second.nodes, second.artifacts, r.nodes, r.artifacts,
                s.nextNode, s.nextArtifact);
    }
  }

  lemma SameArtifactsTwice(s: State, t: State, u: State, first: Renumbering, second: Renumbering)
    requires Closed(s) && SameArtifacts(s, t, first) && SameArtifacts(t, u, second)
    ensures SameArtifacts(s, u, Both(first, second))
  {
    hide NodeWithin, ArtifactWithin, RenameArtifact, Then, Composes;
    var r := Both(first, second);
    ThenComposes(first.nodes, second.nodes, s.nextNode);
    ThenComposes(first.artifacts, second.artifacts, s.nextArtifact);
    forall a | a in s.artifacts
      ensures At(r.artifacts, a) in u.artifacts
      ensures u.artifacts[At(r.artifacts, a)] == RenameArtifact(s.artifacts[a], r.nodes, r.artifacts)
    {
      AtThen(first.artifacts, second.artifacts, a);
      ArtifactTwice(s.artifacts[a], first.nodes, first.artifacts, second.nodes, second.artifacts, r.nodes,
                    r.artifacts, s.nextNode, s.nextArtifact);
    }
  }

  lemma SameTablesTwice(s: State, t: State, u: State, first: Renumbering, second: Renumbering)
    requires Closed(s) && SameTables(s, t, first) && SameTables(t, u, second)
    ensures SameTables(s, u, Both(first, second))
  {
    hide NodeWithin, ArtifactWithin, AttemptsWithin, ResourceWithin, RenameAttempts, RenameResource, Then, Composes;
    var r := Both(first, second);
    ThenComposes(first.nodes, second.nodes, s.nextNode);
    ThenComposes(first.artifacts, second.artifacts, s.nextArtifact);
    forall key | key in s.memo ensures u.memo[key] == At(r.artifacts, s.memo[key]) {
      AtThen(first.artifacts, second.artifacts, s.memo[key]);
    }
    forall key | key in s.attempts ensures u.attempts[key] == RenameAttempts(s.attempts[key], r.nodes) {
      AttemptsTwice(s.attempts[key], first.nodes, second.nodes, r.nodes, s.nextNode);
    }
    forall id | id in s.resources ensures u.resources[id] == RenameResource(s.resources[id], r.nodes, r.artifacts) {
      ResourceTwice(s.resources[id], first.nodes, first.artifacts, second.nodes, second.artifacts, r.nodes,
                    r.artifacts, s.nextNode, s.nextArtifact);
    }
  }

  lemma SameLogsTwice(s: State, t: State, u: State, first: Renumbering, second: Renumbering)
    requires Closed(s) && SameLogs(s, t, first) && SameLogs(t, u, second)
    ensures SameLogs(s, u, Both(first, second))
  {
    hide RenameEvents, RenameRuns, Then, Composes, EventsWithin, RunsWithin;
    var r := Both(first, second);
    ThenComposes(first.nodes, second.nodes, s.nextNode);
    LogsTwice(s.events, s.runs, first.nodes, second.nodes, r.nodes, s.nextNode);
    var renamed := s.(events := RenameEvents(s.events, first.nodes), runs := RenameRuns(s.runs, first.nodes));
    ShuffledLogs(renamed, t, second.nodes);
  }

  /** Renumbering twice is one renumbering. */
  lemma RenumberedTwice(s: State, t: State, u: State, first: Renumbering, second: Renumbering, baseNode: NodeId,
                        baseArtifact: ArtifactId)
    requires Closed(s)
    requires Renumbered(s, t, first, baseNode, baseArtifact) && Renumbered(t, u, second, baseNode, baseArtifact)
    ensures Renumbered(s, u, Both(first, second), baseNode, baseArtifact)
  {
    hide Closed, SameNodes, SameArtifacts, SameTables, SameLogs, Permutes, Then;
    PermutesThen(first.nodes, first.nodesBack, second.nodes, second.nodesBack, baseNode, s.nextNode);
    PermutesThen(first.artifacts, first.artifactsBack, second.artifacts, second.artifactsBack, baseArtifact,
                 s.nextArtifact);
    SameNodesTwice(s, t, u, first, second);
    SameArtifactsTwice(s, t, u, first, second);
    SameTablesTwice(s, t, u, first, second);
    SameLogsTwice(s, t, u, first, second);
  }

  // ---- Finished branches ----

  /** The engine of a finished branch, and the child it ran. */
  datatype Finished = Finished(child: NodeId, state: State)

  function Joined(p: State, x: Finished): State
    requires x.child <= p.nextNode && x.child <= x.state.nextNode
  {
    Merged(p, x.child, x.state)
  }

  /** A finished branch of a parallel child of `n`, about to be merged into `p`. */
  ghost predicate Joinable(p: State, lo: nat, n: NodeId, x: Finished)
  {
    && Mergeable(p, lo, x.child, x.state)
    && RefsKnown(p.resources, lo, p.nextNode, p.nextArtifact)
    && RefsKnown(x.state.resources, x.child, x.state.nextNode, x.state.nextArtifact)
    && n in p.nodes && p.nodes[x.child].parent == Some(n)
    && p.nodes[n].plan.Group? && p.nodes[n].plan.group.mode == Parallel
  }

  /** Branches of different children; the workspace never hands a resource to two of them. */
  predicate Elsewhere(x: Finished, y: Finished)
  {
    x.child != y.child && x.state.resources.Keys !! y.state.resources.Keys
  }

  /** The branches recorded nothing under a common problem key. */
  predicate KeysApart(x: Finished, y: Finished)
  {
    x.state.memo.Keys !! y.state.memo.Keys && x.state.attempts.Keys !! y.state.attempts.Keys
  }

  predicate Apart(x: Finished, y: Finished)
  {
    Elsewhere(x, y) && KeysApart(x, y)
  }

  lemma JoinableParts(p: State, lo: nat, n: NodeId, x: Finished)
    requires Joinable(p, lo, n, x)
    ensures StoreOk(p, lo) && StoreOk(x.state, x.child) && Numbered(p, lo) && Numbered(x.state, x.child)
    ensures x.child in p.nodes && x.child in x.state.nodes && x.child <= p.nextNode
    ensures x.child <= x.state.nextNode && n < x.child
    ensures x.state.nodes[x.child].parent == Some(n) && p.resources.Keys !! x.state.resources.Keys
    ensures Closed(p) && Closed(x.state)
  {
    StoreClosed(p, lo);
    StoreClosed(x.state, x.child);
    hide Produced, Staged, Grouped, ArtifactOk, MemoOk, LogsOk, RefsKnown, Closed, InTurn;
    assert Linked(p, x.child);
  }

  lemma ParallelInTurn(s: State, n: NodeId, c: NodeId)
    requires c in s.nodes && s.nodes[c].parent == Some(n) && n in s.nodes
    requires s.nodes[n].plan.Group? && s.nodes[n].plan.group.mode == Parallel
    ensures InTurn(s, c)
  {
  }

  /** Merging one branch leaves the others ready to be merged. */
  lemma JoinableAfter(p: State, lo: nat, n: NodeId, x: Finished, y: Finished)
    requires Joinable(p, lo, n, x) && Joinable(p, lo, n, y) && Elsewhere(x, y)
    requires x.child <= p.nextNode && x.child <= x.state.nextNode
    ensures Joinable(Joined(p, x), lo, n, y)
  {
    JoinableParts(p, lo, n, x);
    JoinableParts(p, lo, n, y);
    var t := Joined(p, x);
    MergeKeepsStore(p, lo, x.child, x.state);
    RefsAfter(p, lo, n, x);
    KeysAfter(p, x);
    KeptNodes(p, t, x.child, n, y.child);
    hide StoreOk, RefsKnown, InTurn, Merged, Closed, Numbered, Kept;
    ParallelInTurn(t, n, y.child);
  }

  lemma KeptNodes(p: State, t: State, c: NodeId, n: NodeId, d: NodeId)
    requires Kept(p, t, c) && n in p.nodes && d in p.nodes && c != n && c != d
    ensures n in t.nodes && d in t.nodes && t.nodes[n] == p.nodes[n] && t.nodes[d] == p.nodes[d]
  {
  }

  lemma RefsAfter(p: State, lo: nat, n: NodeId, x: Finished)
    requires Joinable(p, lo, n, x) && x.child <= p.nextNode && x.child <= x.state.nextNode
    ensures var t := Joined(p, x); RefsKnown(t.resources, lo, t.nextNode, t.nextArtifact)
  {
    JoinableParts(p, lo, n, x);
    LoBelow(p, lo, x.child);
    hide StoreOk, RefsKnown, Merged, Closed, Numbered, InTurn;
    MergedRefsKnown(p, lo, x.child, x.state);
  }

  lemma LoBelow(p: State, lo: nat, c: NodeId)
    requires Numbered(p, lo) && c in p.nodes
    ensures lo <= c
  {
  }

  lemma KeysAfter(p: State, x: Finished)
    requires x.child <= p.nextNode && x.child <= x.state.nextNode
    ensures Joined(p, x).resources.Keys == p.resources.Keys + x.state.resources.Keys
  {
    hide MovedNodes, MovedArtifacts, MovedMemo, MergedAttempts, NodesOf, ArtifactsOf, RenameResource;
  }

  // ---- Congruence ----

  /** What a merge adds refers to fixed ids and to ids beyond every permutation. */
  lemma AddedStays(s: State, x: Finished, n: IdMap, a: IdMap, baseNode: NodeId, baseArtifact: ArtifactId)
    requires Numbered(x.state, x.child) && x.child <= baseNode <= s.nextNode && baseArtifact <= s.nextArtifact
    requires Within(n, baseNode, s.nextNode) && Within(a, baseArtifact, s.nextArtifact)
    ensures Composes(NodesOf(s, x.child, x.state), n, NodesOf(s, x.child, x.state), x.state.nextNode)
    ensures Composes(ArtifactsOf(s, x.state), a, ArtifactsOf(s, x.state), x.state.nextArtifact)
  {
    hide NodesOf;
    forall i: nat | i <= x.state.nextNode
      ensures At(n, At(NodesOf(s, x.child, x.state), i)) == At(NodesOf(s, x.child, x.state), i)
    {
      AtNode(s, x.child, x.state, i);
    }
    forall i: nat | i <= x.state.nextArtifact
      ensures At(a, At(ArtifactsOf(s, x.state), i)) == At(ArtifactsOf(s, x.state), i)
    {
    }
  }

  lemma SameMaps(s: State, t: State, x: Finished)
    requires s.nextNode == t.nextNode && s.nextArtifact == t.nextArtifact
    ensures NodesOf(s, x.child, x.state) == NodesOf(t, x.child, x.state)
    ensures ArtifactsOf(s, x.state) == ArtifactsOf(t, x.state)
  {
  }

  /** Two engines equal up to `r`, and a branch that can be merged into either. */
  ghost predicate Alike(s: State, t: State, lo: nat, x: Finished, r: Renumbering, baseNode: NodeId,
                        baseArtifact: ArtifactId)
  {
    && Numbered(s, lo) && Numbered(t, lo) && Numbered(x.state, x.child) && Closed(x.state)
    && x.child in s.nodes && x.child in t.nodes && x.child in x.state.nodes
    && x.child <= baseNode <= s.nextNode && baseArtifact <= s.nextArtifact
    && s.resources.Keys !! x.state.resources.Keys && t.resources.Keys !! x.state.resources.Keys
    && Renumbered(s, t, r, baseNode, baseArtifact)
  }

  lemma AlikeMaps(s: State, t: State, lo: nat, x: Finished, r: Renumbering, baseNode: NodeId, baseArtifact: ArtifactId)
    requires Alike(s, t, lo, x, r, baseNode, baseArtifact)
    ensures s.nextNode == t.nextNode && s.nextArtifact == t.nextArtifact
    ensures x.child <= s.nextNode && x.child <= x.state.nextNode
    ensures NodesOf(s, x.child, x.state) == NodesOf(t, x.child, x.state)
    ensures ArtifactsOf(s, x.state) == ArtifactsOf(t, x.state)
    ensures Composes(NodesOf(s, x.child, x.state), r.nodes, NodesOf(s, x.child, x.state), x.state.nextNode)
    ensures Composes(ArtifactsOf(s, x.state), r.artifacts, ArtifactsOf(s, x.state), x.state.nextArtifact)
    ensures At(r.nodes, x.child) == x.child
    ensures forall i :: At(r.nodes, i) == x.child ==> i == x.child
    ensures forall i :: i > s.nextNode ==> At(r.nodes, i) == i
    ensures forall a :: a > s.nextArtifact ==> At(r.artifacts, a) == a
  {
    hide NodesOf, ArtifactsOf, SameNodes, SameArtifacts, SameTables, SameLogs, Closed, Composes;
    SameMaps(s, t, x);
    AddedStays(s, x, r.nodes, r.artifacts, baseNode, baseArtifact);
    assert At(r.nodesBack, x.child) == x.child;
    forall i: nat | At(r.nodes, i) == x.child ensures i == x.child {
      assert At(r.nodesBack, At(r.nodes, i)) == i;
    }
  }

  lemma AlikeParts(s: State, t: State, lo: nat, x: Finished, r: Renumbering, baseNode: NodeId, baseArtifact: ArtifactId)
    requires Alike(s, t, lo, x, r, baseNode, baseArtifact)
    ensures Numbered(s, lo) && Numbered(t, lo) && Numbered(x.state, x.child)
    ensures x.child in s.nodes && x.child in t.nodes && x.child in x.state.nodes
    ensures x.child <= s.nextNode && x.child <= t.nextNode && x.child <= x.state.nextNode
    ensures s.resources.Keys !! x.state.resources.Keys && t.resources.Keys !! x.state.resources.Keys
    ensures SameNodes(s, t, r) && SameArtifacts(s, t, r) && SameTables(s, t, r) && SameLogs(s, t, r)
    ensures Closed(x.state)
  {
    hide SameNodes, SameArtifacts, SameTables, SameLogs, Closed, Permutes;
  }

  lemma ClosedNode(s: State, i: NodeId)
    requires Closed(s) && i in s.nodes
    ensures NodeWithin(s.nodes[i], s.nextNode, s.nextArtifact)
  {
  }

  lemma ClosedArtifact(s: State, a: ArtifactId)
    requires Closed(s) && a in s.artifacts
    ensures ArtifactWithin(s.artifacts[a], s.nextNode, s.nextArtifact)
  {
  }

  lemma ClosedTables(s: State, key: ProblemKey, id: ResourceId)
    requires Closed(s)
    ensures key in s.memo ==> s.memo[key] <= s.nextArtifact
    ensures key in s.attempts ==> AttemptsWithin(s.attempts[key], s.nextNode)
    ensures id in s.resources ==> ResourceWithin(s.resources[id], s.nextNode, s.nextArtifact)
  {
  }

  lemma SameNodesAt(s: State, t: State, r: Renumbering, i: NodeId)
    requires SameNodes(s, t, r) && i in s.nodes
    ensures At(r.nodes, i) in t.nodes && t.nodes[At(r.nodes, i)] == RenameNode(s.nodes[i], r.nodes, r.artifacts)
  {
  }

  lemma SameArtifactsAt(s: State, t: State, r: Renumbering, a: ArtifactId)
    requires SameArtifacts(s, t, r) && a in s.artifacts
    ensures At(r.artifacts, a) in t.artifacts
    ensures t.artifacts[At(r.artifacts, a)] == RenameArtifact(s.artifacts[a], r.nodes, r.artifacts)
  {
  }

  lemma SameTablesAt(s: State, t: State, r: Renumbering, key: ProblemKey, id: ResourceId)
    requires SameTables(s, t, r)
    ensures key in s.memo <==> key in t.memo
    ensures key in s.attempts <==> key in t.attempts
    ensures id in s.resources <==> id in t.resources
    ensures key in s.memo ==> t.memo[key] == At(r.artifacts, s.memo[key])
    ensures AttemptsAt(t.attempts, key) == RenameAttempts(AttemptsAt(s.attempts, key), r.nodes)
    ensures id in s.resources ==> t.resources[id] == RenameResource(s.resources[id], r.nodes, r.artifacts)
  {
  }

  lemma JoinedSameNode(s: State, t: State, lo: nat, x: Finished, r: Renumbering, baseNode: NodeId,
                       baseArtifact: ArtifactId, j: NodeId)
    requires Alike(s, t, lo, x, r, baseNode, baseArtifact)
    requires x.child <= s.nextNode && x.child <= t.nextNode && x.child <= x.state.nextNode && j in Joined(s, x).nodes
    ensures At(r.nodes, j) in Joined(t, x).nodes
    ensures Joined(t, x).nodes[At(r.nodes, j)] == RenameNode(Joined(s, x).nodes[j], r.nodes, r.artifacts)
  {
    hide Alike, Numbered, Closed, NodesOf, ArtifactsOf, Merged, RenameNode, SameNodes, SameArtifacts, SameTables,
         SameLogs, Composes, At, Permutes, NodeWithin;
    AlikeMaps(s, t, lo, x, r, baseNode, baseArtifact);
    AlikeParts(s, t, lo, x, r, baseNode, baseArtifact);
    var c, b := x.child, x.state;
    MergedNodeAt(s, lo, c, b, j);
    MergedNodeAt(t, lo, c, b, At(r.nodes, j));
    MergedNextNode(s, c, b);
    MergedNextNode(t, c, b);
    NodesBelow(s, lo, j);
    NodesBelow(t, lo, At(r.nodes, j));
    if j in s.nodes && j != c {
      SameNodesAt(s, t, r, j);
    } else {
      var i := Unshift(s.nextNode, c, j);
      ClosedNode(b, i);
      NodeTwice(b.nodes[i], NodesOf(s, c, b), ArtifactsOf(s, b), r.nodes, r.artifacts, NodesOf(s, c, b),
                ArtifactsOf(s, b), b.nextNode, b.nextArtifact);
    }
  }

  lemma NodesBelow(s: State, lo: nat, i: NodeId)
    requires Numbered(s, lo)
    ensures i in s.nodes <==> lo <= i <= s.nextNode
  {
  }

  lemma ArtifactsBelow(s: State, lo: nat, a: ArtifactId)
    requires Numbered(s, lo)
    ensures a in s.artifacts <==> 1 <= a <= s.nextArtifact
  {
  }

  lemma JoinedSameNodes(s: State, t: State, lo: nat, x: Finished, r: Renumbering, baseNode: NodeId,
                        baseArtifact: ArtifactId)
    requires Alike(s, t, lo, x, r, baseNode, baseArtifact)
    requires x.child <= s.nextNode && x.child <= t.nextNode && x.child <= x.state.nextNode
    ensures SameNodes(Joined(s, x), Joined(t, x), r)
  {
    hide Alike, Merged, RenameNode, At;
    forall j | j in Joined(s, x).nodes
      ensures At(r.nodes, j) in Joined(t, x).nodes
      ensures Joined(t, x).nodes[At(r.nodes, j)] == RenameNode(Joined(s, x).nodes[j], r.nodes, r.artifacts)
    {
      JoinedSameNode(s, t, lo, x, r, baseNode, baseArtifact, j);
    }
  }

  lemma JoinedSameArtifact(s: State, t: State, lo: nat, x: Finished, r: Renumbering, baseNode: NodeId,
                           baseArtifact: ArtifactId, a: ArtifactId)
    requires Alike(s, t, lo, x, r, baseNode, baseArtifact)
    requires x.child <= s.nextNode && x.child <= t.nextNode && x.child <= x.state.nextNode
    requires a in Joined(s, x).artifacts
    ensures At(r.artifacts, a) in Joined(t, x).artifacts
    ensures Joined(t, x).artifacts[At(r.artifacts, a)]
         == RenameArtifact(Joined(s, x).artifacts[a], r.nodes, r.artifacts)
  {
    hide Alike, Numbered, Closed, NodesOf, ArtifactsOf, Merged, RenameArtifact, SameNodes, SameArtifacts, SameTables,
         SameLogs, Composes, At, Permutes, ArtifactWithin;
    AlikeMaps(s, t, lo, x, r, baseNode, baseArtifact);
    AlikeParts(s, t, lo, x, r, baseNode, baseArtifact);
    var c, b := x.child, x.state;
    MergedArtifactAt(s, lo, c, b, a);
    MergedArtifactAt(t, lo, c, b, At(r.artifacts, a));
    MergedNextNode(s, c, b);
    MergedNextNode(t, c, b);
    ArtifactsBelow(s, lo, a);
    ArtifactsBelow(t, lo, At(r.artifacts, a));
    if a in s.artifacts {
      SameArtifactsAt(s, t, r, a);
    } else {
      var o := a - s.nextArtifact;
      ClosedArtifact(b, o);
      ArtifactTwice(b.artifacts[o], NodesOf(s, c, b), ArtifactsOf(s, b), r.nodes, r.artifacts, NodesOf(s, c, b),
                    ArtifactsOf(s, b), b.nextNode, b.nextArtifact);
    }
  }

  lemma JoinedSameArtifacts(s: State, t: State, lo: nat, x: Finished, r: Renumbering, baseNode: NodeId,
                            baseArtifact: ArtifactId)
    requires Alike(s, t, lo, x, r, baseNode, baseArtifact)
    requires x.child <= s.nextNode && x.child <= t.nextNode && x.child <= x.state.nextNode
    ensures SameArtifacts(Joined(s, x), Joined(t, x), r)
  {
    hide Alike, Merged, RenameArtifact, At;
    forall a | a in Joined(s, x).artifacts
      ensures At(r.artifacts, a) in Joined(t, x).artifacts
      ensures Joined(t, x).artifacts[At(r.artifacts, a)]
           == RenameArtifact(Joined(s, x).artifacts[a], r.nodes, r.artifacts)
    {
      JoinedSameArtifact(s, t, lo, x, r, baseNode, baseArtifact, a);
    }
  }

  lemma AttemptsApart(first: seq<AttemptRecord>, second: seq<AttemptRecord>, n: IdMap)
    ensures RenameAttempts(first + second, n) == RenameAttempts(first, n) + RenameAttempts(second, n)
  {
    hide At;
  }

  lemma LogsApart(events: seq<OperationEvent>, moreEvents: seq<OperationEvent>, runs: seq<RunRecord>,
                  moreRuns: seq<RunRecord>, n: IdMap)
    ensures RenameEvents(events + moreEvents, n) == RenameEvents(events, n) + RenameEvents(moreEvents, n)
    ensures RenameRuns(runs + moreRuns, n) == RenameRuns(runs, n) + RenameRuns(moreRuns, n)
  {
    hide At;
  }

  lemma NoAttempts(n: IdMap)
    ensures RenameAttempts([], n) == []
  {
  }

  ghost predicate SameEntry(s: State, t: State, r: Renumbering, key: ProblemKey, id: ResourceId)
  {
    && (key in s.memo <==> key in t.memo) && (key in s.memo ==> t.memo[key] == At(r.artifacts, s.memo[key]))
    && (key in s.attempts <==> key in t.attempts)
    && (key in s.attempts ==> t.attempts[key] == RenameAttempts(s.attempts[key], r.nodes))
    && (id in s.resources <==> id in t.resources)
    && (id in s.resources ==> t.resources[id] == RenameResource(s.resources[id], r.nodes, r.artifacts))
  }

  lemma JoinedSameMemo(s: State, t: State, lo: nat, x: Finished, r: Renumbering, baseNode: NodeId,
                       baseArtifact: ArtifactId, key: ProblemKey)
    requires Alike(s, t, lo, x, r, baseNode, baseArtifact)
    requires x.child <= s.nextNode && x.child <= t.nextNode && x.child <= x.state.nextNode
    ensures var u, v := Joined(s, x), Joined(t, x);
      (key in u.memo <==> key in v.memo) && (key in u.memo ==> v.memo[key] == At(r.artifacts, u.memo[key]))
  {
    hide Alike, Numbered, Closed, NodesOf, ArtifactsOf, Merged, RenameAttempts, RenameResource, SameNodes,
         SameArtifacts, SameTables, SameLogs, At, Permutes, AttemptsWithin, ResourceWithin, Composes;
    AlikeMaps(s, t, lo, x, r, baseNode, baseArtifact);
    AlikeParts(s, t, lo, x, r, baseNode, baseArtifact);
    var c, b, nm, am := x.child, x.state, NodesOf(s, x.child, x.state), ArtifactsOf(s, x.state);
    SameTablesAt(s, t, r, key, 0);
    ClosedTables(b, key, 0);
    MergedMemoAt(s, c, b, key);
    MergedMemoAt(t, c, b, key);
    if key in b.memo { ComposesAt(am, r.artifacts, am, b.nextArtifact, b.memo[key]); }
  }

  lemma JoinedSameAttempts(s: State, t: State, lo: nat, x: Finished, r: Renumbering, baseNode: NodeId,
                           baseArtifact: ArtifactId, key: ProblemKey)
    requires Alike(s, t, lo, x, r, baseNode, baseArtifact)
    requires x.child <= s.nextNode && x.child <= t.nextNode && x.child <= x.state.nextNode
    ensures var u, v := Joined(s, x), Joined(t, x);
      && (key in u.attempts <==> key in v.attempts)
      && AttemptsAt(v.attempts, key) == RenameAttempts(AttemptsAt(u.attempts, key), r.nodes)
  {
    hide AttemptsAt, Alike, Numbered, Closed, NodesOf, ArtifactsOf, Merged, RenameAttempts, RenameResource, SameNodes,
         SameArtifacts, SameTables, SameLogs, At, Permutes, AttemptsWithin, ResourceWithin, Composes;
    AlikeMaps(s, t, lo, x, r, baseNode, baseArtifact);
    AlikeParts(s, t, lo, x, r, baseNode, baseArtifact);
    var c, b, nm, am := x.child, x.state, NodesOf(s, x.child, x.state), ArtifactsOf(s, x.state);
    SameKeys(s, t, r, key);
    ClosedAttempts(b, key);
    MergedAttemptsAt(s, c, b, key);
    MergedAttemptsAt(t, c, b, key);
    AttemptsApart(AttemptsAt(s.attempts, key), RenameAttempts(AttemptsAt(b.attempts, key), nm), r.nodes);
    AttemptsTwice(AttemptsAt(b.attempts, key), nm, r.nodes, nm, b.nextNode);
  }

  lemma SameKeys(s: State, t: State, r: Renumbering, key: ProblemKey)
    requires SameTables(s, t, r)
    ensures key in s.attempts <==> key in t.attempts
    ensures AttemptsAt(t.attempts, key) == RenameAttempts(AttemptsAt(s.attempts, key), r.nodes)
  {
  }

  lemma JoinedSameResource(s: State, t: State, lo: nat, x: Finished, r: Renumbering, baseNode: NodeId,
                           baseArtifact: ArtifactId, id: ResourceId)
    requires Alike(s, t, lo, x, r, baseNode, baseArtifact)
    requires x.child <= s.nextNode && x.child <= t.nextNode && x.child <= x.state.nextNode
    ensures var u, v := Joined(s, x), Joined(t, x);
      && (id in u.resources <==> id in v.resources)
      && (id in u.resources ==> v.resources[id] == RenameResource(u.resources[id], r.nodes, r.artifacts))
  {
    hide Alike, Numbered, Closed, NodesOf, ArtifactsOf, Merged, RenameAttempts, RenameResource, SameNodes,
         SameArtifacts, SameTables, SameLogs, At, Permutes, AttemptsWithin, ResourceWithin, Composes;
    AlikeMaps(s, t, lo, x, r, baseNode, baseArtifact);
    AlikeParts(s, t, lo, x, r, baseNode, baseArtifact);
    var c, b, nm, am := x.child, x.state, NodesOf(s, x.child, x.state), ArtifactsOf(s, x.state);
    SameTablesAt(s, t, r, ProblemKey(""), id);
    ClosedTables(b, ProblemKey(""), id);
    MergedResourceAt(s, c, b, id);
    MergedResourceAt(t, c, b, id);
    if id in b.resources {
      ResourceTwice(b.resources[id], nm, am, r.nodes, r.artifacts, nm, am, b.nextNode, b.nextArtifact);
    }
  }

  lemma JoinedSameTables(s: State, t: State, lo: nat, x: Finished, r: Renumbering, baseNode: NodeId,
                         baseArtifact: ArtifactId)
    requires Alike(s, t, lo, x, r, baseNode, baseArtifact)
    requires x.child <= s.nextNode && x.child <= t.nextNode && x.child <= x.state.nextNode
    ensures SameTables(Joined(s, x), Joined(t, x), r)
  {
    hide Alike, Merged, At, RenameAttempts, RenameResource;
    forall key: ProblemKey, id: ResourceId ensures SameEntry(Joined(s, x), Joined(t, x), r, key, id) {
      JoinedSameMemo(s, t, lo, x, r, baseNode, baseArtifact, key);
      JoinedSameAttempts(s, t, lo, x, r, baseNode, baseArtifact, key);
      JoinedSameResource(s, t, lo, x, r, baseNode, baseArtifact, id);
    }
    TablesFrom(Joined(s, x), Joined(t, x), r);
  }

  lemma TablesFrom(s: State, t: State, r: Renumbering)
    requires forall key, id :: SameEntry(s, t, r, key, id)
    ensures SameTables(s, t, r)
  {
    hide RenameAttempts, RenameResource, At;
    forall key: ProblemKey
      ensures key in s.memo <==> key in t.memo
      ensures key in s.memo ==> t.memo[key] == At(r.artifacts, s.memo[key])
      ensures key in s.attempts <==> key in t.attempts
      ensures key in s.attempts ==> t.attempts[key] == RenameAttempts(s.attempts[key], r.nodes)
    {
      assert SameEntry(s, t, r, key, 0);
    }
    forall id: ResourceId
      ensures id in s.resources <==> id in t.resources
      ensures id in s.resources ==> t.resources[id] == RenameResource(s.resources[id], r.nodes, r.artifacts)
    {
      assert SameEntry(s, t, r, ProblemKey(""), id);
    }
    assert s.memo.Keys == t.memo.Keys && s.attempts.Keys == t.attempts.Keys && s.resources.Keys == t.resources.Keys;
  }

  lemma ComposesAt(first: IdMap, second: IdMap, both: IdMap, top: nat, i: nat)
    requires Composes(first, second, both, top) && i <= top
    ensures At(second, At(first, i)) == At(both, i)
  {
  }

  lemma JoinedSameLogs(s: State, t: State, lo: nat, x: Finished, r: Renumbering, baseNode: NodeId,
                       baseArtifact: ArtifactId)
    requires Alike(s, t, lo, x, r, baseNode, baseArtifact)
    requires x.child <= s.nextNode && x.child <= t.nextNode && x.child <= x.state.nextNode
    ensures SameLogs(Joined(s, x), Joined(t, x), r)
  {
    AlikeMaps(s, t, lo, x, r, baseNode, baseArtifact);
    hide NodesOf, ArtifactsOf, Merged, RenameAttempts, RenameResource, RenameEvents, RenameRuns, SameNodes,
         SameArtifacts, SameTables, At, Permutes, NodeWithin, ArtifactWithin, AttemptsWithin, ResourceWithin,
         Composes, EventsWithin, RunsWithin;
    var c, b, nm := x.child, x.state, NodesOf(s, x.child, x.state);
    MergedLogsAt(s, c, b);
    MergedLogsAt(t, c, b);
    LogsApart(s.events, RenameEvents(b.events, nm), s.runs, RenameRuns(b.runs, nm), r.nodes);
    LogsTwice(b.events, b.runs, nm, r.nodes, nm, b.nextNode);
  }

  lemma PermutesMore(ids: IdMap, back: IdMap, base: nat, top: nat, more: nat)
    requires Permutes(ids, back, base, top) && top <= more
    ensures Permutes(ids, back, base, more)
  {
  }

  /** Merging the same branch into equal engines yields equal engines, under the same renumbering. */
  lemma JoinedAlike(s: State, t: State, lo: nat, x: Finished, r: Renumbering, baseNode: NodeId,
                    baseArtifact: ArtifactId)
    requires Alike(s, t, lo, x, r, baseNode, baseArtifact)
    requires x.child <= s.nextNode && x.child <= t.nextNode && x.child <= x.state.nextNode
    ensures Renumbered(Joined(s, x), Joined(t, x), r, baseNode, baseArtifact)
  {
    hide Alike, Merged, SameNodes, SameArtifacts, SameTables, SameLogs, Permutes, Closed, Numbered;
    JoinedSameNodes(s, t, lo, x, r, baseNode, baseArtifact);
    JoinedSameArtifacts(s, t, lo, x, r, baseNode, baseArtifact);
    JoinedSameTables(s, t, lo, x, r, baseNode, baseArtifact);
    JoinedSameLogs(s, t, lo, x, r, baseNode, baseArtifact);
    MergedNextNode(s, x.child, x.state);
    MergedNextNode(t, x.child, x.state);
    AlikePermutes(s, t, lo, x, r, baseNode, baseArtifact);
    PermutesMore(r.nodes, r.nodesBack, baseNode, s.nextNode, Joined(s, x).nextNode);
    PermutesMore(r.artifacts, r.artifactsBack, baseArtifact, s.nextArtifact, Joined(s, x).nextArtifact);
  }

  lemma AlikePermutes(s: State, t: State, lo: nat, x: Finished, r: Renumbering, baseNode: NodeId,
                      baseArtifact: ArtifactId)
    requires Alike(s, t, lo, x, r, baseNode, baseArtifact)
    ensures s.nextNode == t.nextNode && s.nextArtifact == t.nextArtifact
    ensures Permutes(r.nodes, r.nodesBack, baseNode, s.nextNode)
    ensures Permutes(r.artifacts, r.artifactsBack, baseArtifact, s.nextArtifact)
  {
    hide Closed, Numbered, SameNodes, SameArtifacts, SameTables, SameLogs, Permutes;
  }

  // ---- Two neighbours trade places ----

  function Grown(x: Finished): int { x.state.nextNode - x.child }

  /** Everything needed to merge `x` then `y`, or `y` then `x`. */
  ghost predicate Tradable(p: State, lo: nat, x: Finished, y: Finished)
  {
    && x.child != y.child && Numbered(p, lo) && Closed(p)
    && x.child in p.nodes && y.child in p.nodes && x.child <= p.nextNode && y.child <= p.nextNode
    && x.child in x.state.nodes && x.child <= x.state.nextNode && Numbered(x.state, x.child) && Closed(x.state)
    && y.child in y.state.nodes && y.child <= y.state.nextNode && Numbered(y.state, y.child) && Closed(y.state)
    && p.resources.Keys !! x.state.resources.Keys && p.resources.Keys !! y.state.resources.Keys && Apart(x, y)
    && Numbered(Joined(p, x), lo) && y.child in Joined(p, x).nodes && y.child <= Joined(p, x).nextNode
    && Numbered(Joined(p, y), lo) && x.child in Joined(p, y).nodes && x.child <= Joined(p, y).nextNode
  }

  lemma TradableJoinable(p: State, lo: nat, n: NodeId, x: Finished, y: Finished)
    requires Joinable(p, lo, n, x) && Joinable(p, lo, n, y) && Apart(x, y)
    ensures Tradable(p, lo, x, y)
  {
    hide Closed, Merged, InTurn;
    JoinableParts(p, lo, n, x);
    JoinableParts(p, lo, n, y);
    JoinableAfter(p, lo, n, x, y);
    SwappedApart(x, y);
    JoinableAfter(p, lo, n, y, x);
    JoinableParts(Joined(p, x), lo, n, y);
    JoinableParts(Joined(p, y), lo, n, x);
  }

  lemma SwappedApart(x: Finished, y: Finished)
    requires Apart(x, y)
    ensures Apart(y, x)
  {
  }

  ghost predicate Fits(p: State, x: Finished, y: Finished)
  {
    x.child <= p.nextNode && y.child <= p.nextNode && x.child <= x.state.nextNode && y.child <= y.state.nextNode
    && y.child <= Joined(p, x).nextNode && x.child <= Joined(p, y).nextNode
  }

  lemma TradableFits(p: State, lo: nat, x: Finished, y: Finished)
    requires Tradable(p, lo, x, y)
    ensures Fits(p, x, y)
  {
  }

  /** The renumbering between merging `x` first and merging `y` first. */
  ghost function Traders(p: State, x: Finished, y: Finished): Renumbering
    requires Fits(p, x, y)
  {
    Renumbering(
      Trade(p.nextNode, Grown(x), Grown(y)), Trade(p.nextNode, Grown(y), Grown(x)),
      Trade(p.nextArtifact, x.state.nextArtifact, y.state.nextArtifact),
      Trade(p.nextArtifact, y.state.nextArtifact, x.state.nextArtifact))
  }

  lemma TradeFirst(base: NodeId, x: Finished, y: Finished, p: State, q: State)
    requires Numbered(x.state, x.child) && x.child <= x.state.nextNode && y.child <= y.state.nextNode && x.child <= base
    requires p.nextNode == base && q.nextNode == base + Grown(y)
    ensures Composes(NodesOf(p, x.child, x.state), Trade(base, Grown(x), Grown(y)),
                     NodesOf(q, x.child, x.state), x.state.nextNode)
  {
    hide NodesOf, Trade, Numbered;
    forall i: nat | i <= x.state.nextNode
      ensures At(Trade(base, Grown(x), Grown(y)), At(NodesOf(p, x.child, x.state), i))
           == At(NodesOf(q, x.child, x.state), i)
    {
      AtNode(p, x.child, x.state, i);
      AtNode(q, x.child, x.state, i);
      AtTrade(base, Grown(x), Grown(y), ShiftNode(base, x.child, i));
    }
  }

  lemma TradeSecond(base: NodeId, x: Finished, y: Finished, p: State, q: State)
    requires Numbered(y.state, y.child) && x.child <= x.state.nextNode && y.child <= y.state.nextNode && y.child <= base
    requires p.nextNode == base + Grown(x) && q.nextNode == base
    ensures Composes(NodesOf(p, y.child, y.state), Trade(base, Grown(x), Grown(y)),
                     NodesOf(q, y.child, y.state), y.state.nextNode)
  {
    hide NodesOf, Trade, Numbered;
    forall i: nat | i <= y.state.nextNode
      ensures At(Trade(base, Grown(x), Grown(y)), At(NodesOf(p, y.child, y.state), i))
           == At(NodesOf(q, y.child, y.state), i)
    {
      AtNode(p, y.child, y.state, i);
      AtNode(q, y.child, y.state, i);
      AtTrade(base, Grown(x), Grown(y), ShiftNode(p.nextNode, y.child, i));
    }
  }

  lemma TradeFixes(base: nat, n: nat, m: nat)
    ensures Fixes(Trade(base, n, m), base)
  {
    forall i: nat | i <= base ensures At(Trade(base, n, m), i) == i {
      AtTrade(base, n, m, i);
    }
  }

  lemma TradeMaps(p: State, lo: nat, x: Finished, y: Finished)
    requires Tradable(p, lo, x, y) && Fits(p, x, y)
    ensures var r := Traders(p, x, y);
      && Composes(NodesOf(p, x.child, x.state), r.nodes, NodesOf(Joined(p, y), x.child, x.state), x.state.nextNode)
      && Composes(NodesOf(Joined(p, x), y.child, y.state), r.nodes, NodesOf(p, y.child, y.state), y.state.nextNode)
      && Fixes(r.nodes, p.nextNode)
  {
    hide Closed, NodesOf, ArtifactsOf, Merged, Trade, Apart, Numbered, Composes, Fixes;
    MergedNextNode(p, x.child, x.state);
    MergedNextNode(p, y.child, y.state);
    TradeFirst(p.nextNode, x, y, p, Joined(p, y));
    TradeSecond(p.nextNode, x, y, Joined(p, x), p);
    TradeFixes(p.nextNode, Grown(x), Grown(y));
  }

  lemma AtArtifacts(p: State, b: State, c: NodeId, a: ArtifactId)
    requires Numbered(b, c)
    ensures At(ArtifactsOf(p, b), a) == if 1 <= a <= b.nextArtifact then a + p.nextArtifact else a
  {
  }

  lemma TradeArtifactMaps(p: State, lo: nat, x: Finished, y: Finished)
    requires Tradable(p, lo, x, y) && Fits(p, x, y)
    ensures var r := Traders(p, x, y);
      && Composes(ArtifactsOf(p, x.state), r.artifacts, ArtifactsOf(Joined(p, y), x.state), x.state.nextArtifact)
      && Composes(ArtifactsOf(Joined(p, x), y.state), r.artifacts, ArtifactsOf(p, y.state), y.state.nextArtifact)
      && Fixes(r.artifacts, p.nextArtifact)
  {
    hide Closed, NodesOf, ArtifactsOf, Merged, Trade, Apart, Numbered;
    var r := Traders(p, x, y);
    var n, m := x.state.nextArtifact, y.state.nextArtifact;
    MergedNextNode(p, x.child, x.state);
    MergedNextNode(p, y.child, y.state);
    forall a: nat | a <= n
      ensures At(r.artifacts, At(ArtifactsOf(p, x.state), a)) == At(ArtifactsOf(Joined(p, y), x.state), a)
    {
      AtArtifacts(p, x.state, x.child, a);
      AtArtifacts(Joined(p, y), x.state, x.child, a);
      AtTrade(p.nextArtifact, n, m, At(ArtifactsOf(p, x.state), a));
    }
    forall a: nat | a <= m
      ensures At(r.artifacts, At(ArtifactsOf(Joined(p, x), y.state), a)) == At(ArtifactsOf(p, y.state), a)
    {
      AtArtifacts(p, y.state, y.child, a);
      AtArtifacts(Joined(p, x), y.state, y.child, a);
      AtTrade(p.nextArtifact, n, m, At(ArtifactsOf(Joined(p, x), y.state), a));
    }
    forall a: nat | a <= p.nextArtifact ensures At(r.artifacts, a) == a {
      AtTrade(p.nextArtifact, n, m, a);
    }
  }

  lemma TradableParts(p: State, lo: nat, x: Finished, y: Finished)
    requires Tradable(p, lo, x, y) && Fits(p, x, y)
    ensures x.child != y.child && Numbered(p, lo) && Numbered(x.state, x.child) && Numbered(y.state, y.child)
    ensures x.child in p.nodes && y.child in p.nodes && x.child in x.state.nodes && y.child in y.state.nodes
    ensures Numbered(Joined(p, x), lo) && y.child in Joined(p, x).nodes
    ensures Numbered(Joined(p, y), lo) && x.child in Joined(p, y).nodes
    ensures Closed(p) && Closed(x.state) && Closed(y.state) && Apart(x, y)
    ensures p.resources.Keys !! x.state.resources.Keys && p.resources.Keys !! y.state.resources.Keys
  {
    hide Closed, Merged, Numbered, Apart;
  }

  lemma TradedNode(p: State, lo: nat, x: Finished, y: Finished, j: NodeId)
    requires Tradable(p, lo, x, y) && Fits(p, x, y) && j in Joined(Joined(p, x), y).nodes
    ensures var s, t, r := Joined(Joined(p, x), y), Joined(Joined(p, y), x), Traders(p, x, y);
      At(r.nodes, j) in t.nodes && t.nodes[At(r.nodes, j)] == RenameNode(s.nodes[j], r.nodes, r.artifacts)
  {
    hide Tradable, Closed, Numbered, Merged, NodesOf, ArtifactsOf, RenameNode, NodeWithin, Trade, Composes, Fixes, At,
         Apart;
    TradableParts(p, lo, x, y);
    TradeMaps(p, lo, x, y);
    TradeArtifactMaps(p, lo, x, y);
    var px, py, r := Joined(p, x), Joined(p, y), Traders(p, x, y);
    NodesBelow(p, lo, j);
    MergedNextNode(p, x.child, x.state);
    MergedNextNode(p, y.child, y.state);
    MergedNextNode(py, x.child, x.state);
    MergedNodeAt(px, lo, y.child, y.state, j);
    MergedNodeAt(p, lo, x.child, x.state, j);
    if j in px.nodes && j != y.child {
      if j in p.nodes && j != x.child {
        FixesAt(r.nodes, p.nextNode, j);
        MergedNodeAt(p, lo, y.child, y.state, j);
        MergedNodeAt(py, lo, x.child, x.state, j);
        ClosedNode(p, j);
        NodeStays(p.nodes[j], r.nodes, r.artifacts, p.nextNode, p.nextArtifact);
      } else {
        var i := Unshift(p.nextNode, x.child, j);
        NodesBelow(x.state, x.child, i);
        AtNode(p, x.child, x.state, i);
        ComposesAt(NodesOf(p, x.child, x.state), r.nodes, NodesOf(py, x.child, x.state), x.state.nextNode, i);
        MergedNodeImage(py, lo, x.child, x.state, i);
        ClosedNode(x.state, i);
        NodeTwice(x.state.nodes[i], NodesOf(p, x.child, x.state), ArtifactsOf(p, x.state), r.nodes, r.artifacts,
                  NodesOf(py, x.child, x.state), ArtifactsOf(py, x.state), x.state.nextNode, x.state.nextArtifact);
      }
    } else {
      var i := Unshift(px.nextNode, y.child, j);
      NodesBelow(y.state, y.child, i);
      AtNode(px, y.child, y.state, i);
      ComposesAt(NodesOf(px, y.child, y.state), r.nodes, NodesOf(p, y.child, y.state), y.state.nextNode, i);
      MergedNodeImage(p, lo, y.child, y.state, i);
      MergedNodeAt(py, lo, x.child, x.state, At(r.nodes, j));
      NodesBelow(py, lo, At(r.nodes, j));
      AtNode(p, y.child, y.state, i);
      NodesBelow(p, lo, x.child);
      ClosedNode(y.state, i);
      NodeTwice(y.state.nodes[i], NodesOf(px, y.child, y.state), ArtifactsOf(px, y.state), r.nodes, r.artifacts,
                NodesOf(p, y.child, y.state), ArtifactsOf(p, y.state), y.state.nextNode, y.state.nextArtifact);
    }
  }

  lemma FixesAt(ids: IdMap, top: nat, i: nat)
    requires Fixes(ids, top) && i <= top
    ensures At(ids, i) == i
  {
  }

  lemma TradedArtifact(p: State, lo: nat, x: Finished, y: Finished, a: ArtifactId)
    requires Tradable(p, lo, x, y) && Fits(p, x, y) && a in Joined(Joined(p, x), y).artifacts
    ensures var s, t, r := Joined(Joined(p, x), y), Joined(Joined(p, y), x), Traders(p, x, y);
      && At(r.artifacts, a) in t.artifacts
      && t.artifacts[At(r.artifacts, a)] == RenameArtifact(s.artifacts[a], r.nodes, r.artifacts)
  {
    hide Tradable, Closed, Numbered, Merged, NodesOf, ArtifactsOf, RenameArtifact, ArtifactWithin, Trade, Composes,
         Fixes, At, Apart;
    TradableParts(p, lo, x, y);
    TradeMaps(p, lo, x, y);
    TradeArtifactMaps(p, lo, x, y);
    var px, py, r := Joined(p, x), Joined(p, y), Traders(p, x, y);
    ArtifactsBelow(p, lo, a);
    MergedNextNode(p, x.child, x.state);
    MergedNextNode(p, y.child, y.state);
    MergedNextNode(py, x.child, x.state);
    MergedArtifactAt(px, lo, y.child, y.state, a);
    MergedArtifactAt(p, lo, x.child, x.state, a);
    if a in px.artifacts {
      if a in p.artifacts {
        FixesAt(r.artifacts, p.nextArtifact, a);
        MergedArtifactAt(p, lo, y.child, y.state, a);
        MergedArtifactAt(py, lo, x.child, x.state, a);
        ClosedArtifact(p, a);
        ArtifactStays(p.artifacts[a], r.nodes, r.artifacts, p.nextNode, p.nextArtifact);
      } else {
        var o := a - p.nextArtifact;
        ArtifactsBelow(x.state, x.child, o);
        AtArtifact(p, x.child, x.state, o);
        ComposesAt(ArtifactsOf(p, x.state), r.artifacts, ArtifactsOf(py, x.state), x.state.nextArtifact, o);
        MergedArtifactImage(py, lo, x.child, x.state, o);
        ClosedArtifact(x.state, o);
        ArtifactTwice(x.state.artifacts[o], NodesOf(p, x.child, x.state), ArtifactsOf(p, x.state), r.nodes, r.artifacts,
                      NodesOf(py, x.child, x.state), ArtifactsOf(py, x.state), x.state.nextNode, x.state.nextArtifact);
      }
    } else {
      var o := a - px.nextArtifact;
      ArtifactsBelow(y.state, y.child, o);
      AtArtifact(px, y.child, y.state, o);
      ComposesAt(ArtifactsOf(px, y.state), r.artifacts, ArtifactsOf(p, y.state), y.state.nextArtifact, o);
      MergedArtifactImage(p, lo, y.child, y.state, o);
      MergedArtifactAt(py, lo, x.child, x.state, At(r.artifacts, a));
      ArtifactsBelow(py, lo, At(r.artifacts, a));
      ClosedArtifact(y.state, o);
      ArtifactTwice(y.state.artifacts[o], NodesOf(px, y.child, y.state), ArtifactsOf(px, y.state), r.nodes, r.artifacts,
                    NodesOf(p, y.child, y.state), ArtifactsOf(p, y.state), y.state.nextNode, y.state.nextArtifact);
    }
  }

  lemma TradedMemo(p: State, lo: nat, x: Finished, y: Finished, key: ProblemKey)
    requires Tradable(p, lo, x, y) && Fits(p, x, y)
    ensures var s, t, r := Joined(Joined(p, x), y), Joined(Joined(p, y), x), Traders(p, x, y);
      (key in s.memo <==> key in t.memo) && (key in s.memo ==> t.memo[key] == At(r.artifacts, s.memo[key]))
  {
    hide Tradable, Closed, Numbered, Merged, NodesOf, ArtifactsOf, Trade, Composes, Fixes, At;
    TradableParts(p, lo, x, y);
    TradeArtifactMaps(p, lo, x, y);
    var px, py, r := Joined(p, x), Joined(p, y), Traders(p, x, y);
    MergedMemoAt(p, x.child, x.state, key);
    MergedMemoAt(p, y.child, y.state, key);
    MergedMemoAt(px, y.child, y.state, key);
    MergedMemoAt(py, x.child, x.state, key);
    ClosedTables(p, key, 0);
    ClosedTables(x.state, key, 0);
    ClosedTables(y.state, key, 0);
    if key in y.state.memo {
      ComposesAt(ArtifactsOf(px, y.state), r.artifacts, ArtifactsOf(p, y.state), y.state.nextArtifact,
                 y.state.memo[key]);
    } else if key in x.state.memo {
      ComposesAt(ArtifactsOf(p, x.state), r.artifacts, ArtifactsOf(py, x.state), x.state.nextArtifact,
                 x.state.memo[key]);
    } else if key in p.memo {
      FixesAt(r.artifacts, p.nextArtifact, p.memo[key]);
    }
  }

  lemma MergedAttemptsAt(p: State, c: NodeId, b: State, key: ProblemKey)
    requires c <= p.nextNode && c <= b.nextNode
    ensures var f := Merged(p, c, b);
      && (key in f.attempts <==> key in p.attempts || key in b.attempts)
      && AttemptsAt(f.attempts, key)
         == AttemptsAt(p.attempts, key) + RenameAttempts(AttemptsAt(b.attempts, key), NodesOf(p, c, b))
  {
    hide Merged, NodesOf;
    MergedLogsAt(p, c, b);
    NoAttempts(NodesOf(p, c, b));
  }

  lemma ClosedAttempts(s: State, key: ProblemKey)
    requires Closed(s)
    ensures AttemptsWithin(AttemptsAt(s.attempts, key), s.nextNode)
  {
  }

  lemma ApartAttempts(x: Finished, y: Finished, key: ProblemKey)
    requires Apart(x, y)
    ensures AttemptsAt(x.state.attempts, key) == [] || AttemptsAt(y.state.attempts, key) == []
  {
  }

  lemma TradedAttempts(p: State, lo: nat, x: Finished, y: Finished, key: ProblemKey)
    requires Tradable(p, lo, x, y) && Fits(p, x, y)
    ensures var s, t, r := Joined(Joined(p, x), y), Joined(Joined(p, y), x), Traders(p, x, y);
      && (key in s.attempts <==> key in t.attempts)
      && AttemptsAt(t.attempts, key) == RenameAttempts(AttemptsAt(s.attempts, key), r.nodes)
  {
    hide Tradable, Closed, Numbered, Merged, NodesOf, ArtifactsOf, Trade, Composes, Fixes, At, RenameAttempts,
         AttemptsWithin, AttemptsAt, Apart;
    TradableParts(p, lo, x, y);
    TradeMaps(p, lo, x, y);
    var px, py, r := Joined(p, x), Joined(p, y), Traders(p, x, y);
    var old0 := AttemptsAt(p.attempts, key);
    var xs, ys := AttemptsAt(x.state.attempts, key), AttemptsAt(y.state.attempts, key);
    MergedAttemptsAt(p, x.child, x.state, key);
    MergedAttemptsAt(p, y.child, y.state, key);
    MergedAttemptsAt(px, y.child, y.state, key);
    MergedAttemptsAt(py, x.child, x.state, key);
    ClosedAttempts(p, key);
    ClosedAttempts(x.state, key);
    ClosedAttempts(y.state, key);
    AttemptsStay(old0, r.nodes, p.nextNode);
    AttemptsTwice(xs, NodesOf(p, x.child, x.state), r.nodes, NodesOf(py, x.child, x.state), x.state.nextNode);
    AttemptsTwice(ys, NodesOf(px, y.child, y.state), r.nodes, NodesOf(p, y.child, y.state), y.state.nextNode);
    AttemptsApart(old0 + RenameAttempts(xs, NodesOf(p, x.child, x.state)),
                  RenameAttempts(ys, NodesOf(px, y.child, y.state)), r.nodes);
    AttemptsApart(old0, RenameAttempts(xs, NodesOf(p, x.child, x.state)), r.nodes);
    ApartAttempts(x, y, key);
    NoAttempts(NodesOf(py, x.child, x.state));
    NoAttempts(NodesOf(p, y.child, y.state));
  }

  lemma TradedResource(p: State, lo: nat, x: Finished, y: Finished, id: ResourceId)
    requires Tradable(p, lo, x, y) && Fits(p, x, y)
    ensures var s, t, r := Joined(Joined(p, x), y), Joined(Joined(p, y), x), Traders(p, x, y);
      (id in s.resources <==> id in t.resources)
      && (id in s.resources ==> t.resources[id] == RenameResource(s.resources[id], r.nodes, r.artifacts))
  {
    hide Tradable, Closed, Numbered, Merged, NodesOf, ArtifactsOf, Trade, Composes, Fixes, At, RenameResource,
         ResourceWithin;
    TradableParts(p, lo, x, y);
    TradeMaps(p, lo, x, y);
    TradeArtifactMaps(p, lo, x, y);
    KeysAfter(p, x);
    KeysAfter(p, y);
    var px, py, r := Joined(p, x), Joined(p, y), Traders(p, x, y);
    var key := ProblemKey("");
    MergedResourceAt(p, x.child, x.state, id);
    MergedResourceAt(p, y.child, y.state, id);
    MergedResourceAt(px, y.child, y.state, id);
    MergedResourceAt(py, x.child, x.state, id);
    ClosedTables(p, key, id);
    ClosedTables(x.state, key, id);
    ClosedTables(y.state, key, id);
    if id in y.state.resources {
      ResourceTwice(y.state.resources[id], NodesOf(px, y.child, y.state), ArtifactsOf(px, y.state),
                    r.nodes, r.artifacts,
                    NodesOf(p, y.child, y.state), ArtifactsOf(p, y.state), y.state.nextNode, y.state.nextArtifact);
    } else if id in x.state.resources {
      ResourceTwice(x.state.resources[id], NodesOf(p, x.child, x.state), ArtifactsOf(p, x.state), r.nodes, r.artifacts,
                    NodesOf(py, x.child, x.state), ArtifactsOf(py, x.state), x.state.nextNode, x.state.nextArtifact);
    } else if id in p.resources {
      ResourceStays(p.resources[id], r.nodes, r.artifacts, p.nextNode, p.nextArtifact);
    }
  }

  lemma ClosedLogs(s: State)
    requires Closed(s)
    ensures EventsWithin(s.events, s.nextNode) && RunsWithin(s.runs, s.nextNode)
  {
  }

  lemma Shuffle<V>(first: seq<V>, second: seq<V>, third: seq<V>)
    ensures multiset(first + second + third) == multiset(first + third + second)
  {
  }

  lemma TradedLogs(p: State, lo: nat, x: Finished, y: Finished)
    requires Tradable(p, lo, x, y) && Fits(p, x, y)
    ensures SameLogs(Joined(Joined(p, x), y), Joined(Joined(p, y), x), Traders(p, x, y))
  {
    hide Tradable, Closed, Numbered, Merged, NodesOf, ArtifactsOf, Trade, Composes, Fixes, At, RenameEvents,
         RenameRuns, EventsWithin, RunsWithin, Apart, RenameAttempts;
    TradableParts(p, lo, x, y);
    TradeMaps(p, lo, x, y);
    var px, py, r := Joined(p, x), Joined(p, y), Traders(p, x, y);
    var xp, xt, ys, yp := NodesOf(p, x.child, x.state), NodesOf(py, x.child, x.state), NodesOf(px, y.child, y.state),
                                  NodesOf(p, y.child, y.state);
    MergedLogsAt(p, x.child, x.state);
    MergedLogsAt(p, y.child, y.state);
    MergedLogsAt(px, y.child, y.state);
    MergedLogsAt(py, x.child, x.state);
    ClosedLogs(p);
    ClosedLogs(x.state);
    ClosedLogs(y.state);
    LogsStay(p.events, p.runs, r.nodes, p.nextNode);
    LogsTwice(x.state.events, x.state.runs, xp, r.nodes, xt, x.state.nextNode);
    LogsTwice(y.state.events, y.state.runs, ys, r.nodes, yp, y.state.nextNode);
    LogsApart(p.events + RenameEvents(x.state.events, xp), RenameEvents(y.state.events, ys),
              p.runs + RenameRuns(x.state.runs, xp), RenameRuns(y.state.runs, ys), r.nodes);
    LogsApart(p.events, RenameEvents(x.state.events, xp), p.runs, RenameRuns(x.state.runs, xp), r.nodes);
    Shuffle(p.events, RenameEvents(x.state.events, xt), RenameEvents(y.state.events, yp));
    Shuffle(p.runs, RenameRuns(x.state.runs, xt), RenameRuns(y.state.runs, yp));
  }

  /** Two neighbouring branches may trade places: the results are equal up to renumbering. */
  lemma MergesCommute(p: State, lo: nat, x: Finished, y: Finished)
    requires Tradable(p, lo, x, y) && Fits(p, x, y)
    ensures Renumbered(Joined(Joined(p, x), y), Joined(Joined(p, y), x), Traders(p, x, y), p.nextNode, p.nextArtifact)
  {
    hide Tradable, Closed, Numbered, Merged, Permutes, Trade, SameLogs, SameTables, At, RenameNode, RenameArtifact;
    var s, t, r := Joined(Joined(p, x), y), Joined(Joined(p, y), x), Traders(p, x, y);
    MergedNextNode(p, x.child, x.state);
    MergedNextNode(p, y.child, y.state);
    MergedNextNode(Joined(p, x), y.child, y.state);
    MergedNextNode(Joined(p, y), x.child, x.state);
    TradePermutes(p.nextNode, Grown(x), Grown(y));
    TradePermutes(p.nextNode, Grown(y), Grown(x));
    TradePermutes(p.nextArtifact, x.state.nextArtifact, y.state.nextArtifact);
    forall j | j in s.nodes
      ensures At(r.nodes, j) in t.nodes && t.nodes[At(r.nodes, j)] == RenameNode(s.nodes[j], r.nodes, r.artifacts)
    {
      TradedNode(p, lo, x, y, j);
    }
    forall a | a in s.artifacts
      ensures At(r.artifacts, a) in t.artifacts
      ensures t.artifacts[At(r.artifacts, a)] == RenameArtifact(s.artifacts[a], r.nodes, r.artifacts)
    {
      TradedArtifact(p, lo, x, y, a);
    }
    TradedTables(p, lo, x, y);
    TradedLogs(p, lo, x, y);
  }

  lemma TradedTables(p: State, lo: nat, x: Finished, y: Finished)
    requires Tradable(p, lo, x, y) && Fits(p, x, y)
    ensures SameTables(Joined(Joined(p, x), y), Joined(Joined(p, y), x), Traders(p, x, y))
  {
    hide Tradable, Merged, Trade, At, RenameAttempts, RenameResource;
    var s, t, r := Joined(Joined(p, x), y), Joined(Joined(p, y), x), Traders(p, x, y);
    forall key: ProblemKey, id: ResourceId ensures SameEntry(s, t, r, key, id) {
      TradedMemo(p, lo, x, y, key);
      TradedAttempts(p, lo, x, y, key);
      TradedResource(p, lo, x, y, id);
    }
    TablesFrom(s, t, r);
  }

  // ---- Any order ----

  ghost predicate Whole(p: State, lo: nat)
  {
    StoreOk(p, lo) && RefsKnown(p.resources, lo, p.nextNode, p.nextArtifact)
  }

  /** Finished branches of different children of `n`. */
  ghost predicate Ready(p: State, lo: nat, n: NodeId, xs: seq<Finished>)
  {
    && (forall x :: x in xs ==> Joinable(p, lo, n, x))
    && (forall x, y :: x in xs && y in xs && x != y ==> Elsewhere(x, y))
    && (forall x :: x in xs ==> multiset(xs)[x] == 1)
  }

  /** No two of the branches recorded anything under a common problem key. */
  ghost predicate OwnKeys(xs: seq<Finished>)
  {
    forall x, y :: x in xs && y in xs && x != y ==> KeysApart(x, y)
  }

  lemma OwnKeysShuffled(xs: seq<Finished>, ys: seq<Finished>)
    requires OwnKeys(xs) && multiset(xs) == multiset(ys)
    ensures OwnKeys(ys)
  {
    hide KeysApart;
    forall y | y in ys ensures y in xs {
      assert y in multiset(ys);
    }
  }

  lemma OwnKeysFewer(xs: seq<Finished>, ys: seq<Finished>)
    requires OwnKeys(xs) && forall y :: y in ys ==> y in xs
    ensures OwnKeys(ys)
  {
    hide KeysApart;
  }

  lemma ReadyShuffled(p: State, lo: nat, n: NodeId, xs: seq<Finished>, ys: seq<Finished>)
    requires Ready(p, lo, n, xs) && multiset(xs) == multiset(ys)
    ensures Ready(p, lo, n, ys)
  {
    hide Joinable, Elsewhere;
    forall y | y in ys ensures y in xs {
      assert y in multiset(ys);
    }
  }

  lemma OnceInRest(xs: seq<Finished>, x: Finished)
    requires xs != [] && x in xs[1..] && forall y :: y in xs ==> multiset(xs)[y] == 1
    ensures x in xs && x != xs[0] && multiset(xs[1..])[x] == 1
  {
    assert xs == [xs[0]] + xs[1..];
    assert x in multiset(xs[1..]);
  }

  lemma ReadyAfter(p: State, lo: nat, n: NodeId, xs: seq<Finished>)
    requires Ready(p, lo, n, xs) && xs != []
    ensures xs[0].child <= p.nextNode && xs[0].child <= xs[0].state.nextNode && n < xs[0].child
    ensures Ready(Joined(p, xs[0]), lo, n, xs[1..])
  {
    hide Joinable, Elsewhere, StoreOk, Numbered, Closed, Merged;
    JoinableParts(p, lo, n, xs[0]);
    forall x | x in xs[1..]
      ensures Joinable(Joined(p, xs[0]), lo, n, x) && multiset(xs[1..])[x] == 1 && x in xs
    {
      OnceInRest(xs, x);
      JoinableAfter(p, lo, n, xs[0], x);
    }
  }

  /** The engine after the branches were merged one after the other. */
  ghost function JoinedAll(p: State, lo: nat, n: NodeId, xs: seq<Finished>): State
    requires Ready(p, lo, n, xs)
    decreases |xs|
  {
    if xs == [] then p
    else
      ReadyAfter(p, lo, n, xs);
      JoinedAll(Joined(p, xs[0]), lo, n, xs[1..])
  }

  lemma WholeAfter(p: State, lo: nat, n: NodeId, x: Finished)
    requires Joinable(p, lo, n, x) && x.child <= p.nextNode && x.child <= x.state.nextNode
    ensures Whole(Joined(p, x), lo)
    ensures p.nextNode <= Joined(p, x).nextNode && p.nextArtifact <= Joined(p, x).nextArtifact
  {
    RefsAfter(p, lo, n, x);
    MergeKeepsStore(p, lo, x.child, x.state);
    MergedNextNode(p, x.child, x.state);
    hide StoreOk, RefsKnown, Merged, Kept, InTurn;
  }

  lemma {:induction false} JoinedAllClosed(p: State, lo: nat, n: NodeId, xs: seq<Finished>)
    requires Whole(p, lo) && Ready(p, lo, n, xs)
    ensures Closed(JoinedAll(p, lo, n, xs)) && Whole(JoinedAll(p, lo, n, xs), lo)
    ensures p.nextNode <= JoinedAll(p, lo, n, xs).nextNode && p.nextArtifact <= JoinedAll(p, lo, n, xs).nextArtifact
    decreases |xs|
  {
    if xs == [] {
      StoreClosed(p, lo);
    } else {
      hide Whole, Closed, Joinable, Elsewhere, Merged;
      ReadyAfter(p, lo, n, xs);
      WholeAfter(p, lo, n, xs[0]);
      JoinedAllClosed(Joined(p, xs[0]), lo, n, xs[1..]);
    }
  }

  lemma AlikeJoinable(s: State, t: State, lo: nat, n: NodeId, x: Finished, r: Renumbering, baseNode: NodeId,
                      baseArtifact: ArtifactId)
    requires Joinable(s, lo, n, x) && Joinable(t, lo, n, x) && Renumbered(s, t, r, baseNode, baseArtifact)
    requires x.child <= baseNode <= s.nextNode && baseArtifact <= s.nextArtifact
    ensures Alike(s, t, lo, x, r, baseNode, baseArtifact)
  {
    hide Joinable, Closed, Renumbered, Numbered;
    JoinableParts(s, lo, n, x);
    JoinableParts(t, lo, n, x);
  }

  lemma {:induction false} AllAlike(s: State, t: State, lo: nat, n: NodeId, xs: seq<Finished>, r: Renumbering,
                                    baseNode: NodeId, baseArtifact: ArtifactId)
    requires Ready(s, lo, n, xs) && Ready(t, lo, n, xs) && Renumbered(s, t, r, baseNode, baseArtifact)
    requires baseNode <= s.nextNode && baseArtifact <= s.nextArtifact
    requires forall x :: x in xs ==> x.child <= baseNode
    ensures Renumbered(JoinedAll(s, lo, n, xs), JoinedAll(t, lo, n, xs), r, baseNode, baseArtifact)
    decreases |xs|
  {
    if xs != [] {
      hide Joinable, Elsewhere, Merged, Renumbered, Alike, Whole;
      ReadyAfter(s, lo, n, xs);
      ReadyAfter(t, lo, n, xs);
      AlikeJoinable(s, t, lo, n, xs[0], r, baseNode, baseArtifact);
      JoinedAlike(s, t, lo, xs[0], r, baseNode, baseArtifact);
      WholeAfter(s, lo, n, xs[0]);
      AllAlike(Joined(s, xs[0]), Joined(t, xs[0]), lo, n, xs[1..], r, baseNode, baseArtifact);
    }
  }

  lemma PermutesFurther(ids: IdMap, back: IdMap, base: nat, top: nat, less: nat)
    requires Permutes(ids, back, base, top) && less <= base
    ensures Permutes(ids, back, less, top)
  {
  }

  lemma RenumberedFurther(s: State, t: State, r: Renumbering, baseNode: NodeId, baseArtifact: ArtifactId,
                          lessNode: NodeId, lessArtifact: ArtifactId)
    requires Renumbered(s, t, r, baseNode, baseArtifact) && lessNode <= baseNode && lessArtifact <= baseArtifact
    ensures Renumbered(s, t, r, lessNode, lessArtifact)
  {
    hide Permutes, SameNodes, SameArtifacts, SameTables, SameLogs;
    PermutesFurther(r.nodes, r.nodesBack, baseNode, s.nextNode, lessNode);
    PermutesFurther(r.artifacts, r.artifactsBack, baseArtifact, s.nextArtifact, lessArtifact);
  }

  lemma FrontShuffled(xs: seq<Finished>, k: nat)
    requires k < |xs|
    ensures multiset([xs[k]] + Removed(xs, k)) == multiset(xs)
  {
    hide Removed;
    TakenOut(xs, k);
  }

  lemma FirstStaysFirst(xs: seq<Finished>, k: nat)
    requires 0 < k < |xs|
    ensures Removed(xs, k) == [xs[0]] + Removed(xs[1..], k - 1) && xs[1..][k - 1] == xs[k]
  {
  }

  lemma JoinedFirst(p: State, lo: nat, n: NodeId, x: Finished, xs: seq<Finished>)
    requires Ready(p, lo, n, [x] + xs)
    ensures Joinable(p, lo, n, x) && x.child <= p.nextNode && x.child <= x.state.nextNode
    ensures Ready(Joined(p, x), lo, n, xs) && JoinedAll(p, lo, n, [x] + xs) == JoinedAll(Joined(p, x), lo, n, xs)
  {
    hide Joinable, Elsewhere, Merged;
    assert ([x] + xs)[0] == x && ([x] + xs)[1..] == xs;
    ReadyAfter(p, lo, n, [x] + xs);
  }

  /** Any branch could have been merged first. */
  lemma {:induction false} MergedFirst(p: State, lo: nat, n: NodeId, xs: seq<Finished>, k: nat) returns (r: Renumbering)
    requires Whole(p, lo) && Ready(p, lo, n, xs) && OwnKeys(xs) && k < |xs|
    ensures Ready(p, lo, n, [xs[k]] + Removed(xs, k))
    ensures Renumbered(JoinedAll(p, lo, n, xs), JoinedAll(p, lo, n, [xs[k]] + Removed(xs, k)),
                       r, p.nextNode, p.nextArtifact)
    decreases |xs|, 0
  {
    hide Whole, Ready, JoinedAll, Renumbered, Joinable, Elsewhere, Merged, Closed, Removed, OwnKeys;
    FrontShuffled(xs, k);
    ReadyShuffled(p, lo, n, xs, [xs[k]] + Removed(xs, k));
    JoinedAllClosed(p, lo, n, xs);
    if k == 0 {
      RemovedFirst(xs);
      r := Renumbering(map[], map[], map[], map[]);
      RenumberedSame(JoinedAll(p, lo, n, xs), p.nextNode, p.nextArtifact);
    } else {
      FirstStaysFirst(xs, k);
      assert xs == [xs[0]] + xs[1..];
      r := MergedBeforeFirst(p, lo, n, xs[0], xs[1..], k - 1);
    }
  }

  lemma RemovedFirst(xs: seq<Finished>)
    requires xs != []
    ensures [xs[0]] + Removed(xs, 0) == xs
  {
  }

  lemma {:induction false} MergedBeforeFirst(p: State, lo: nat, n: NodeId, first: Finished, xs: seq<Finished>, k: nat)
    returns (r: Renumbering)
    requires Whole(p, lo) && Ready(p, lo, n, [first] + xs) && OwnKeys([first] + xs) && k < |xs|
    requires Ready(p, lo, n, [xs[k]] + ([first] + Removed(xs, k)))
    ensures Renumbered(JoinedAll(p, lo, n, [first] + xs),
                       JoinedAll(p, lo, n, [xs[k]] + ([first] + Removed(xs, k))), r, p.nextNode, p.nextArtifact)
    decreases |xs|, 1
  {
    hide Whole, Ready, JoinedAll, Renumbered, Joinable, Elsewhere, Merged, Closed, Removed, OwnKeys, Tradable, Fits;
    var x, rest := xs[k], Removed(xs, k);
    JoinedAllClosed(p, lo, n, [first] + xs);
    JoinedFirst(p, lo, n, first, xs);
    JoinedFirst(p, lo, n, x, [first] + rest);
    WholeAfter(p, lo, n, first);
    WholeAfter(p, lo, n, x);
    var p1, p2 := Joined(p, first), Joined(p, x);
    JoinedFirst(p2, lo, n, first, rest);
    OwnKeysFewer([first] + xs, xs);
    var r1 := MergedFirst(p1, lo, n, xs, k);
    JoinedFirst(p1, lo, n, x, rest);
    var s, t := Joined(p1, x), Joined(p2, first);
    WholeAfter(p1, lo, n, x);
    ReadyParts(p, lo, n, first, xs, x);
    TradableJoinable(p, lo, n, first, x);
    TradableFits(p, lo, first, x);
    MergesCommute(p, lo, first, x);
    var r2 := Traders(p, first, x);
    ReadyChildren(p, lo, n, [first] + xs);
    RemovedMembers(xs, k);
    AllAlike(s, t, lo, n, rest, r2, p.nextNode, p.nextArtifact);
    RenumberedFurther(JoinedAll(p1, lo, n, xs), JoinedAll(p1, lo, n, [x] + rest), r1, p1.nextNode, p1.nextArtifact,
                      p.nextNode, p.nextArtifact);
    r := Both(r1, r2);
    RenumberedTwice(JoinedAll(p1, lo, n, xs), JoinedAll(s, lo, n, rest), JoinedAll(t, lo, n, rest), r1, r2,
                    p.nextNode, p.nextArtifact);
  }

  lemma RemovedMembers(xs: seq<Finished>, k: nat)
    requires k < |xs|
    ensures forall x :: x in Removed(xs, k) ==> x in xs
  {
  }

  lemma ReadyParts(p: State, lo: nat, n: NodeId, first: Finished, xs: seq<Finished>, x: Finished)
    requires Ready(p, lo, n, [first] + xs) && OwnKeys([first] + xs) && x in xs
    ensures Joinable(p, lo, n, first) && Joinable(p, lo, n, x) && Apart(first, x)
  {
    hide Joinable, Elsewhere;
    var all := [first] + xs;
    assert x in multiset(xs);
    assert multiset(all) == multiset{first} + multiset(xs);
    assert all[0] == first && first in all && x in all;
  }

  lemma ReadyChildren(p: State, lo: nat, n: NodeId, xs: seq<Finished>)
    requires Ready(p, lo, n, xs)
    ensures forall x :: x in xs ==> x.child <= p.nextNode
  {
    hide Joinable, Elsewhere, Closed, Numbered;
    forall x | x in xs ensures x.child <= p.nextNode {
      JoinableParts(p, lo, n, x);
    }
  }

  /** The order in which branches finish does not matter. */
  lemma {:induction false} AnyOrder(p: State, lo: nat, n: NodeId, xs: seq<Finished>, ys: seq<Finished>)
    returns (r: Renumbering)
    requires Whole(p, lo) && Ready(p, lo, n, xs) && OwnKeys(xs) && multiset(xs) == multiset(ys)
    ensures Ready(p, lo, n, ys)
    ensures Renumbered(JoinedAll(p, lo, n, xs), JoinedAll(p, lo, n, ys), r, p.nextNode, p.nextArtifact)
    decreases |ys|
  {
    hide Whole, Ready, JoinedAll, Renumbered, Joinable, Elsewhere, Merged, Closed, Removed, OwnKeys;
    ReadyShuffled(p, lo, n, xs, ys);
    JoinedAllClosed(p, lo, n, xs);
    if ys == [] {
      assert |multiset(xs)| == |multiset(ys)|;
      r := Renumbering(map[], map[], map[], map[]);
      RenumberedSame(JoinedAll(p, lo, n, xs), p.nextNode, p.nextArtifact);
    } else {
      assert ys[0] in multiset(xs);
      var k :| 0 <= k < |xs| && xs[k] == ys[0];
      var y, rest := ys[0], Removed(xs, k);
      assert ys == [y] + ys[1..];
      var r1 := MergedFirst(p, lo, n, xs, k);
      JoinedFirst(p, lo, n, y, rest);
      JoinedFirst(p, lo, n, y, ys[1..]);
      WholeAfter(p, lo, n, y);
      TakenOut(xs, k);
      SameRest(multiset(rest), multiset(ys[1..]), y);
      var p1 := Joined(p, y);
      RemovedMembers(xs, k);
      OwnKeysFewer(xs, rest);
      var r2 := AnyOrder(p1, lo, n, rest, ys[1..]);
      RenumberedFurther(JoinedAll(p1, lo, n, rest), JoinedAll(p1, lo, n, ys[1..]), r2, p1.nextNode, p1.nextArtifact,
                        p.nextNode, p.nextArtifact);
      r := Both(r1, r2);
      RenumberedTwice(JoinedAll(p, lo, n, xs), JoinedAll(p1, lo, n, rest), JoinedAll(p1, lo, n, ys[1..]), r1, r2,
                      p.nextNode, p.nextArtifact);
    }
  }
}
