/** The engine's data as a value, its invariant, and what each elementary update keeps. */
module EngineState {
  import opened Types
  import opened Nodes
  import opened Resources
  import opened ResourceSafety

  datatype OperationEvent = OperationEvent(node: NodeId, operation: NodeOperation)

  datatype RunRecord = RunRecord(node: NodeId, operation: NodeOperation)

  datatype AttemptRecord = AttemptRecord(node: NodeId, operation: NodeOperation, verdict: Option<Verdict>)

  datatype State = State(
    nextNode: NodeId,
    nextArtifact: ArtifactId,
    nodes: map<NodeId, ProblemNode>,
    artifacts: map<ArtifactId, Artifact>,
    memo: map<ProblemKey, ArtifactId>,
    attempts: map<ProblemKey, seq<AttemptRecord>>,
    events: seq<OperationEvent>,
    runs: seq<RunRecord>,
    resources: Table)

  // ---- Elementary updates ----

  function NodeSet(s: State, i: NodeId, node: ProblemNode): State
  {
    s.(nodes := s.nodes[i := node])
  }

  function Recorded(s: State, i: NodeId, operation: NodeOperation): State
  {
    s.(events := s.events + [OperationEvent(i, operation)])
  }

  function RunRecorded(s: State, i: NodeId, operation: NodeOperation): State
  {
    Recorded(s.(runs := s.runs + [RunRecord(i, operation)]), i, operation)
  }

  function AttemptsAt(attempts: map<ProblemKey, seq<AttemptRecord>>, key: ProblemKey): seq<AttemptRecord>
  {
    if key in attempts then attempts[key] else []
  }

  function AttemptRecorded(s: State, key: ProblemKey, attempt: AttemptRecord): State
  {
    s.(attempts := s.attempts[key := AttemptsAt(s.attempts, key) + [attempt]])
  }

  function ArtifactPushed(s: State, i: NodeId, text: string, change: Option<Change>, children: seq<ArtifactId>): State
  {
    var id := s.nextArtifact + 1;
    s.(nextArtifact := id, artifacts := s.artifacts[id := Artifact(id, i, text, change, children)])
  }

  function CommittedTo(s: State, i: NodeId, artifact: ArtifactId): State
    requires i in s.nodes
  {
    var node := s.nodes[i];
    Recorded(s.(memo := s.memo[node.key := artifact],
                nodes := s.nodes[i := node.(status := NodeStatus.Committed, accepted := Some(artifact))]),
             i, Commit)
  }

  function NodeInserted(s: State, parent: Option<NodeId>, template: NodeTemplate): State
  {
    var id := s.nextNode + 1;
    s.(nextNode := id, nodes := s.nodes[id := NewNode(id, parent, template)])
  }

  // ---- The invariant ----

  /** Ids are handed out without gaps: an engine whose first node is `lo` owns lo..nextNode. Only that
      first node may have its parent in another engine; only the engine that starts at 1 has roots. */
  ghost predicate Numbered(s: State, lo: nat)
  {
    && 1 <= lo <= s.nextNode + 1
    && (forall i :: i in s.nodes <==> lo <= i <= s.nextNode)
    && (forall i :: i in s.nodes ==> s.nodes[i].id == i)
    && (forall i :: i in s.nodes && i > lo && s.nodes[i].parent.Some? ==> lo <= s.nodes[i].parent.value)
    && (forall i :: i in s.nodes && i > lo && lo > 1 ==> s.nodes[i].parent.Some?)
    && (forall a :: a in s.artifacts <==> 1 <= a <= s.nextArtifact)
    && (forall a :: a in s.artifacts ==> s.artifacts[a].id == a)
  }

  /** The tree: parents come before children, children know their parent and inherit from it. */
  ghost predicate Linked(s: State, i: NodeId)
    requires i in s.nodes
  {
    var node := s.nodes[i];
    && (node.parent.Some? ==> 1 <= node.parent.value < i)
    && (node.parent.Some? && node.parent.value in s.nodes ==> Inherits(node, s.nodes[node.parent.value]))
    && (forall k :: 0 <= k < |node.children| ==>
          i < node.children[k] && node.children[k] in s.nodes && s.nodes[node.children[k]].parent == Some(i))
    && (forall j, k :: 0 <= j < k < |node.children| ==> node.children[j] < node.children[k])
  }

  /** An existing artifact, produced under this key, inside its producer's permissions. */
  ghost predicate Acceptable(s: State, a: ArtifactId, key: ProblemKey)
  {
    && a in s.artifacts
    && s.artifacts[a].node in s.nodes
    && s.nodes[s.artifacts[a].node].key == key
    && PathsSafe(s.nodes[s.artifacts[a].node], s.artifacts[a])
  }

  function AttemptLimit(node: ProblemNode): nat
  {
    if node.maxAttempts == 0 then 1 else node.maxAttempts
  }

  /** A tiny node with a second attempt: the only kind a direct commit can happen to while an earlier
      candidate is still under review. */
  predicate Reopens(node: ProblemNode)
  {
    node.size == Tiny && node.maxAttempts >= 2
  }

  /** An accepted artifact, if there is one, may stand beside another status than Committed. */
  predicate MayReopen(node: ProblemNode)
  {
    node.accepted.Some? ==> Reopens(node)
  }

  /** Accepted means committed, but for nodes that may reopen; a tiny node has a candidate only after
      an execution. */
  predicate Shaped(node: ProblemNode)
  {
    && (node.status != NodeStatus.Committed ==> MayReopen(node))
    && (node.candidate.Some? && node.size == Tiny ==> node.executionAttempts >= 1)
  }

  ghost predicate Produced(s: State, i: NodeId)
    requires i in s.nodes
  {
    var node := s.nodes[i];
    && (node.candidate.Some? ==> node.candidate.value in s.artifacts && s.artifacts[node.candidate.value].node == i)
    && (node.accepted.Some? ==> Acceptable(s, node.accepted.value, node.key))
    && (node.status == NodeStatus.Committed ==> node.accepted.Some? && node.key in s.memo)
    && node.executionAttempts <= AttemptLimit(node)
    && (node.status == New ==> Untouched(node))
    && Shaped(node)
  }

  predicate Untouched(node: ProblemNode)
  {
    node.status == New && node.children == [] && node.candidate == None && node.accepted == None
    && node.executionAttempts == 0
  }

  /** Stage children run in order: whatever precedes a started child is committed. */
  ghost predicate Staged(s: State, i: NodeId)
    requires i in s.nodes
  {
    var node := s.nodes[i];
    node.plan.Group? && node.plan.group.mode == Stage ==>
      forall j, k :: 0 <= j < k < |node.children| && node.children[j] in s.nodes && node.children[k] in s.nodes
                     && s.nodes[node.children[k]].status != New ==>
        s.nodes[node.children[j]].status == NodeStatus.Committed
  }

  /** The child is the planned item with what it inherits from its parent. */
  predicate FollowsPlan(parent: ProblemNode, item: NodeTemplate, child: ProblemNode)
  {
    && InheritChildDefaults(parent, item).Ok?
    && SameIdentity(NewNode(child.id, Some(parent.id), InheritChildDefaults(parent, item).value), child)
  }

  /** The children of a node are the items of its plan, in their order. */
  ghost predicate Grouped(s: State, i: NodeId)
    requires i in s.nodes
  {
    var node := s.nodes[i];
    node.children != [] ==>
      && node.plan.Group? && |node.children| == |node.plan.group.items|
      && forall k :: 0 <= k < |node.children| && node.children[k] in s.nodes ==>
           FollowsPlan(node, node.plan.group.items[k], s.nodes[node.children[k]])
  }

  ghost predicate ArtifactOk(s: State, a: ArtifactId)
    requires a in s.artifacts
  {
    && s.artifacts[a].node in s.nodes
    && Bare(s.artifacts[a].change)
    && forall k :: 0 <= k < |s.artifacts[a].children| ==> 1 <= s.artifacts[a].children[k] < a
  }

  ghost predicate MemoOk(s: State)
  {
    forall key :: key in s.memo ==> Acceptable(s, s.memo[key], key)
  }

  ghost predicate LogsOk(s: State)
  {
    && (forall k :: 0 <= k < |s.events| ==> s.events[k].node in s.nodes)
    && (forall k :: 0 <= k < |s.runs| ==> s.runs[k].node in s.nodes)
    && (forall key, k :: key in s.attempts && 0 <= k < |s.attempts[key]| ==> s.attempts[key][k].node in s.nodes)
    && (forall key :: key in s.attempts ==> s.attempts[key] != [])
  }

  ghost predicate StoreOk(s: State, lo: nat)
  {
    && Numbered(s, lo)
    && (forall i :: i in s.nodes ==> Linked(s, i))
    && (forall i :: i in s.nodes ==> Produced(s, i))
    && (forall i :: i in s.nodes ==> Staged(s, i))
    && (forall i :: i in s.nodes ==> Grouped(s, i))
    && (forall a :: a in s.artifacts ==> ArtifactOk(s, a))
    && MemoOk(s)
    && LogsOk(s)
  }

  /** Every resource an artifact's change names is active and held for that artifact. */
  ghost predicate Held(s: State, a: ArtifactId)
    requires a in s.artifacts
  {
    s.artifacts[a].change.Some? ==>
      forall k :: 0 <= k < |s.artifacts[a].change.value.resourceIds| ==>
        Holds(s.resources, s.artifacts[a].change.value.resourceIds[k], a)
  }

  ghost predicate AllHeld(s: State)
  {
    forall a :: a in s.artifacts ==> Held(s, a)
  }

  ghost predicate ResourcesOk(s: State, ledger: Ledger, lo: nat)
  {
    AllHeld(s) && TableOk(s.resources, ledger, lo, s.nextNode, s.nextArtifact)
  }

  // ---- What a run of one node leaves alone ----

  predicate SameIdentity(a: ProblemNode, b: ProblemNode)
  {
    && a.id == b.id && a.key == b.key && a.parent == b.parent && a.workspace == b.workspace
    && a.allowWrite == b.allowWrite && a.maxAttempts == b.maxAttempts
    && a.policy == b.policy && a.taskType == b.taskType
  }

  /** From `s` to `t` only node `n` and nodes created since changed; artifacts and logs only grew. */
  ghost predicate Kept(s: State, t: State, n: NodeId)
  {
    && s.nextNode <= t.nextNode && s.nextArtifact <= t.nextArtifact
    && (forall i :: i in s.nodes ==> i in t.nodes && SameIdentity(s.nodes[i], t.nodes[i]))
    && (forall i :: i in s.nodes && i != n ==> t.nodes[i] == s.nodes[i])
    && (forall a :: a in s.artifacts ==> a in t.artifacts && t.artifacts[a] == s.artifacts[a])
    && s.memo.Keys <= t.memo.Keys
    && s.events <= t.events && s.runs <= t.runs
  }

  lemma KeptTransitive(s: State, t: State, u: State, n: NodeId, m: NodeId)
    requires Kept(s, t, n) && Kept(t, u, m)
    requires m == n || m !in s.nodes
    ensures Kept(s, u, n)
  {
  }

  /** Node `n` may change status: in its parent's stage, everything before it is committed and
      everything after it is new. */
  ghost predicate InTurn(s: State, n: NodeId)
    requires n in s.nodes
  {
    var parent := s.nodes[n].parent;
    parent.Some? && parent.value in s.nodes && s.nodes[parent.value].plan.Group?
    && s.nodes[parent.value].plan.group.mode == Stage ==>
      var children := s.nodes[parent.value].children;
      forall j, k :: 0 <= j < k < |children| && children[j] in s.nodes && children[k] in s.nodes ==>
        && (children[k] == n ==> s.nodes[children[j]].status == NodeStatus.Committed)
        && (children[j] == n ==> s.nodes[children[k]].status == New)
  }
}
