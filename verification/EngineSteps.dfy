/** How the invariant survives a step that touches one node and otherwise only adds. */
module EngineSteps {
  import opened Types
  import opened Nodes
  import opened Resources
  import opened ResourceSafety
  import opened EngineState

  lemma AcceptableKept(s: State, t: State, n: NodeId, a: ArtifactId, key: ProblemKey)
    requires Kept(s, t, n) && Acceptable(s, a, key)
    ensures Acceptable(t, a, key)
  {
  }

  lemma LinkedKept(s: State, t: State, lo: nat, n: NodeId, i: NodeId)
    requires Kept(s, t, n) && Numbered(s, lo) && Numbered(t, lo)
    requires i in s.nodes && Linked(s, i) && t.nodes[i].children == s.nodes[i].children
    ensures Linked(t, i)
  {
    var parent := s.nodes[i].parent;
    if parent.Some? && parent.value in t.nodes {
      assert parent.value in s.nodes;
    }
  }

  lemma ProducedKept(s: State, t: State, n: NodeId, i: NodeId)
    requires Kept(s, t, n) && i in s.nodes && t.nodes[i] == s.nodes[i] && Produced(s, i)
    ensures Produced(t, i)
  {
    if s.nodes[i].accepted.Some? {
      AcceptableKept(s, t, n, s.nodes[i].accepted.value, s.nodes[i].key);
    }
  }

  lemma StagedKept(s: State, t: State, n: NodeId, i: NodeId)
    requires Kept(s, t, n) && n in s.nodes && i in s.nodes && i != n && Staged(s, i) && Linked(s, i)
    requires t.nodes[n].status == s.nodes[n].status || InTurn(s, n)
    ensures Staged(t, i)
  {
    var node := s.nodes[i];
    if node.plan.Group? && node.plan.group.mode == Stage {
      forall j, k | 0 <= j < k < |node.children| && t.nodes[node.children[k]].status != New
        ensures t.nodes[node.children[j]].status == NodeStatus.Committed
      {
        if node.children[k] == n || node.children[j] == n {
          assert s.nodes[n].parent == Some(i);
          assert node.children[k] != node.children[j];
        }
      }
    }
  }

  lemma OwnStageKept(s: State, t: State, n: NodeId)
    requires Kept(s, t, n) && n in s.nodes && Staged(s, n) && Linked(s, n)
    requires t.nodes[n].children == s.nodes[n].children
    requires t.nodes[n].plan == s.nodes[n].plan || t.nodes[n].children == []
    ensures Staged(t, n)
  {
    assert forall k :: 0 <= k < |s.nodes[n].children| ==> s.nodes[n].children[k] != n;
  }

  lemma InheritsAlike(a: ProblemNode, b: ProblemNode, item: NodeTemplate)
    requires SameIdentity(a, b)
    ensures InheritChildDefaults(a, item) == InheritChildDefaults(b, item)
  {
  }

  lemma FollowsPlanKept(a: ProblemNode, b: ProblemNode, item: NodeTemplate, child: ProblemNode, later: ProblemNode)
    requires FollowsPlan(a, item, child) && SameIdentity(a, b) && SameIdentity(child, later)
    ensures FollowsPlan(b, item, later)
  {
    hide InheritChildDefaults;
    InheritsAlike(a, b, item);
  }

  lemma GroupedKept(s: State, t: State, n: NodeId, i: NodeId)
    requires Kept(s, t, n) && i in s.nodes && Grouped(s, i) && Linked(s, i)
    requires t.nodes[i].children == s.nodes[i].children
    requires t.nodes[i].plan == s.nodes[i].plan || t.nodes[i].children == []
    ensures Grouped(t, i)
  {
    hide FollowsPlan;
    var node := s.nodes[i];
    forall k | 0 <= k < |node.children|
      ensures FollowsPlan(t.nodes[i], node.plan.group.items[k], t.nodes[node.children[k]])
    {
      FollowsPlanKept(node, t.nodes[i], node.plan.group.items[k], s.nodes[node.children[k]], t.nodes[node.children[k]]);
    }
  }

  lemma LogsKept(s: State, t: State, n: NodeId)
    requires LogsOk(s) && Kept(s, t, n)
    requires t.runs == s.runs && t.attempts == s.attempts
    requires t.events == s.events || exists operation :: t.events == s.events + [OperationEvent(n, operation)]
    requires n in s.nodes
    ensures LogsOk(t)
  {
  }

  lemma InTurnKept(s: State, t: State, lo: nat, n: NodeId)
    requires Kept(s, t, n) && Numbered(s, lo) && Numbered(t, lo)
    requires n in s.nodes && InTurn(s, n) && Linked(s, n)
    requires s.nodes[n].parent.Some? && s.nodes[n].parent.value in s.nodes ==> Linked(s, s.nodes[n].parent.value)
    ensures InTurn(t, n)
  {
    var parent := s.nodes[n].parent;
    if parent.Some? && parent.value in t.nodes {
      var p := parent.value;
      assert p in s.nodes && p != n && t.nodes[p] == s.nodes[p];
      var children := s.nodes[p].children;
      forall j, k | 0 <= j < k < |children|
        ensures children[j] in s.nodes && children[k] in s.nodes && children[j] != children[k]
      {
      }
    }
  }

  /** The additions of a step are in order. */
  ghost predicate AdditionsOk(s: State, t: State, lo: nat, n: NodeId)
  {
    && Numbered(t, lo)
    && (forall i :: i in t.nodes && (i == n || i !in s.nodes) ==>
          Linked(t, i) && Produced(t, i) && Staged(t, i) && Grouped(t, i))
    && (forall a :: a in t.artifacts && a !in s.artifacts ==> ArtifactOk(t, a))
    && (forall key :: key in t.memo ==>
          (key in s.memo && s.memo[key] == t.memo[key]) || Acceptable(t, t.memo[key], key))
    && LogsOk(t)
  }

  /** The one place where the invariant is re-established: a step that keeps everything but node `n`
      and whose additions are in order keeps the whole store in order. */
  lemma StoreKept(s: State, t: State, lo: nat, n: NodeId)
    requires StoreOk(s, lo) && n in s.nodes
    requires Kept(s, t, n) && AdditionsOk(s, t, lo, n)
    requires t.nodes[n].status == s.nodes[n].status || InTurn(s, n)
    ensures StoreOk(t, lo)
    ensures InTurn(s, n) ==> InTurn(t, n)
  {
    hide Linked, Produced, Staged, Grouped, ArtifactOk, Acceptable, InTurn;
    forall i | i in t.nodes ensures Linked(t, i) && Produced(t, i) && Staged(t, i) && Grouped(t, i) {
      if i in s.nodes && i != n {
        LinkedKept(s, t, lo, n, i);
        ProducedKept(s, t, n, i);
        StagedKept(s, t, n, i);
        GroupedKept(s, t, n, i);
      }
    }
    forall a | a in t.artifacts ensures ArtifactOk(t, a) {
      if a in s.artifacts { ArtifactOkKept(s, t, n, a); }
    }
    forall key | key in t.memo ensures Acceptable(t, t.memo[key], key) {
      if key in s.memo && s.memo[key] == t.memo[key] { AcceptableKept(s, t, n, t.memo[key], key); }
    }
    if InTurn(s, n) {
      InTurnKept(s, t, lo, n);
    }
  }

  lemma ArtifactOkKept(s: State, t: State, n: NodeId, a: ArtifactId)
    requires Kept(s, t, n) && a in s.artifacts && ArtifactOk(s, a)
    ensures ArtifactOk(t, a)
  {
  }

  // ---- The elementary updates ----

  lemma SameStoreKept(s: State, t: State, lo: nat, n: NodeId)
    requires Numbered(s, lo)
    requires t.nextNode == s.nextNode && t.nextArtifact == s.nextArtifact && t.nodes == s.nodes
    requires t.artifacts == s.artifacts && t.memo == s.memo && s.events <= t.events && s.runs <= t.runs
    ensures Kept(s, t, n) && Numbered(t, lo)
  {
  }

  /** Updates that change only logs and resources. */
  lemma SameStore(s: State, t: State, lo: nat, n: NodeId)
    requires StoreOk(s, lo) && n in s.nodes
    requires t.nextNode == s.nextNode && t.nextArtifact == s.nextArtifact && t.nodes == s.nodes
    requires t.artifacts == s.artifacts && t.memo == s.memo && s.events <= t.events && s.runs <= t.runs
    requires LogsOk(t)
    ensures StoreOk(t, lo) && Kept(s, t, n)
    ensures InTurn(s, n) ==> InTurn(t, n)
  {
    SameStoreKept(s, t, lo, n);
    hide Linked, Produced, Staged, Grouped, ArtifactOk, Acceptable, InTurn, LogsOk, Kept, Numbered;
    LinkedKept(s, t, lo, n, n);
    OwnStageKept(s, t, n);
    GroupedKept(s, t, n, n);
    ProducedKept(s, t, n, n);
    StoreKept(s, t, lo, n);
  }

  lemma UpdateResources(s: State, lo: nat, n: NodeId, table: Table)
    requires StoreOk(s, lo) && n in s.nodes
    ensures StoreOk(s.(resources := table), lo) && Kept(s, s.(resources := table), n)
    ensures InTurn(s, n) ==> InTurn(s.(resources := table), n)
  {
    SameStore(s, s.(resources := table), lo, n);
  }

  lemma RecordEvent(s: State, lo: nat, n: NodeId, operation: NodeOperation)
    requires StoreOk(s, lo) && n in s.nodes
    ensures StoreOk(Recorded(s, n, operation), lo) && Kept(s, Recorded(s, n, operation), n)
    ensures InTurn(s, n) ==> InTurn(Recorded(s, n, operation), n)
  {
    SameStore(s, Recorded(s, n, operation), lo, n);
  }

  lemma RecordRun(s: State, lo: nat, n: NodeId, operation: NodeOperation)
    requires StoreOk(s, lo) && n in s.nodes
    ensures StoreOk(RunRecorded(s, n, operation), lo) && Kept(s, RunRecorded(s, n, operation), n)
    ensures InTurn(s, n) ==> InTurn(RunRecorded(s, n, operation), n)
  {
    SameStore(s, RunRecorded(s, n, operation), lo, n);
  }

  lemma RecordAttempt(s: State, lo: nat, n: NodeId, key: ProblemKey, attempt: AttemptRecord)
    requires StoreOk(s, lo) && n in s.nodes && attempt.node == n
    ensures StoreOk(AttemptRecorded(s, key, attempt), lo) && Kept(s, AttemptRecorded(s, key, attempt), n)
    ensures InTurn(s, n) ==> InTurn(AttemptRecorded(s, key, attempt), n)
  {
    SameStore(s, AttemptRecorded(s, key, attempt), lo, n);
  }

  lemma UpdatedKept(s: State, lo: nat, n: NodeId, node: ProblemNode)
    requires Numbered(s, lo) && n in s.nodes && SameIdentity(s.nodes[n], node)
    ensures Kept(s, NodeSet(s, n, node), n) && Numbered(NodeSet(s, n, node), lo)
  {
  }

  lemma UpdateNode(s: State, lo: nat, n: NodeId, node: ProblemNode)
    requires StoreOk(s, lo) && n in s.nodes
    requires node.status == s.nodes[n].status || InTurn(s, n)
    requires SameIdentity(s.nodes[n], node) && node.children == s.nodes[n].children
    requires node.plan == s.nodes[n].plan || node.children == []
    requires Produced(NodeSet(s, n, node), n)
    ensures StoreOk(NodeSet(s, n, node), lo) && Kept(s, NodeSet(s, n, node), n)
    ensures InTurn(s, n) ==> InTurn(NodeSet(s, n, node), n)
  {
    hide Linked, Produced, Staged, Grouped, ArtifactOk, Acceptable, InTurn, LogsOk, Kept, Numbered, SameIdentity;
    var t := NodeSet(s, n, node);
    UpdatedKept(s, lo, n, node);
    LinkedKept(s, t, lo, n, n);
    OwnStageKept(s, t, n);
    GroupedKept(s, t, n, n);
    LogsKept(s, t, n);
    StoreKept(s, t, lo, n);
  }

  lemma PushArtifact(s: State, lo: nat, n: NodeId, text: string, change: Option<Change>, children: seq<ArtifactId>)
    requires StoreOk(s, lo) && n in s.nodes
    requires forall k :: 0 <= k < |children| ==> children[k] in s.artifacts
    requires Bare(change)
    ensures var t := ArtifactPushed(s, n, text, change, children);
            && StoreOk(t, lo) && Kept(s, t, n) && (InTurn(s, n) ==> InTurn(t, n))
            && t.nextArtifact in t.artifacts && t.artifacts[t.nextArtifact].node == n
  {
    hide Linked, Produced, Staged, Grouped, Acceptable, InTurn, LogsOk, Kept;
    var t := ArtifactPushed(s, n, text, change, children);
    PushedKept(s, lo, n, text, change, children);
    LinkedKept(s, t, lo, n, n);
    OwnStageKept(s, t, n);
    GroupedKept(s, t, n, n);
    ProducedKept(s, t, n, n);
    LogsKept(s, t, n);
    StoreKept(s, t, lo, n);
  }

  lemma CommittedKept(s: State, lo: nat, n: NodeId, a: ArtifactId)
    requires Numbered(s, lo) && n in s.nodes
    ensures Kept(s, CommittedTo(s, n, a), n) && Numbered(CommittedTo(s, n, a), lo)
  {
  }

  lemma InsertedKept(s: State, lo: nat, n: NodeId, template: NodeTemplate)
    requires Numbered(s, lo) && n in s.nodes
    ensures Kept(s, NodeInserted(s, Some(n), template), n) && Numbered(NodeInserted(s, Some(n), template), lo)
    ensures s.nextNode + 1 !in s.nodes
  {
  }

  lemma PushedKept(s: State, lo: nat, n: NodeId, text: string, change: Option<Change>, children: seq<ArtifactId>)
    requires Numbered(s, lo) && n in s.nodes
    ensures var t := ArtifactPushed(s, n, text, change, children); Kept(s, t, n) && Numbered(t, lo)
  {
  }

  lemma CommittedProduces(s: State, n: NodeId, a: ArtifactId)
    requires n in s.nodes && Produced(s, n) && Acceptable(s, a, s.nodes[n].key)
    requires Kept(s, CommittedTo(s, n, a), n)
    ensures Produced(CommittedTo(s, n, a), n)
  {
    AcceptableKept(s, CommittedTo(s, n, a), n, a, s.nodes[n].key);
  }

  lemma CommitNode(s: State, lo: nat, n: NodeId, a: ArtifactId)
    requires StoreOk(s, lo) && n in s.nodes && InTurn(s, n)
    requires Acceptable(s, a, s.nodes[n].key)
    ensures StoreOk(CommittedTo(s, n, a), lo) && Kept(s, CommittedTo(s, n, a), n) && InTurn(CommittedTo(s, n, a), n)
  {
    hide Linked, Produced, Staged, Grouped, ArtifactOk, Acceptable, InTurn, LogsOk, Kept, Numbered;
    var t := CommittedTo(s, n, a);
    CommittedKept(s, lo, n, a);
    LinkedKept(s, t, lo, n, n);
    OwnStageKept(s, t, n);
    GroupedKept(s, t, n, n);
    CommittedProduces(s, n, a);
    AcceptableKept(s, t, n, a, s.nodes[n].key);
    LogsKept(s, t, n);
    StoreKept(s, t, lo, n);
  }

  lemma InsertedInOrder(s: State, lo: nat, n: NodeId, template: NodeTemplate)
    requires Numbered(s, lo) && n in s.nodes
    requires Inherits(NewNode(s.nextNode + 1, Some(n), template), s.nodes[n])
    ensures var t := NodeInserted(s, Some(n), template);
            Linked(t, t.nextNode) && Staged(t, t.nextNode) && Grouped(t, t.nextNode) && Produced(t, t.nextNode)
  {
  }

  lemma InsertChild(s: State, lo: nat, n: NodeId, template: NodeTemplate)
    requires StoreOk(s, lo) && n in s.nodes
    requires Inherits(NewNode(s.nextNode + 1, Some(n), template), s.nodes[n])
    ensures var t := NodeInserted(s, Some(n), template);
            StoreOk(t, lo) && Kept(s, t, n) && (InTurn(s, n) ==> InTurn(t, n))
  {
    hide Linked, Produced, Staged, Grouped, ArtifactOk, Acceptable, InTurn, LogsOk, Inherits, Kept, Numbered;
    var t := NodeInserted(s, Some(n), template);
    InsertedKept(s, lo, n, template);
    LinkedKept(s, t, lo, n, n);
    OwnStageKept(s, t, n);
    GroupedKept(s, t, n, n);
    ProducedKept(s, t, n, n);
    LogsKept(s, t, n);
    InsertedInOrder(s, lo, n, template);
    StoreKept(s, t, lo, n);
  }

  /** The nodes first..nextNode were inserted for `n` and not touched since. */
  ghost predicate FreshChildren(s: State, n: NodeId, first: NodeId)
  {
    n < first && forall i :: first <= i <= s.nextNode ==>
      i in s.nodes && s.nodes[i].parent == Some(n) && Untouched(s.nodes[i])
  }

  function Range(first: nat, last: int): (ids: seq<nat>)
    requires first <= last + 1
    ensures |ids| == last + 1 - first && forall k :: 0 <= k < |ids| ==> ids[k] == first + k
  {
    seq(last + 1 - first, k requires 0 <= k => first + k)
  }

  function Adopted(s: State, n: NodeId, first: NodeId): State
    requires n in s.nodes && first <= s.nextNode + 1
  {
    NodeSet(s, n, s.nodes[n].(children := Range(first, s.nextNode), status := Planned))
  }

  lemma AdoptedKept(s: State, lo: nat, n: NodeId, first: NodeId)
    requires Numbered(s, lo) && n in s.nodes && first <= s.nextNode + 1
    ensures Kept(s, Adopted(s, n, first), n) && Numbered(Adopted(s, n, first), lo)
  {
  }

  lemma AdoptedLinked(s: State, lo: nat, n: NodeId, first: NodeId)
    requires Numbered(s, lo) && n in s.nodes && Linked(s, n)
    requires first <= s.nextNode + 1 && FreshChildren(s, n, first)
    ensures Linked(Adopted(s, n, first), n)
  {
  }

  lemma AdoptedProduced(s: State, lo: nat, n: NodeId, first: NodeId)
    requires Numbered(s, lo) && n in s.nodes && Produced(s, n) && first <= s.nextNode + 1
    requires s.nodes[n].status != NodeStatus.Committed
    ensures Produced(Adopted(s, n, first), n)
  {
    hide Acceptable;
    if s.nodes[n].accepted.Some? {
      AdoptedKept(s, lo, n, first);
      hide Kept;
      AcceptableKept(s, Adopted(s, n, first), n, s.nodes[n].accepted.value, s.nodes[n].key);
    }
  }

  lemma AdoptedStaged(s: State, lo: nat, n: NodeId, first: NodeId)
    requires Numbered(s, lo) && n in s.nodes
    requires first <= s.nextNode + 1 && FreshChildren(s, n, first)
    ensures Staged(Adopted(s, n, first), n)
  {
    var t := Adopted(s, n, first);
    forall k | 0 <= k < |t.nodes[n].children|
      ensures t.nodes[n].children[k] in t.nodes ==> t.nodes[t.nodes[n].children[k]].status == New
    {
      assert first <= t.nodes[n].children[k] <= s.nextNode;
    }
  }

  /** Planning ends by linking the inserted children to their parent. */
  lemma AdoptChildren(s: State, lo: nat, n: NodeId, first: NodeId)
    requires StoreOk(s, lo) && n in s.nodes && InTurn(s, n) && s.nodes[n].status != NodeStatus.Committed
    requires first <= s.nextNode + 1 && FreshChildren(s, n, first) && Grouped(Adopted(s, n, first), n)
    ensures var t := Adopted(s, n, first); StoreOk(t, lo) && Kept(s, t, n) && InTurn(t, n)
  {
    hide Linked, Produced, Staged, Grouped, ArtifactOk, Acceptable, InTurn, LogsOk, FreshChildren, Kept, Numbered;
    var t := Adopted(s, n, first);
    AdoptedKept(s, lo, n, first);
    AdoptedLinked(s, lo, n, first);
    AdoptedProduced(s, lo, n, first);
    AdoptedStaged(s, lo, n, first);
    LogsKept(s, t, n);
    StoreKept(s, t, lo, n);
  }
}
