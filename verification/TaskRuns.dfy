/** What a whole task run guarantees, read off the engine's invariant. */
module TaskRuns {
  import opened Types
  import opened Glob
  import opened ScopeGate
  import opened Nodes
  import opened Resources
  import opened ResourceSafety
  import opened EngineState
  import opened EngineSteps
  import opened EngineProgress
  import opened Environment
  import opened TaskEngine

  // ---- Along the tree ----

  lemma ParentExists(s: State, i: NodeId)
    requires StoreOk(s, 1) && i in s.nodes && s.nodes[i].parent.Some?
    ensures s.nodes[i].parent.value < i && s.nodes[i].parent.value in s.nodes
    ensures Inherits(s.nodes[i], s.nodes[s.nodes[i].parent.value])
  {
    hide Produced, Staged, Grouped, ArtifactOk, MemoOk, LogsOk, Inherits;
    assert Linked(s, i);
  }

  /** The root a node descends from. */
  ghost function RootOf(s: State, i: NodeId): (root: NodeId)
    requires StoreOk(s, 1) && i in s.nodes
    ensures root in s.nodes && s.nodes[root].parent == None
    decreases i
  {
    if s.nodes[i].parent.None? then i
    else
      ParentExists(s, i);
      RootOf(s, s.nodes[i].parent.value)
  }

  /** In the whole tree the children of a node are the items of its plan, in its order. Each has the
      scopes its item names and its parent's where the item names none, so a child whose item leaves the
      write scope out may write exactly the paths its parent may write. */
  lemma ChildFollowsPlan(s: State, lo: nat, i: NodeId, k: nat)
    requires StoreOk(s, lo) && i in s.nodes && k < |s.nodes[i].children|
    ensures s.nodes[i].plan.Group? && |s.nodes[i].children| == |s.nodes[i].plan.group.items|
    ensures s.nodes[i].children[k] in s.nodes
    ensures
      var node, item, child := s.nodes[i], s.nodes[i].plan.group.items[k], s.nodes[s.nodes[i].children[k]];
      && child.parent == Some(i) && child.key == item.key
      && TakesScope(child.workspace.readScope, item.workspace.readScope, node.workspace.readScope)
      && TakesScope(child.workspace.writeScope, item.workspace.writeScope, node.workspace.writeScope)
      && (item.policy == ExplorePolicy ==> child.policy == node.policy && child.taskType == node.taskType)
      && (item.policy != ExplorePolicy ==> child.policy == item.policy && child.taskType == item.taskType)
      && (item.workspace.writeScope == [] ==> forall path ::
            PathAllowed(child.workspace.writeScope, path) <==> PathAllowed(node.workspace.writeScope, path))
  {
    hide Produced, Staged, ArtifactOk, MemoOk, LogsOk, PathAllowed;
    assert Linked(s, i) && Grouped(s, i);
    var node, c := s.nodes[i], s.nodes[i].children[k];
    assert FollowsPlan(node, node.plan.group.items[k], s.nodes[c]);
    InheritedChild(node, node.plan.group.items[k], c);
  }

  /** In every step of the tree the child's write scope is inherited unchanged, or each of its patterns was
      accepted by one the gate is right about. */
  ghost predicate NarrowingsExact(s: State)
  {
    forall i :: i in s.nodes && s.nodes[i].parent.Some? && s.nodes[i].parent.value in s.nodes ==>
      NarrowsExactly(s.nodes[i].workspace.writeScope, s.nodes[s.nodes[i].parent.value].workspace.writeScope)
  }

  /** Permissions and budget never change along the tree, and under exact narrowing no descendant may
      write a path its root may not write. */
  lemma {:induction false} DescendantBound(s: State, i: NodeId)
    requires StoreOk(s, 1) && i in s.nodes
    ensures s.nodes[i].allowWrite == s.nodes[RootOf(s, i)].allowWrite
    ensures s.nodes[i].maxAttempts == s.nodes[RootOf(s, i)].maxAttempts
    ensures NarrowingsExact(s) ==> forall path :: PathAllowed(s.nodes[i].workspace.writeScope, path) ==>
              PathAllowed(s.nodes[RootOf(s, i)].workspace.writeScope, path)
    decreases i
  {
    hide StoreOk;
    if s.nodes[i].parent.Some? {
      ParentExists(s, i);
      var p := s.nodes[i].parent.value;
      DescendantBound(s, p);
      assert RootOf(s, i) == RootOf(s, p);
      if NarrowingsExact(s) {
        forall path | PathAllowed(s.nodes[i].workspace.writeScope, path)
          ensures PathAllowed(s.nodes[p].workspace.writeScope, path)
        {
          NarrowedScopesAllowLess(s.nodes[i].workspace.writeScope, s.nodes[p].workspace.writeScope, path);
        }
      }
    }
  }

  // ---- Consequences of the invariant ----

  predicate Delivered(s: State, a: ArtifactId)
  {
    (exists key :: key in s.memo && s.memo[key] == a) || (exists i :: i in s.nodes && s.nodes[i].accepted == Some(a))
  }

  /** Write safety: a memoised or accepted artifact changed nothing if its task is read-only; otherwise
      every changed path is in its producer's write scope and, under exact narrowing, in the root's. */
  lemma WriteSafety(s: State, a: ArtifactId, k: nat)
    requires StoreOk(s, 1) && Delivered(s, a)
    ensures a in s.artifacts && s.artifacts[a].node in s.nodes
    ensures s.artifacts[a].change.Some? && k < |s.artifacts[a].change.value.changedPaths| ==>
      var producer, path := s.artifacts[a].node, s.artifacts[a].change.value.changedPaths[k];
      var root := s.nodes[RootOf(s, producer)];
      && root.allowWrite
      && PathAllowed(s.nodes[producer].workspace.writeScope, path)
      && (NarrowingsExact(s) ==> PathAllowed(root.workspace.writeScope, path))
  {
    DeliveredAcceptable(s, a);
    hide StoreOk;
    DescendantBound(s, s.artifacts[a].node);
  }

  lemma DeliveredAcceptable(s: State, a: ArtifactId)
    requires StoreOk(s, 1) && Delivered(s, a)
    ensures a in s.artifacts && s.artifacts[a].node in s.nodes
    ensures PathsSafe(s.nodes[s.artifacts[a].node], s.artifacts[a])
  {
    hide Linked, Staged, Grouped, ArtifactOk, LogsOk, Numbered;
    if key :| key in s.memo && s.memo[key] == a {
      assert Acceptable(s, a, key);
    } else {
      var i :| i in s.nodes && s.nodes[i].accepted == Some(a);
      assert Produced(s, i);
    }
  }

  /** Memo agreement: a memo entry is an artifact produced under its key; a committed node's key is
      memoised; an accepted artifact was produced under the accepting node's key. */
  lemma MemoAgreement(s: State, i: NodeId, key: ProblemKey)
    requires StoreOk(s, 1)
    ensures key in s.memo ==>
      && s.memo[key] in s.artifacts && s.artifacts[s.memo[key]].node in s.nodes
      && s.nodes[s.artifacts[s.memo[key]].node].key == key
    ensures i in s.nodes && s.nodes[i].status == NodeStatus.Committed ==> s.nodes[i].key in s.memo
    ensures i in s.nodes && s.nodes[i].status == NodeStatus.Committed ==> s.nodes[i].accepted.Some?
    ensures i in s.nodes && s.nodes[i].accepted.Some? ==>
      var a := s.nodes[i].accepted.value;
      a in s.artifacts && s.artifacts[a].node in s.nodes && s.nodes[s.artifacts[a].node].key == s.nodes[i].key
  {
    hide Linked, Staged, Grouped, ArtifactOk, LogsOk, Numbered;
    if key in s.memo {
      assert Acceptable(s, s.memo[key], key);
    }
    if i in s.nodes {
      assert Produced(s, i);
    }
  }

  /** Child gating: the children of a stage are a block of committed ones, at most one that is neither
      committed nor new, and then only new ones. */
  lemma StageBlocks(s: State, i: NodeId) returns (k: nat)
    requires StoreOk(s, 1) && i in s.nodes && s.nodes[i].plan.Group? && s.nodes[i].plan.group.mode == Stage
    ensures k <= |s.nodes[i].children|
    ensures forall j :: 0 <= j < |s.nodes[i].children| ==> s.nodes[i].children[j] in s.nodes
    ensures forall j :: 0 <= j < k ==> s.nodes[s.nodes[i].children[j]].status == NodeStatus.Committed
    ensures forall j :: k < j < |s.nodes[i].children| ==> s.nodes[s.nodes[i].children[j]].status == New
  {
    hide Produced, ArtifactOk, MemoOk, LogsOk, Numbered;
    assert Linked(s, i) && Staged(s, i);
    var children := s.nodes[i].children;
    k := 0;
    while k < |children| && s.nodes[children[k]].status == NodeStatus.Committed
      invariant k <= |children|
      invariant forall j :: 0 <= j < k ==> s.nodes[children[j]].status == NodeStatus.Committed
    {
      k := k + 1;
    }
  }

  /** The retry budget of the root bounds the execution attempts of every descendant. */
  lemma AttemptsBounded(s: State, i: NodeId)
    requires StoreOk(s, 1) && i in s.nodes
    ensures s.nodes[i].executionAttempts <= AttemptLimit(s.nodes[RootOf(s, i)])
  {
    DescendantBound(s, i);
    hide Linked, Staged, Grouped, ArtifactOk, LogsOk, MemoOk, Numbered;
    assert Produced(s, i);
  }

  /** What Verify and Combine see: every resource an artifact names is there, active, and held for it. */
  lemma InputsStillHeld(s: State, ledger: Ledger, lo: nat, n: NodeId, a: ArtifactId, k: nat)
    requires Good(s, ledger, lo, n) && a in s.artifacts && s.artifacts[a].change.Some?
    requires k < |s.artifacts[a].change.value.resourceIds|
    ensures var id := s.artifacts[a].change.value.resourceIds[k];
      && id in s.resources && s.resources[id].state == Active && ledger.cleaned[id] == 0
      && CandidateArtifact(a) in s.resources[id].refs
  {
    hide StoreOk, InTurn;
    assert Held(s, a);
    assert Holds(s.resources, s.artifacts[a].change.value.resourceIds[k], a);
  }

  // ---- Accepted against committed ----

  /** A node that is not tiny, or that gets one attempt only, is accepted exactly when it is committed. */
  lemma AcceptedMeansCommitted(s: State, lo: nat, i: NodeId)
    requires StoreOk(s, lo) && i in s.nodes
    requires s.nodes[i].size != Tiny || s.nodes[i].maxAttempts <= 1
    ensures s.nodes[i].accepted.Some? <==> s.nodes[i].status == NodeStatus.Committed
  {
    hide Linked, Staged, Grouped, ArtifactOk, LogsOk, MemoOk, Numbered;
    assert Produced(s, i);
  }

  /** So under a root with a budget of one attempt the two agree in the whole tree. */
  lemma OneAttemptAgrees(s: State, i: NodeId)
    requires StoreOk(s, 1) && i in s.nodes && s.nodes[RootOf(s, i)].maxAttempts <= 1
    ensures s.nodes[i].accepted.Some? <==> s.nodes[i].status == NodeStatus.Committed
  {
    DescendantBound(s, i);
    AcceptedMeansCommitted(s, 1, i);
  }

  /** Child gating at Combine: it asks for accepted children, and every child is then committed but for
      tiny ones with a budget of two attempts or more. */
  lemma CombineGated(s: State, ledger: Ledger, lo: nat, n: NodeId, k: nat)
    requires Good(s, ledger, lo, n) && ChildrenAccepted(s.nodes, n) && k < |s.nodes[n].children|
    ensures var child := s.nodes[s.nodes[n].children[k]];
      child.status == NodeStatus.Committed || (child.size == Tiny && child.maxAttempts >= 2)
  {
    hide StoreOk, ResourcesOk, InTurn;
    var c := s.nodes[n].children[k];
    if !Reopens(s.nodes[c]) {
      AcceptedMeansCommitted(s, lo, c);
    }
  }

  /** Any budget of two attempts or more lets them come apart: the agent calls the task tiny and its
      first attempt says nothing but changes a path, so there is a candidate, which is rejected. The
      retry changes nothing and commits its artifact at once, but it is the old candidate that is
      verified next. It is rejected until the budget is spent, and the node ends Rejected, accepted. */
  method AcceptedNeedNotBeCommitted(template: NodeTemplate) returns (engine: Engine, root: NodeId)
    requires template.maxAttempts >= 2
    ensures fresh(engine) && root in engine.nodes && StoreOk(engine.Snapshot(), 1)
    ensures engine.nodes[root].status == Rejected && engine.nodes[root].accepted.Some?
    ensures engine.nodes[root].parent == None && engine.nodes[root].key == template.key
  {
    hide Good, Moved, EngineOk, StoreOk;
    var limit := template.maxAttempts;
    var first := [Opens([]), Captures([], [], ["changed"], [])];
    var workspace := new Workspace(first + Idles(limit - 1));
    var agent := new Agent([Answer(SpecifiedAs(Tiny)), Answer(Executed(""))] + Blanks(limit - 1), limit + 2);
    engine := new Engine(workspace, agent, 3);
    EmptyEngineOk(workspace.Account());
    root := engine.InsertRoot(template);
    ghost var s, ledger := engine.Snapshot(), workspace.Account();
    SlipsThen(limit, agent.checks - 2, Rest(agent.replies), workspace.answers);
    var r := engine.Resolve(1, root, 0);
    GoodParts(s, ledger, engine.Snapshot(), workspace.Account(), 1, root);
    MovedForward(s, ledger, engine.Snapshot(), workspace.Account(), root);
  }

  lemma SlipsThen(limit: nat, checks: nat, replies: seq<Reply>, answers: seq<Served>)
    requires limit >= 2 && checks >= limit
    requires replies == [Answer(Executed(""))] + Blanks(limit - 1)
    requires answers == [Opens([]), Captures([], [], ["changed"], [])] + Idles(limit - 1)
    ensures Slips(limit, map[], checks, replies, answers)
  {
    assert answers[1..][0] == answers[1];
    assert Rest(replies) == Blanks(limit - 1);
    assert Rest(Rest(answers)) == Idles(limit - 1);
  }

  // ---- A task from start to end ----

  lemma {:induction false} IntervalSize(ids: set<nat>, n: nat)
    requires forall i :: i in ids <==> 1 <= i <= n
    ensures |ids| == n
    decreases n
  {
    if n > 0 {
      IntervalSize(ids - {n}, n - 1);
    } else {
      assert ids == {};
    }
  }

  predicate Final(status: NodeStatus)
  {
    status == NodeStatus.Committed || status == WaitingForInfo || status == Rejected || status == Pruned
  }

  /** Runs one task in an engine of its own. It ends Ok exactly if nothing outside the engine failed. Then
      the root ended as the agent's answers say, it is final and committed exactly if an artifact is
      delivered, whose text is reported, and every resource was released with one cleanup call. However it
      ends, the invariant holds and the agent ran at most quota times nodes. */
  method RunTask(workspace: Workspace, agent: Agent, template: NodeTemplate)
    returns (r: Outcome<Report>, root: NodeId, engine: Engine)
    requires forall id :: id > workspace.issued ==> workspace.cleaned[id] == 0
    modifies workspace, agent
    ensures fresh(engine) && root in engine.nodes
    ensures SameIdentity(NewNode(root, None, template), engine.nodes[root])
    ensures StoreOk(engine.Snapshot(), 1) && RootOf(engine.Snapshot(), root) == root
    ensures |engine.runs| <= Times(Quota(engine.nodes[root]), |engine.nodes|)
    ensures r.Ok? ==>
      && ReportsOn(engine.Snapshot(), root, r.value) && Final(r.value.status)
      && (r.value.status == NodeStatus.Committed <==> r.value.artifact.Some?)
      && (r.value.artifact.Some? ==>
            engine.nodes[root].accepted == r.value.artifact && Delivered(engine.Snapshot(), r.value.artifact.value))
      && AllReleased(engine.registry.resources, workspace.cleaned)
    ensures r.Ok? ==>
      ResolvedFrom(NewNode(root, None, template), engine.Snapshot(), root, old(agent.replies), old(workspace.answers))
    ensures r.Ok? <==> workspace.failures + agent.failures == old(workspace.failures + agent.failures)
    ensures r.Err? ==> r.error.External()
  {
    hide Good, StoreOk, Kept, EngineOk, TableOk, NoFailures, TidyBut, Times, Quota, AllReleased, ReportsOn, Settled,
         Final, Delivered, ResolvedFrom;
    engine := new Engine(workspace, agent, 3);
    EmptyEngineOk(workspace.Account());
    NothingFailed();
    root := engine.InsertRoot(template);
    GoodTable(engine.Snapshot(), workspace.Account(), 1, root);
    ghost var s := engine.Snapshot();
    r := engine.RunWithCancel(root);
    ghost var t := engine.Snapshot();
    RootUnmoved(s, t, root);
    CountNodes(t);
    QuotaShared(s.nodes[root], t.nodes[root]);
    assert s.nextNode == 1 && |s.runs| == 0;
    if r.Ok? {
      ReportFinal(t, root, r.value);
    }
  }

  lemma ReportFinal(s: State, root: NodeId, report: Report)
    requires root in s.nodes && Settled(s.nodes[root], report.artifact) && ReportsOn(s, root, report)
    ensures Final(report.status)
    ensures report.status == NodeStatus.Committed <==> report.artifact.Some?
    ensures report.artifact.Some? ==> s.nodes[root].accepted == report.artifact && Delivered(s, report.artifact.value)
  {
  }

  lemma QuotaShared(before: ProblemNode, after: ProblemNode)
    requires SameIdentity(before, after)
    ensures Quota(before) == Quota(after)
  {
  }

  lemma NothingFailed()
    ensures Tidy(map[])
  {
  }

  lemma RootUnmoved(s: State, t: State, root: NodeId)
    requires Kept(s, t, root) && root in s.nodes && s.nodes[root].parent == None && StoreOk(t, 1)
    ensures root in t.nodes && SameIdentity(s.nodes[root], t.nodes[root]) && RootOf(t, root) == root
  {
    hide StoreOk;
  }

  lemma CountNodes(s: State)
    requires StoreOk(s, 1)
    ensures |s.nodes| == s.nextNode
  {
    hide Linked, Produced, Staged, Grouped, ArtifactOk, MemoOk, LogsOk;
    IntervalSize(s.nodes.Keys, s.nextNode);
  }
}
