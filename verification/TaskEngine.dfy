/** The recursive task engine. */
module TaskEngine {
  import opened Types
  import opened Nodes
  import opened Resources
  import opened ResourceSafety
  import opened EngineState
  import opened EngineSteps
  import opened EngineProgress
  import opened Environment
  import opened Renaming
  import opened Merge
  import opened MergeKeeps
  import opened MergeLoops

  class Engine {
    const workspace: Workspace
    const agent: Agent
    const maxDecompositionDepth: nat
    const registry: WorkspaceResourceRegistry
    var nextNode: NodeId
    var nextArtifact: ArtifactId
    var nodes: map<NodeId, ProblemNode>
    var artifacts: map<ArtifactId, Artifact>
    var memo: map<ProblemKey, ArtifactId>
    var attempts: map<ProblemKey, seq<AttemptRecord>>
    var events: seq<OperationEvent>
    var runs: seq<RunRecord>

    ghost function Snapshot(): State
      reads this, registry
    {
      State(nextNode, nextArtifact, nodes, artifacts, memo, attempts, events, runs, registry.resources)
    }

    /** How often the world outside has failed this engine. */
    ghost function Failures(): nat
      reads workspace`failures, agent`failures
    {
      workspace.failures + agent.failures
    }

    ghost predicate Ready(lo: nat, n: NodeId)
      reads this, registry, workspace
    {
      n in nodes && Good(Snapshot(), workspace.Account(), lo, n)
    }

    /** The candidate under review has no text, and the retries left say nothing and change nothing. */
    ghost predicate Hopeless(n: NodeId)
      reads this, registry, workspace, agent
    {
      && BlankCandidate(nodes, artifacts, n)
      && BlanksFollow(RetriesLeft(nodes[n]), registry.resources, agent.checks, agent.replies, workspace.answers)
    }

    /** The first attempt says nothing but changes a path; the retries after it change nothing either. */
    ghost predicate SlipsOnce(n: NodeId)
      reads this, registry, workspace, agent
    {
      n in nodes && Slips(nodes[n].maxAttempts, registry.resources, agent.checks, agent.replies, workspace.answers)
    }

    /** The agent calls the node tiny, and then it slips; the token is looked at `looks` times before. */
    ghost predicate TinyThenSlips(n: NodeId, looks: nat)
      reads this, registry, workspace, agent
    {
      && n in nodes && agent.checks >= looks
      && Heard(NodeOperation.Specify, agent.replies) == Answer(SpecifiedAs(Tiny))
      && Slips(nodes[n].maxAttempts, registry.resources, agent.checks - looks, Rest(agent.replies), workspace.answers)
    }

    constructor (workspace: Workspace, agent: Agent, maxDecompositionDepth: nat)
      ensures this.workspace == workspace && this.agent == agent && fresh(registry)
      ensures Snapshot() == State(0, 0, map[], map[], map[], map[], [], [], map[])
    {
      this.workspace, this.agent, this.maxDecompositionDepth := workspace, agent, maxDecompositionDepth;
      registry := new WorkspaceResourceRegistry();
      nextNode, nextArtifact := 0, 0;
      nodes, artifacts, memo, attempts, events, runs := map[], map[], map[], map[], [], [];
    }

    /** The private engine of a parallel branch knows only its own child. */
    constructor Branch(workspace: Workspace, agent: Agent, maxDecompositionDepth: nat, child: ProblemNode)
      ensures this.workspace == workspace && this.agent == agent && fresh(registry)
      ensures Snapshot() == BranchState(child)
    {
      this.workspace, this.agent, this.maxDecompositionDepth := workspace, agent, maxDecompositionDepth;
      registry := new WorkspaceResourceRegistry();
      nextNode, nextArtifact := child.id, 0;
      nodes, artifacts, memo, attempts, events, runs := map[child.id := child], map[], map[], map[], [], [];
    }

    // ---- Elementary updates ----

    method Record(n: NodeId, operation: NodeOperation)
      modifies this`events
      ensures Snapshot() == Recorded(old(Snapshot()), n, operation)
    {
      events := events + [OperationEvent(n, operation)];
    }

    method RecordAgentRun(n: NodeId, operation: NodeOperation)
      modifies this`events, this`runs
      ensures Snapshot() == RunRecorded(old(Snapshot()), n, operation)
    {
      runs := runs + [RunRecord(n, operation)];
      events := events + [OperationEvent(n, operation)];
    }

    method RecordAttempt(n: NodeId, operation: NodeOperation, verdict: Option<Verdict>)
      requires n in nodes
      modifies this`attempts
      ensures Snapshot() == AttemptRecorded(old(Snapshot()), nodes[n].key, AttemptRecord(n, operation, verdict))
    {
      var key := nodes[n].key;
      attempts := attempts[key := AttemptsAt(attempts, key) + [AttemptRecord(n, operation, verdict)]];
    }

    method Update(n: NodeId, node: ProblemNode)
      modifies this`nodes
      ensures Snapshot() == NodeSet(old(Snapshot()), n, node)
    {
      nodes := nodes[n := node];
    }

    method InsertNode(parent: Option<NodeId>, template: NodeTemplate) returns (id: NodeId)
      modifies this`nextNode, this`nodes
      ensures Snapshot() == NodeInserted(old(Snapshot()), parent, template) && id == nextNode
    {
      nextNode := nextNode + 1;
      id := nextNode;
      nodes := nodes[id := NewNode(id, parent, template)];
    }

    method PushArtifact(n: NodeId, text: string, change: Option<Change>,
                        children: seq<ArtifactId>)
      returns (id: ArtifactId)
      modifies this`nextArtifact, this`artifacts
      ensures Snapshot() == ArtifactPushed(old(Snapshot()), n, text, change, children) && id == nextArtifact
    {
      nextArtifact := nextArtifact + 1;
      id := nextArtifact;
      artifacts := artifacts[id := Artifact(id, n, text, change, children)];
    }

    method Commit(n: NodeId, a: ArtifactId)
      requires n in nodes
      modifies this`memo, this`nodes, this`events
      ensures Snapshot() == CommittedTo(old(Snapshot()), n, a)
    {
      memo := memo[nodes[n].key := a];
      nodes := nodes[n := nodes[n].(status := NodeStatus.Committed, accepted := Some(a))];
      events := events + [OperationEvent(n, NodeOperation.Commit)];
    }

    method RetainChangeResources(change: Change, ref: ResourceRef)
      modifies registry
      ensures registry.resources == RetainedAll(old(registry.resources), change.resourceIds, ref)
    {
      var ids := change.resourceIds;
      for i := 0 to |ids|
        invariant RetainedAll(registry.resources, ids[i..], ref) == RetainedAll(old(registry.resources), ids, ref)
      {
        assert ids[i..][1..] == ids[i + 1..];
        registry.Retain(ids[i], ref);
      }
    }

    method ReleaseIds(ids: seq<ResourceId>, ref: ResourceRef)
      modifies registry
      ensures registry.resources == DroppedAll(old(registry.resources), ids, ref)
    {
      for i := 0 to |ids|
        invariant DroppedAll(registry.resources, ids[i..], ref) == DroppedAll(old(registry.resources), ids, ref)
      {
        assert ids[i..][1..] == ids[i + 1..];
        registry.Release(ids[i], ref);
      }
    }

    /** One cleanup call. */
    method CleanupOne(id: ResourceId, ghost lo: nat, ghost nodeBound: nat, ghost artifactBound: nat)
      returns (works: bool)
      requires TableOk(registry.resources, workspace.Account(), lo, nodeBound, artifactBound)
      requires Releasable(registry.resources, id)
      modifies registry, workspace`cleaned, workspace`answers, workspace`failures
      ensures TableOk(registry.resources, workspace.Account(), lo, nodeBound, artifactBound)
      ensures TableStep(old(registry.resources), old(workspace.Account()), registry.resources, workspace.Account())
      ensures registry.resources == Marked(old(registry.resources), id, if works then Released else FailedCleanup)
      ensures workspace.cleaned == old(workspace.cleaned) + multiset{id}
      ensures old(Failures()) <= Failures() && (works <==> Failures() == old(Failures()))
      ensures works && NoFailures(old(registry.resources)) ==> NoFailures(registry.resources)
      ensures forall other ::
        Releasable(registry.resources, other) <==> Releasable(old(registry.resources), other) && other != id
    {
      hide TableOk, TableStep, NoFailures, Releasable;
      CleanedUp(registry.resources, workspace.Account(), id, lo, nodeBound, artifactBound);
      works := workspace.Cleanup(id);
      if works {
        registry.MarkReleased(id);
      } else {
        registry.MarkFailedCleanup(id);
      }
    }

    /** Cleans up every releasable resource, one call each; stops at the first failure. */
    method CleanupReleasableResources(ghost lo: nat, ghost nodeBound: nat,
                                      ghost artifactBound: nat)
      returns (r: Outcome<()>)
      requires TableOk(registry.resources, workspace.Account(), lo, nodeBound, artifactBound)
      modifies registry, workspace
      ensures TableOk(registry.resources, workspace.Account(), lo, nodeBound, artifactBound)
      ensures TableStep(old(registry.resources), old(workspace.Account()), registry.resources, workspace.Account())
      ensures registry.resources.Keys == old(registry.resources).Keys && workspace.issued == old(workspace.issued)
      ensures forall id :: id in registry.resources ==> registry.resources[id].refs == old(registry.resources)[id].refs
      ensures r.Ok? ==> forall id :: !Releasable(registry.resources, id)
      ensures r.Ok? && NoFailures(old(registry.resources)) ==> NoFailures(registry.resources)
      ensures workspace.merges == old(workspace.merges)
      ensures r.Ok? ==> registry.resources == SweptOn(old(registry.resources), ReleasableSet(old(registry.resources)))
      ensures r.Ok? ==> workspace.cleaned == old(workspace.cleaned) + multiset(ReleasableSet(old(registry.resources)))
      ensures r.Err? ==> StoppedAt(old(registry.resources), registry.resources)
      ensures old(registry.resources) == map[] ==> r.Ok? && workspace.answers == old(workspace.answers)
      ensures old(Failures()) <= Failures() && (r.Ok? <==> Failures() == old(Failures()))
      ensures r.Err? ==> r.error.External()
    {
      hide TableOk, TableStep, NoFailures, SweptOn, ReleasableSet, Among, StoppedAt;
      var ids := registry.ReleasableIds();
      NothingYet(registry.resources, workspace.Account());
      SweptNothing(registry.resources, ids);
      assert registry.resources == map[] ==> ids == [] by {
        assert ids != [] ==> Releasable(registry.resources, ids[0]);
      }
      for i := 0 to |ids|
        invariant TableOk(registry.resources, workspace.Account(), lo, nodeBound, artifactBound)
        invariant TableStep(old(registry.resources), old(workspace.Account()), registry.resources, workspace.Account())
        invariant registry.resources.Keys == old(registry.resources).Keys && workspace.issued == old(workspace.issued)
        invariant workspace.merges == old(workspace.merges) && Failures() == old(Failures())
        invariant forall id :: id in registry.resources ==>
          registry.resources[id].refs == old(registry.resources)[id].refs
        invariant forall id :: Releasable(registry.resources, id) <==> id in ids[i..]
        invariant NoFailures(old(registry.resources)) ==> NoFailures(registry.resources)
        invariant ids == [] ==> workspace.answers == old(workspace.answers)
        invariant registry.resources == SweptOn(old(registry.resources), Among(ids[..i]))
        invariant workspace.cleaned == old(workspace.cleaned) + multiset(ids[..i])
      {
        ghost var table, ledger := registry.resources, workspace.Account();
        var id := ids[i];
        var works := CleanupOne(id, lo, nodeBound, artifactBound);
        TableStepTransitive(old(registry.resources), old(workspace.Account()), table, ledger, registry.resources,
                            workspace.Account());
        if !works {
          SweepStopped(old(registry.resources), ids, i, registry.resources);
          return Err(WorkspaceFailure);
        }
        assert ids[i..] == [id] + ids[i + 1..];
        SweptOneMore(old(registry.resources), ids, i);
      }
      AllSwept(old(registry.resources), ids);
      return Ok(());
    }

    // ---- Agent runs ----

    /** One agent run: recorded when it ends, even if its result cannot be decoded; not recorded when
        it is cancelled. */
    method RunAgent(ghost lo: nat, n: NodeId, operation: NodeOperation) returns (r: Outcome<Output>)
      requires Ready(lo, n) && operation != NodeOperation.Commit
      modifies this`events, this`runs, agent
      ensures Ready(lo, n)
      ensures Moved(old(Snapshot()), old(workspace.Account()), Snapshot(), workspace.Account(), n)
      ensures r == RunOutcome(operation, old(agent.checks), old(agent.replies))
      ensures Snapshot() == if r == Err(Cancelled) then old(Snapshot()) else RunRecorded(old(Snapshot()), n, operation)
      ensures r.Ok? ==> agent.replies == Rest(old(agent.replies)) && agent.checks == old(agent.checks) - 1
      ensures r.Ok? ==> runs == old(runs) + [RunRecord(n, operation)]
      ensures r.Ok? ==> events == old(events) + [OperationEvent(n, operation)]
      ensures r.Ok? ==> |agent.replies| < old(|agent.replies|)
      ensures old(Failures()) <= Failures()
      ensures r.Ok? && !r.value.InvalidPlan? <==> Failures() == old(Failures())
      ensures |agent.replies| <= old(|agent.replies|)
    {
      hide Good, Moved;
      ghost var s, ledger := Snapshot(), workspace.Account();
      MovedNowhere(s, ledger, n);
      RunGood(s, ledger, lo, n, operation);
      var cancelled := agent.Cancelled();
      if cancelled {
        return Err(Cancelled);
      }
      var reply := agent.Ask(operation);
      match reply
      case Interrupted => return Err(Cancelled);
      case Undecodable =>
        RecordAgentRun(n, operation);
        return Err(AgentProtocol);
      case Answer(output) =>
        RecordAgentRun(n, operation);
        return Ok(output);
    }

    method Specify(ghost lo: nat, n: NodeId, depth: nat) returns (r: Outcome<()>)
      requires Ready(lo, n) && Untouched(nodes[n])
      modifies this`events, this`runs, this`nodes, agent
      ensures Ready(lo, n)
      ensures Moved(old(Snapshot()), old(workspace.Account()), Snapshot(), workspace.Account(), n)
      ensures |runs| <= old(|runs|) + 1
      ensures r.Ok? ==> |agent.replies| < old(|agent.replies|)
      ensures r.Ok? ==> nodes[n] == SpecifiedNode(old(nodes[n]), nodes[n].size)
      ensures r.Ok? ==> runs == old(runs) + [RunRecord(n, NodeOperation.Specify)]
      ensures r.Ok? <==> RunOutcome(NodeOperation.Specify, old(agent.checks), old(agent.replies)).Ok?
      ensures r.Ok? ==> Heard(NodeOperation.Specify, old(agent.replies)) == Answer(SpecifiedAs(nodes[n].size))
      ensures r.Ok? ==> agent.replies == Rest(old(agent.replies)) && agent.checks == old(agent.checks) - 1
      ensures old(Failures()) <= Failures() && (r.Ok? <==> Failures() == old(Failures()))
      ensures r.Err? ==> r.error.External()
      ensures |agent.replies| <= old(|agent.replies|)
    {
      hide Good, Moved, Produced;
      ghost var s0, ledger := Snapshot(), workspace.Account();
      var result := RunAgent(lo, n, NodeOperation.Specify);
      if result.Err? {
        return Err(result.error);
      }
      ghost var s1 := Snapshot();
      var node := nodes[n];
      var size := result.value.size;
      var plan := PlanFromScopeAssessment(size, node.plan, node.taskType.DefaultPolicyPack(),
                                          depth < maxDecompositionDepth);
      var routed := node.(size := size, plan := plan, status := NodeStatus.Specified);
      SpecifyGood(s1, ledger, lo, n, size, plan);
      Update(n, routed);
      MovedOn(s0, ledger, s1, ledger, Snapshot(), ledger, n);
      return Ok(());
    }

    // ---- Execute and Combine ----

    /** The surface is known, active, and held for what it was opened for. */
    ghost predicate Tracks(surface: Surface, ref: ResourceRef)
      reads registry
    {
      forall id :: id in Ids(surface.resources) ==>
        id in registry.resources && registry.resources[id].state == Active && ref in registry.resources[id].refs
    }

    /** Registers what the workspace handed out for `n`. */
    method TrackFor(ghost lo: nat, ghost n: NodeId, resources: seq<Resource>, ghost refs: seq<ResourceRef>,
                    ghost from: nat, ghost extra: set<Hold>)
      requires n in nodes && Good(Snapshot(), Ledger(from, workspace.cleaned), lo, n)
      requires from <= workspace.issued && Fresh(resources, from, workspace.issued, refs)
      requires forall ref :: ref in refs ==> RefKnown(ref, lo, nextNode, nextArtifact)
      modifies registry
      ensures Ready(lo, n)
      ensures Moved(old(Snapshot()), Ledger(from, workspace.cleaned), Snapshot(), workspace.Account(), n)
      ensures TidyBut(old(registry.resources), extra) ==>
        TidyBut(registry.resources, extra + HoldsFor(Ids(resources), refs))
      ensures forall id :: id in old(registry.resources) ==>
                id in registry.resources && registry.resources[id] == old(registry.resources)[id]
      ensures forall id :: id in Ids(resources) ==>
        && id in registry.resources && registry.resources[id].state == Active
        && registry.resources[id].refs == refs
      ensures resources == [] ==> registry.resources == old(registry.resources)
    {
      hide Good, Moved, TidyBut, HoldsFor, Fresh;
      ghost var s, ledger := Snapshot(), Ledger(from, workspace.cleaned);
      TrackGood(s, ledger, lo, n, resources, workspace.issued, refs, extra);
      registry.TrackAll(resources);
      assert Snapshot() == s.(resources := Tracked(s.resources, resources));
    }

    method OpenRunningSurface(ghost lo: nat, n: NodeId) returns (r: Outcome<Surface>)
      requires Ready(lo, n)
      modifies registry, workspace
      ensures Ready(lo, n)
      ensures Moved(old(Snapshot()), old(workspace.Account()), Snapshot(), workspace.Account(), n)
      ensures r.Ok? ==> Tracks(r.value, RunningNode(n))
      ensures workspace.answers == Rest(old(workspace.answers))
      ensures r.Ok? && Tidy(old(registry.resources)) ==>
        TidyBut(registry.resources, HoldsFor(Ids(r.value.resources), [RunningNode(n)]))
      ensures old(registry.resources) == map[] && First(old(workspace.answers)) == Some(Opens([])) ==>
        r == Ok(Surface([])) && registry.resources == map[]
      ensures old(Failures()) <= Failures() && (r.Ok? <==> Failures() == old(Failures()))
      ensures r.Err? ==> r.error.External()
    {
      hide Good, Moved, TidyBut, HoldsFor, Fresh;
      ghost var s, ledger := Snapshot(), workspace.Account();
      r := workspace.OpenSurface([RunningNode(n)]);
      IssuedMore(s, ledger, lo, n, workspace.issued);
      if r.Err? {
        return;
      }
      GoodRange(s, ledger, lo, n);
      TrackFor(lo, n, r.value.resources, [RunningNode(n)], ledger.issued, {});
      NothingExtra(HoldsFor(Ids(r.value.resources), [RunningNode(n)]));
    }

    /** Captures what happened on a surface, stores it as an artifact of `n`, and holds every resource
        the change names for that artifact. */
    method CaptureArtifact(ghost lo: nat, n: NodeId, surface: Surface, text: string, children: seq<ArtifactId>,
                           ghost ref: ResourceRef, ghost extra: set<Hold>)
      returns (r: Outcome<ArtifactId>)
      requires Ready(lo, n) && Tracks(surface, ref)
      requires forall k :: 0 <= k < |children| ==> children[k] in artifacts
      modifies this`nextArtifact, this`artifacts, registry, workspace
      ensures Ready(lo, n)
      ensures Moved(old(Snapshot()), old(workspace.Account()), Snapshot(), workspace.Account(), n)
      ensures r.Ok? ==> r.value in artifacts && artifacts[r.value].node == n && artifacts[r.value].change.Some?
      ensures r.Ok? ==> artifacts[r.value].text == text && artifacts[r.value].children == children
      ensures TidyBut(old(registry.resources), extra) ==> TidyBut(registry.resources, extra)
      ensures r.Ok? ==> r.value == nextArtifact && artifacts[r.value].id == r.value
      ensures workspace.merges == old(workspace.merges)
      ensures r.Ok? ==> CarriesCapture(artifacts[r.value].change.value, surface, First(old(workspace.answers)))
      ensures r.Ok? ==> Held(Snapshot(), r.value)
      ensures old(registry.resources) == map[] && surface.resources == []
              && CapturesNoResource(old(workspace.answers)) ==>
        r.Ok? && registry.resources == map[]
      ensures workspace.answers == Rest(old(workspace.answers))
      ensures old(Failures()) <= Failures() && (r.Ok? <==> Failures() == old(Failures()))
      ensures r.Err? ==> r.error.External()
    {
      hide Good, Moved, TidyBut, HoldsFor, Fresh, Bare, Held;
      ghost var s0, l0 := Snapshot(), workspace.Account();
      var captured := workspace.CaptureChanges(surface);
      IssuedMore(s0, l0, lo, n, workspace.issued);
      if captured.Err? {
        return Err(captured.error);
      }
      var change := captured.value;
      FreshIsBare(change, l0.issued, workspace.issued);
      NothingNamed(surface, change);
      TrackFor(lo, n, change.resources, [], l0.issued, extra);
      NoHolds(Ids(change.resources), extra);
      ghost var s1, l1 := Snapshot(), workspace.Account();
      var id := StoreChange(lo, n, text, change, children, extra);
      MovedOn(s0, l0, s1, l1, Snapshot(), l1, n);
      return Ok(id);
    }

    /** Stores a change as an artifact of `n` and holds the resources it names. */
    method StoreChange(ghost lo: nat, n: NodeId, text: string, change: Change, children: seq<ArtifactId>,
                       ghost extra: set<Hold>)
      returns (a: ArtifactId)
      requires Ready(lo, n) && Bare(Some(change))
      requires forall k :: 0 <= k < |children| ==> children[k] in artifacts
      requires forall id :: id in change.resourceIds ==>
        id in registry.resources && registry.resources[id].state == Active
      modifies this`nextArtifact, this`artifacts, registry
      ensures Ready(lo, n)
      ensures Moved(old(Snapshot()), workspace.Account(), Snapshot(), workspace.Account(), n)
      ensures a == nextArtifact && a in artifacts && artifacts[a] == Artifact(a, n, text, Some(change), children)
      ensures Held(Snapshot(), a)
      ensures TidyBut(old(registry.resources), extra) ==> TidyBut(registry.resources, extra)
      ensures change.resourceIds == [] ==> registry.resources == old(registry.resources)
    {
      hide Good, Moved, TidyBut, Captured, Held;
      ghost var s, ledger := Snapshot(), workspace.Account();
      CaptureGood(s, ledger, lo, n, text, change, children, extra);
      a := PushArtifact(n, text, Some(change), children);
      RetainChangeResources(change, CandidateArtifact(a));
      CapturedIs(s, Snapshot(), n, text, change, children);
      GoodHolds(Snapshot(), ledger, lo, n, a);
    }

    /** Drops references that are not held for artifacts. */
    method ReleaseFor(ghost lo: nat, ghost n: NodeId, ids: seq<ResourceId>, ref: ResourceRef,
                      ghost extra: set<Hold>)
      requires Ready(lo, n) && !ref.CandidateArtifact?
      modifies registry
      ensures Ready(lo, n)
      ensures Moved(old(Snapshot()), old(workspace.Account()), Snapshot(), workspace.Account(), n)
      ensures TidyBut(old(registry.resources), extra) ==> TidyBut(registry.resources, extra - HoldsFor(ids, [ref]))
      ensures ids == [] ==> registry.resources == old(registry.resources)
    {
      hide Good, Moved, TidyBut, HoldsFor;
      ghost var s, ledger := Snapshot(), workspace.Account();
      DropGood(s, ledger, lo, n, ids, ref, extra);
      ReleaseIds(ids, ref);
      assert Snapshot() == s.(resources := DroppedAll(s.resources, ids, ref));
    }

    method CleanupFor(ghost lo: nat, ghost n: NodeId) returns (r: Outcome<()>)
      requires Ready(lo, n)
      modifies registry, workspace
      ensures Ready(lo, n)
      ensures Moved(old(Snapshot()), old(workspace.Account()), Snapshot(), workspace.Account(), n)
      ensures r.Ok? && Tidy(old(registry.resources)) ==> Tidy(registry.resources)
      ensures r.Ok? ==> NothingReleasable(registry.resources)
      ensures workspace.merges == old(workspace.merges)
      ensures r.Ok? ==> registry.resources == SweptOn(old(registry.resources), ReleasableSet(old(registry.resources)))
      ensures r.Ok? ==> workspace.cleaned == old(workspace.cleaned) + multiset(ReleasableSet(old(registry.resources)))
      ensures old(registry.resources) == map[] ==>
        r.Ok? && registry.resources == map[] && workspace.answers == old(workspace.answers)
      ensures old(Failures()) <= Failures() && (r.Ok? <==> Failures() == old(Failures()))
      ensures r.Err? ==> r.error.External()
    {
      hide Good, Moved, NoFailures, TidyBut, TableOk, TableStep;
      ghost var s, ledger := Snapshot(), workspace.Account();
      GoodTable(s, ledger, lo, n);
      if Tidy(s.resources) {
        TidyIs(s.resources, {});
      }
      r := CleanupReleasableResources(lo, nextNode, nextArtifact);
      TableGood(s, ledger, lo, n, registry.resources, workspace.Account());
      assert Snapshot() == s.(resources := registry.resources);
      if r.Ok? && Tidy(s.resources) {
        TidySameRefs(s.resources, registry.resources, {});
      }
    }

    /** The first half of an execution: a surface, one agent run on it, and an artifact of what happened. */
    method Attempt(ghost lo: nat, n: NodeId) returns (r: Outcome<Surface>)
      requires Ready(lo, n)
      modifies this`artifacts, this`events, this`runs, this`nextArtifact, registry, workspace, agent
      ensures Ready(lo, n)
      ensures Moved(old(Snapshot()), old(workspace.Account()), Snapshot(), workspace.Account(), n)
      ensures |runs| <= old(|runs|) + 1
      ensures r.Ok? ==> runs == old(runs) + [RunRecord(n, NodeOperation.Execute)]
      ensures r.Ok? ==> nextArtifact in artifacts && artifacts[nextArtifact].node == n
      ensures r.Ok? ==> artifacts[nextArtifact].id == nextArtifact && artifacts[nextArtifact].change.Some?
      ensures r.Ok? ==> AttemptOf(artifacts[nextArtifact], old(agent.replies), old(workspace.answers))
      ensures r.Ok? && Tidy(old(registry.resources)) ==>
        TidyBut(registry.resources, HoldsFor(Ids(r.value.resources), [RunningNode(n)]))
      ensures ServesAttempt(old(registry.resources), old(agent.checks), old(agent.replies), old(workspace.answers)) ==>
        && r == Ok(Surface([])) && registry.resources == map[]
        && workspace.answers == Rest(Rest(old(workspace.answers)))
        && agent.replies == Rest(old(agent.replies)) && agent.checks == old(agent.checks) - 1
      ensures old(Failures()) <= Failures() && (r.Ok? <==> Failures() == old(Failures()))
      ensures r.Err? ==> r.error.External()
      ensures |agent.replies| <= old(|agent.replies|)
    {
      hide Good, Moved, TidyBut, HoldsFor, Tracks, Held;
      ghost var s0, l0 := Snapshot(), workspace.Account();
      r := OpenRunningSurface(lo, n);
      if r.Err? {
        return;
      }
      ghost var s1, l1 := Snapshot(), workspace.Account();
      var result := RunAgent(lo, n, NodeOperation.Execute);
      MovedOn(s0, l0, s1, l1, Snapshot(), l1, n);
      if result.Err? {
        return Err(result.error);
      }
      ghost var s2 := Snapshot();
      var id := CaptureArtifact(lo, n, r.value, result.value.text, [], RunningNode(n),
                                HoldsFor(Ids(r.value.resources), [RunningNode(n)]));
      MovedOn(s0, l0, s2, l1, Snapshot(), workspace.Account(), n);
      if id.Err? {
        return Err(id.error);
      }
    }

    /** One execution attempt. It ends with a candidate to verify, or, for a tiny node that changed
        nothing, directly committed; the previous candidate then stays in place. */
    method ExecuteNode(ghost lo: nat, n: NodeId) returns (r: Outcome<()>)
      requires Ready(lo, n) && nodes[n].status != New && nodes[n].executionAttempts < AttemptLimit(nodes[n])
      requires MayReopen(nodes[n])
      modifies this`nodes, this`artifacts, this`memo, this`events, this`runs, this`nextArtifact
      modifies registry, workspace, agent
      ensures Ready(lo, n)
      ensures Moved(old(Snapshot()), old(workspace.Account()), Snapshot(), workspace.Account(), n)
      ensures |runs| <= old(|runs|) + 1
      ensures r.Ok? ==> AfterExecute(old(nodes[n]), nodes[n])
      ensures r.Ok? && Tidy(old(registry.resources)) ==> Tidy(registry.resources)
      ensures r.Ok? ==> NothingReleasable(registry.resources)
      ensures r.Ok? ==> runs == old(runs) + [RunRecord(n, NodeOperation.Execute)]
      ensures r.Ok? ==> nextArtifact in artifacts && artifacts[nextArtifact].node == n
      ensures r.Ok? ==> artifacts[nextArtifact].id == nextArtifact
      ensures r.Ok? ==> nodes[n] == ExecutedNode(old(nodes[n]), artifacts[nextArtifact])
      ensures r.Ok? ==> AttemptOf(artifacts[nextArtifact], old(agent.replies), old(workspace.answers))
      ensures ServesAttempt(old(registry.resources), old(agent.checks), old(agent.replies), old(workspace.answers)) ==>
        && r.Ok? && registry.resources == map[] && workspace.answers == Rest(Rest(old(workspace.answers)))
        && agent.replies == Rest(old(agent.replies)) && agent.checks == old(agent.checks) - 1
      ensures old(Failures()) <= Failures() && (r.Ok? <==> Failures() == old(Failures()))
      ensures r.Err? ==> r.error.External()
      ensures |agent.replies| <= old(|agent.replies|)
    {
      hide Good, Moved, TidyBut, HoldsFor, ServesAttempt, AttemptOf, AfterExecute;
      ghost var s0, l0 := Snapshot(), workspace.Account();
      var surface := Attempt(lo, n);
      if surface.Err? {
        return Err(surface.error);
      }
      ghost var s1, l1 := Snapshot(), workspace.Account();
      r := FinishExecute(lo, n, surface.value, nextArtifact);
      MovedOn(s0, l0, s1, l1, Snapshot(), workspace.Account(), n);
    }

    /** The second half of an execution: release the surface, clean up, and settle the node. */
    method FinishExecute(ghost lo: nat, n: NodeId, surface: Surface, a: ArtifactId) returns (r: Outcome<()>)
      requires Ready(lo, n) && nodes[n].status != New && nodes[n].executionAttempts < AttemptLimit(nodes[n])
      requires MayReopen(nodes[n])
      requires a in artifacts && artifacts[a].id == a && artifacts[a].node == n && artifacts[a].change.Some?
      modifies this`nodes, this`memo, this`events, registry, workspace
      ensures Ready(lo, n)
      ensures Moved(old(Snapshot()), old(workspace.Account()), Snapshot(), workspace.Account(), n)
      ensures r.Ok? ==> AfterExecute(old(nodes[n]), nodes[n])
      ensures r.Ok? && TidyBut(old(registry.resources), HoldsFor(Ids(surface.resources), [RunningNode(n)])) ==>
        Tidy(registry.resources)
      ensures r.Ok? ==> NothingReleasable(registry.resources)
      ensures r.Ok? ==> nodes[n] == ExecutedNode(old(nodes[n]), artifacts[a])
      ensures old(registry.resources) == map[] && surface.resources == [] ==>
        r.Ok? && registry.resources == map[] && workspace.answers == old(workspace.answers)
      ensures old(Failures()) <= Failures() && (r.Ok? <==> Failures() == old(Failures()))
      ensures r.Err? ==> r.error.External()
    {
      hide Good, Moved, TidyBut, HoldsFor;
      ghost var holds := HoldsFor(Ids(surface.resources), [RunningNode(n)]);
      ghost var s0, l0 := Snapshot(), workspace.Account();
      ReleaseFor(lo, n, Ids(surface.resources), RunningNode(n), holds);
      assert holds - holds == {};
      ghost var s1 := Snapshot();
      r := CleanupFor(lo, n);
      ghost var s2, l2 := Snapshot(), workspace.Account();
      MovedOn(s0, l0, s1, l0, s2, l2, n);
      if r.Err? {
        return;
      }
      SettleExecuted(lo, n, a);
      MovedOn(s0, l0, s2, l2, Snapshot(), l2, n);
      return Ok(());
    }

    method SettleExecuted(ghost lo: nat, n: NodeId, a: ArtifactId)
      requires Ready(lo, n) && nodes[n].status != New && nodes[n].executionAttempts < AttemptLimit(nodes[n])
      requires MayReopen(nodes[n])
      requires a in artifacts && artifacts[a].id == a && artifacts[a].node == n && artifacts[a].change.Some?
      modifies this`nodes, this`memo, this`events
      ensures Ready(lo, n)
      ensures Moved(old(Snapshot()), workspace.Account(), Snapshot(), workspace.Account(), n)
      ensures nodes[n] == ExecutedNode(old(nodes[n]), artifacts[a])
    {
      hide Good, Moved;
      var node := nodes[n];
      ExecutedGood(Snapshot(), workspace.Account(), lo, n, a);
      var attempted := node.(executionAttempts := node.executionAttempts + 1);
      if node.size == Tiny && artifacts[a].change.value.changedPaths == [] {
        Update(n, attempted);
        Commit(n, a);
      } else {
        Update(n, attempted.(candidate := Some(a), status := NodeStatus.Verifying));
      }
    }

    // ---- Verify, commit, retry ----

    method SetStatus(ghost lo: nat, n: NodeId, status: NodeStatus)
      requires Ready(lo, n) && nodes[n].status != New && MayReopen(nodes[n])
      requires status != New && status != NodeStatus.Committed
      modifies this`nodes
      ensures Ready(lo, n)
      ensures Moved(old(Snapshot()), workspace.Account(), Snapshot(), workspace.Account(), n)
      ensures nodes[n] == old(nodes[n]).(status := status)
    {
      hide Good, Moved;
      StatusGood(Snapshot(), workspace.Account(), lo, n, status);
      Update(n, nodes[n].(status := status));
    }

    method RecordFor(ghost lo: nat, n: NodeId, operation: NodeOperation)
      requires Ready(lo, n)
      modifies this`events
      ensures Ready(lo, n)
      ensures Moved(old(Snapshot()), workspace.Account(), Snapshot(), workspace.Account(), n)
      ensures Snapshot() == Recorded(old(Snapshot()), n, operation)
    {
      hide Good, Moved;
      EventGood(Snapshot(), workspace.Account(), lo, n, operation);
      Record(n, operation);
    }

    /** The verdict on an artifact of `n`. An artifact the agent gets to accept has already passed the
        deterministic checks, so it is safe. */
    method VerifyArtifact(ghost lo: nat, n: NodeId, a: ArtifactId) returns (r: Outcome<Verdict>)
      requires Ready(lo, n) && nodes[n].status != New && a in artifacts
      modifies this`nodes, this`events, this`runs, agent
      ensures Ready(lo, n)
      ensures Moved(old(Snapshot()), workspace.Account(), Snapshot(), workspace.Account(), n)
      ensures |runs| <= old(|runs|) + 1
      ensures nodes[n] == old(nodes[n]).(verificationAttempts := nodes[n].verificationAttempts)
      ensures r.Ok? ==> Judgement(old(nodes[n]), artifacts[a], old(agent.replies)) == Some(r.value)
      ensures
        match DeterministicVerdict(old(nodes[n]), artifacts[a])
        case Some(verdict) =>
          && r == Ok(verdict) && Snapshot() == old(Snapshot())
          && agent.replies == old(agent.replies) && agent.checks == old(agent.checks)
        case None =>
          && (r.Ok? <==> RunOutcome(NodeOperation.Verify, old(agent.checks), old(agent.replies)).Ok?)
          && (r.Ok? ==>
                && Heard(NodeOperation.Verify, old(agent.replies)) == Answer(Verified(r.value))
                && agent.replies == Rest(old(agent.replies)) && runs == old(runs) + [RunRecord(n, NodeOperation.Verify)]
                && nodes[n].verificationAttempts == old(nodes[n]).verificationAttempts + 1)
      ensures old(Failures()) <= Failures() && (r.Ok? <==> Failures() == old(Failures()))
      ensures r.Err? ==> r.error.External()
      ensures |agent.replies| <= old(|agent.replies|)
    {
      hide Good, Moved, DeterministicVerdict;
      ghost var s0, ledger := Snapshot(), workspace.Account();
      MovedNowhere(s0, ledger, n);
      var verdict := DeterministicVerdict(nodes[n], artifacts[a]);
      if verdict.Some? {
        return Ok(verdict.value);
      }
      var result := RunAgent(lo, n, NodeOperation.Verify);
      if result.Err? {
        return Err(result.error);
      }
      ghost var s1 := Snapshot();
      VerifiedGood(s1, ledger, lo, n);
      Update(n, nodes[n].(verificationAttempts := nodes[n].verificationAttempts + 1));
      MovedOn(s0, ledger, s1, ledger, Snapshot(), ledger, n);
      return Ok(result.value.verdict);
    }

    method VerifyAndMaybeCommit(ghost lo: nat, n: NodeId) returns (r: Outcome<Option<ArtifactId>>)
      requires Ready(lo, n) && nodes[n].status != New && nodes[n].candidate.Some? && MayReopen(nodes[n])
      modifies this`nodes, this`artifacts, this`memo, this`attempts, this`events, this`runs, this`nextArtifact
      modifies registry, workspace, agent
      ensures Ready(lo, n)
      ensures Moved(old(Snapshot()), old(workspace.Account()), Snapshot(), workspace.Account(), n)
      ensures |runs| <= old(|runs|) + 1 + 2 * old(RetriesLeft(nodes[n]))
      ensures r.Ok? ==> Settled(nodes[n], r.value)
      ensures r.Ok? && Tidy(old(registry.resources)) ==> Tidy(registry.resources)
      ensures r.Ok? ==> SameRoute(old(nodes[n]), nodes[n])
      ensures r.Ok? ==> old(nodes[n]).executionAttempts <= nodes[n].executionAttempts
      ensures r.Ok? && r.value == None ==> LeftOver(old(nodes[n]), nodes[n], artifacts)
      ensures old(Hopeless(n)) ==> EndsHopeless(old(nodes[n]), nodes[n], r)
      ensures r.Ok? ==>
        && old(nodes[n]).candidate.value in old(artifacts)
        && FollowsJudgement(
             old(Snapshot()), Snapshot(), n,
             Judgement(old(nodes[n]), old(artifacts)[old(nodes[n]).candidate.value], old(agent.replies)), r.value)
      ensures old(Failures()) <= Failures() && (r.Ok? <==> Failures() == old(Failures()))
      ensures r.Err? ==> r.error.External()
      ensures |agent.replies| <= old(|agent.replies|)
      decreases RetriesLeft(nodes[n]), 3
    {
      hide Good, Moved, TidyBut, Settled, DeterministicVerdict, LeftOver, BlanksFollow, Judgement, ActsOn,
           FollowsJudgement;
      ghost var s0, l0 := Snapshot(), workspace.Account();
      var a := nodes[n].candidate.value;
      CandidateExists(s0, l0, lo, n);
      var verdict := VerifyAndRecord(lo, n, a);
      if verdict.Err? {
        return Err(verdict.error);
      }
      ghost var s1 := Snapshot();
      r := ActOnVerdict(lo, n, a, verdict.value, s0.nodes[n]);
      LeftOverSame(s0.nodes[n], s1.nodes[n], nodes[n], artifacts);
      if r.Ok? {
        JudgementFollowed(s0, s1, Snapshot(), n, verdict.value, r.value);
      }
      MovedOn(s0, l0, s1, l0, Snapshot(), workspace.Account(), n);
    }

    /** The verdict, and its record under the node's key. */
    method VerifyAndRecord(ghost lo: nat, n: NodeId, a: ArtifactId) returns (r: Outcome<Verdict>)
      requires Ready(lo, n) && nodes[n].status != New && a in artifacts
      modifies this`nodes, this`attempts, this`events, this`runs, agent
      ensures Ready(lo, n)
      ensures Moved(old(Snapshot()), workspace.Account(), Snapshot(), workspace.Account(), n)
      ensures |runs| <= old(|runs|) + 1
      ensures nodes[n] == old(nodes[n]).(verificationAttempts := nodes[n].verificationAttempts)
      ensures r.Ok? ==> Judgement(old(nodes[n]), artifacts[a], old(agent.replies)) == Some(r.value)
      ensures r.Ok? && r.value.Accept? ==> DeterministicVerdict(old(nodes[n]), artifacts[a]).None?
      ensures r.Ok? ==>
        attempts == AttemptRecorded(old(Snapshot()), nodes[n].key,
                                    AttemptRecord(n, NodeOperation.Verify, Some(r.value))).attempts
      ensures artifacts[a].text == "" ==>
        r == Ok(Reject(IncompleteOutput)) && agent.replies == old(agent.replies) && agent.checks == old(agent.checks)
      ensures old(Failures()) <= Failures() && (r.Ok? <==> Failures() == old(Failures()))
      ensures r.Err? ==> r.error.External()
      ensures |agent.replies| <= old(|agent.replies|)
    {
      hide Good, Moved, DeterministicVerdict, Judgement, PathsSafe;
      DeterministicChecks(nodes[n], artifacts[a]);
      if artifacts[a].text == "" {
        BlankVerdict(nodes[n], artifacts[a]);
      }
      ghost var s0, ledger := Snapshot(), workspace.Account();
      r := VerifyArtifact(lo, n, a);
      if r.Err? {
        return;
      }
      ghost var s1 := Snapshot();
      AttemptGood(s1, ledger, lo, n, nodes[n].key, AttemptRecord(n, NodeOperation.Verify, Some(r.value)));
      RecordAttempt(n, NodeOperation.Verify, Some(r.value));
      MovedOn(s0, ledger, s1, ledger, Snapshot(), ledger, n);
    }

    /** Accepting commits; uncertainty and missing information wait for the user; any other rejection
        is handled by the retry rule. */
    method ActOnVerdict(ghost lo: nat, n: NodeId, a: ArtifactId, verdict: Verdict, ghost judged: ProblemNode)
      returns (r: Outcome<Option<ArtifactId>>)
      requires Ready(lo, n) && nodes[n].status != New && nodes[n].candidate == Some(a) && a in artifacts
      requires MayReopen(nodes[n])
      requires verdict.Accept? ==> DeterministicVerdict(judged, artifacts[a]).None?
      requires judged.allowWrite == nodes[n].allowWrite && judged.workspace == nodes[n].workspace
      modifies this`nodes, this`artifacts, this`memo, this`attempts, this`events, this`runs, this`nextArtifact
      modifies registry, workspace, agent
      ensures Ready(lo, n)
      ensures Moved(old(Snapshot()), old(workspace.Account()), Snapshot(), workspace.Account(), n)
      ensures |runs| <= old(|runs|) + 2 * old(RetriesLeft(nodes[n]))
      ensures r.Ok? ==> Settled(nodes[n], r.value)
      ensures r.Ok? && verdict.Accept? ==> r.value == Some(a)
      ensures r.Ok? && verdict in {Uncertain, Reject(MissingInfo), Reject(SpecAmbiguity)} ==>
        && r.value == None && nodes[n] == old(nodes[n]).(status := WaitingForInfo) && runs == old(runs)
        && events == old(events) + [OperationEvent(n, NodeOperation.Verify)]
      ensures r.Ok? ==> ActsOn(old(Snapshot()), Snapshot(), n, verdict, r.value)
      ensures r.Ok? && Tidy(old(registry.resources)) ==> Tidy(registry.resources)
      ensures r.Ok? ==> SameRoute(old(nodes[n]), nodes[n])
      ensures r.Ok? ==> old(nodes[n]).executionAttempts <= nodes[n].executionAttempts
      ensures r.Ok? && r.value == None ==> LeftOver(old(nodes[n]), nodes[n], artifacts)
      ensures old(Hopeless(n)) && verdict == Reject(IncompleteOutput) ==> EndsHopeless(old(nodes[n]), nodes[n], r)
      ensures old(Failures()) <= Failures() && (r.Ok? <==> Failures() == old(Failures()))
      ensures r.Err? ==> r.error.External()
      ensures |agent.replies| <= old(|agent.replies|)
      decreases RetriesLeft(nodes[n]), 2
    {
      hide Good, Moved, TidyBut, DeterministicVerdict, BlankCandidate, BlanksFollow, EndsHopeless;
      hide ActsOn, EndsByVerdict, AttemptsGrow;
      ghost var s, ledger := Snapshot(), workspace.Account();
      match verdict
      case Accept =>
        CommitCandidate(lo, n, a, judged);
        return Ok(Some(a));
      case Uncertain =>
        WaitForInfo(lo, n);
        ActsByWaiting(s, Snapshot(), n, verdict);
        return Ok(None);
      case Reject(failure) =>
        if failure == MissingInfo || failure == SpecAmbiguity {
          WaitForInfo(lo, n);
          ActsByWaiting(s, Snapshot(), n, verdict);
          return Ok(None);
        }
        r := HandleReject(lo, n, failure);
        if r.Ok? {
          MovedForward(s, ledger, Snapshot(), workspace.Account(), n);
          ActsByRejecting(s, Snapshot(), n, failure, r.value);
        }
    }

    method CommitCandidate(ghost lo: nat, n: NodeId, a: ArtifactId, ghost judged: ProblemNode)
      requires Ready(lo, n) && nodes[n].candidate == Some(a) && a in artifacts
      requires DeterministicVerdict(judged, artifacts[a]).None?
      requires judged.allowWrite == nodes[n].allowWrite && judged.workspace == nodes[n].workspace
      modifies this`nodes, this`memo, this`events
      ensures Ready(lo, n)
      ensures Moved(old(Snapshot()), workspace.Account(), Snapshot(), workspace.Account(), n)
      ensures nodes[n] == old(nodes[n]).(status := NodeStatus.Committed, accepted := Some(a))
      ensures memo == old(memo)[nodes[n].key := a] && events == old(events) + [OperationEvent(n, NodeOperation.Commit)]
      ensures ActsOn(old(Snapshot()), Snapshot(), n, Verdict.Accept, Some(a))
    {
      hide Good, Moved, DeterministicVerdict, ActsOn;
      AcceptGood(Snapshot(), workspace.Account(), lo, n, a, judged);
      ActsByCommit(Snapshot(), n, a);
      Commit(n, a);
    }

    method WaitForInfo(ghost lo: nat, n: NodeId)
      requires Ready(lo, n) && nodes[n].status != New && MayReopen(nodes[n])
      modifies this`nodes, this`events
      ensures Ready(lo, n)
      ensures Moved(old(Snapshot()), workspace.Account(), Snapshot(), workspace.Account(), n)
      ensures nodes[n] == old(nodes[n]).(status := WaitingForInfo)
      ensures events == old(events) + [OperationEvent(n, NodeOperation.Verify)]
    {
      hide Good, Moved;
      ghost var s0, ledger := Snapshot(), workspace.Account();
      RecordFor(lo, n, NodeOperation.Verify);
      ghost var s1 := Snapshot();
      SetStatus(lo, n, WaitingForInfo);
      MovedOn(s0, ledger, s1, ledger, Snapshot(), ledger, n);
    }

    /** A rejected candidate is final when it is unsafe, conflicts, or the budget is spent; otherwise
        the node executes again. The budget bounds the mutual recursion. */
    method HandleReject(ghost lo: nat, n: NodeId, failure: FailureClass) returns (r: Outcome<Option<ArtifactId>>)
      requires Ready(lo, n) && nodes[n].status != New && nodes[n].candidate.Some? && MayReopen(nodes[n])
      modifies this`nodes, this`artifacts, this`memo, this`attempts, this`events, this`runs, this`nextArtifact
      modifies registry, workspace, agent
      ensures Ready(lo, n)
      ensures Moved(old(Snapshot()), old(workspace.Account()), Snapshot(), workspace.Account(), n)
      ensures |runs| <= old(|runs|) + 2 * old(RetriesLeft(nodes[n]))
      ensures r.Ok? ==> Settled(nodes[n], r.value)
      ensures r.Ok? && Tidy(old(registry.resources)) ==> Tidy(registry.resources)
      ensures r.Ok? ==> SameRoute(old(nodes[n]), nodes[n])
      ensures r.Ok? ==> old(nodes[n]).executionAttempts <= nodes[n].executionAttempts
      ensures r.Ok? && (|| failure == UnsafeSideEffect || failure == MergeConflict
                        || old(nodes[n]).executionAttempts >= old(nodes[n]).maxAttempts) ==>
        && runs == old(runs) && events == old(events) + [OperationEvent(n, NodeOperation.Verify)]
        && attempts == old(attempts) && r.value == None
        && nodes[n] == old(nodes[n]).(status := if old(nodes[n]).executionAttempts >= old(nodes[n]).maxAttempts
                                                then Rejected else Pruned)
      ensures r.Ok? && !Terminal(old(nodes[n]), failure) ==>
        old(nodes[n]).executionAttempts < nodes[n].executionAttempts
      ensures r.Ok? && !Terminal(old(nodes[n]), failure) ==> EndsByVerdict(Snapshot(), n)
      ensures r.Ok? ==> AttemptsGrow(old(attempts), attempts, old(nodes[n]).key)
      ensures r.Ok? && r.value == None ==> LeftOver(old(nodes[n]), nodes[n], artifacts)
      ensures old(Hopeless(n)) && failure == IncompleteOutput ==> EndsHopeless(old(nodes[n]), nodes[n], r)
      ensures old(Failures()) <= Failures() && (r.Ok? <==> Failures() == old(Failures()))
      ensures r.Err? ==> r.error.External()
      ensures |agent.replies| <= old(|agent.replies|)
      decreases RetriesLeft(nodes[n]), 1
    {
      hide Good, Moved, TidyBut, BlankCandidate, BlanksFollow, EndsByVerdict;
      ghost var s0, l0 := Snapshot(), workspace.Account();
      var spent := OutOfBudget(nodes[n]);
      if failure == UnsafeSideEffect || failure == MergeConflict || spent {
        EndRejected(lo, n, if spent then Rejected else Pruned);
        return Ok(None);
      }
      r := Retry(lo, n);
    }

    /** One more attempt, and another verification. */
    method Retry(ghost lo: nat, n: NodeId) returns (r: Outcome<Option<ArtifactId>>)
      requires Ready(lo, n) && nodes[n].status != New && nodes[n].candidate.Some? && MayReopen(nodes[n])
      requires !OutOfBudget(nodes[n])
      modifies this`nodes, this`artifacts, this`memo, this`attempts, this`events, this`runs, this`nextArtifact
      modifies registry, workspace, agent
      ensures Ready(lo, n)
      ensures Moved(old(Snapshot()), old(workspace.Account()), Snapshot(), workspace.Account(), n)
      ensures |runs| <= old(|runs|) + 2 * old(RetriesLeft(nodes[n]))
      ensures r.Ok? ==> Settled(nodes[n], r.value)
      ensures r.Ok? && Tidy(old(registry.resources)) ==> Tidy(registry.resources)
      ensures r.Ok? ==> SameRoute(old(nodes[n]), nodes[n])
      ensures r.Ok? ==> old(nodes[n]).executionAttempts < nodes[n].executionAttempts
      ensures r.Ok? ==> EndsByVerdict(Snapshot(), n) && AttemptsGrow(old(attempts), attempts, old(nodes[n]).key)
      ensures r.Ok? ==> old(events) + [OperationEvent(n, NodeOperation.Execute)] <= events
      ensures r.Ok? && r.value == None ==> LeftOver(old(nodes[n]), nodes[n], artifacts)
      ensures old(Hopeless(n)) ==> EndsHopeless(old(nodes[n]), nodes[n], r)
      ensures old(Failures()) <= Failures() && (r.Ok? <==> Failures() == old(Failures()))
      ensures r.Err? ==> r.error.External()
      ensures |agent.replies| <= old(|agent.replies|)
      decreases RetriesLeft(nodes[n]), 0
    {
      hide Good, Moved, TidyBut, LeftOver, BlanksFollow, BlankCandidate, EndsHopeless, ExecutedNode, MayReopen;
      hide FollowsJudgement, EndsByVerdict, Judgement, AttemptsGrow, Settled, SameRoute;
      ghost var s0, l0 := Snapshot(), workspace.Account();
      var executed := ExecuteAgain(lo, n);
      if executed.Err? {
        return Err(executed.error);
      }
      ghost var s1, l1 := Snapshot(), workspace.Account();
      r := VerifyAndMaybeCommit(lo, n);
      ghost var t, to := Snapshot(), workspace.Account();
      MovedForward(s1, l1, t, to, n);
      EndsHopelessAfter(s0.nodes[n], s1.nodes[n], nodes[n], r);
      MovedOn(s0, l0, s1, l1, t, to, n);
      if r.Ok? {
        SameRouteOn(s0.nodes[n], s1.nodes[n], t.nodes[n]);
        JudgementGrows(s1, t, n);
        if r.value == None {
          LeftOverAfterRetry(s0.nodes[n], s1, l1, t, to, n);
        }
      }
    }

    /** The attempt of a retry. */
    method ExecuteAgain(ghost lo: nat, n: NodeId) returns (r: Outcome<()>)
      requires Ready(lo, n) && nodes[n].status != New && nodes[n].candidate.Some? && MayReopen(nodes[n])
      requires !OutOfBudget(nodes[n])
      modifies this`nodes, this`artifacts, this`memo, this`events, this`runs, this`nextArtifact
      modifies registry, workspace, agent
      ensures Ready(lo, n)
      ensures Moved(old(Snapshot()), old(workspace.Account()), Snapshot(), workspace.Account(), n)
      ensures |runs| <= old(|runs|) + 1
      ensures r.Ok? ==>
        && nodes[n].status != New && nodes[n].candidate.Some? && MayReopen(nodes[n])
        && nodes[n].executionAttempts == old(nodes[n]).executionAttempts + 1
        && nodes[n].maxAttempts == old(nodes[n]).maxAttempts && nodes[n].key == old(nodes[n]).key
        && SameRoute(old(nodes[n]), nodes[n])
      ensures r.Ok? ==>
        && nextArtifact in artifacts && artifacts[nextArtifact].id == nextArtifact
        && nodes[n] == ExecutedNode(old(nodes[n]), artifacts[nextArtifact])
      ensures r.Ok? && Tidy(old(registry.resources)) ==> Tidy(registry.resources)
      ensures old(events) + [OperationEvent(n, NodeOperation.Execute)] <= events
      ensures old(Hopeless(n)) ==> r.Ok? && Hopeless(n) && nodes[n].accepted.Some?
      ensures old(Failures()) <= Failures() && (r.Ok? <==> Failures() == old(Failures()))
      ensures r.Err? ==> r.error.External()
      ensures |agent.replies| <= old(|agent.replies|)
    {
      hide Good, Moved, TidyBut, BlanksFollow, BlankCandidate, ServesAttempt, AttemptOf, AfterExecute, ExecutedNode;
      hide Shaped, MayReopen;
      ghost var s0, l0 := Snapshot(), workspace.Account();
      GoodShaped(s0, l0, lo, n);
      RecordFor(lo, n, NodeOperation.Execute);
      ghost var s1, replies, answers := Snapshot(), agent.replies, workspace.answers;
      ghost var hopeless := Hopeless(n);
      if hopeless {
        NextBlank(RetriesLeft(nodes[n]), registry.resources, agent.checks, replies, answers);
      }
      r := ExecuteNode(lo, n);
      ghost var s2, l2 := Snapshot(), workspace.Account();
      MovedOn(s0, l0, s1, l0, s2, l2, n);
      MovedForward(s1, l0, s2, l2, n);
      if r.Err? {
        return;
      }
      RetryReopens(s1.nodes[n], nodes[n], artifacts[nextArtifact]);
      if hopeless {
        BlankRetried(s1, l0, s2, l2, n, replies, answers);
      }
    }

    method EndRejected(ghost lo: nat, n: NodeId, status: NodeStatus)
      requires Ready(lo, n) && nodes[n].status != New && MayReopen(nodes[n])
      requires status == Rejected || status == Pruned
      modifies this`nodes, this`events
      ensures Ready(lo, n)
      ensures Moved(old(Snapshot()), workspace.Account(), Snapshot(), workspace.Account(), n)
      ensures nodes[n] == old(nodes[n]).(status := status)
      ensures events == old(events) + [OperationEvent(n, NodeOperation.Verify)]
    {
      hide Good, Moved;
      ghost var s0, ledger := Snapshot(), workspace.Account();
      RecordFor(lo, n, NodeOperation.Verify);
      ghost var s1 := Snapshot();
      SetStatus(lo, n, status);
      MovedOn(s0, ledger, s1, ledger, Snapshot(), ledger, n);
    }

    /** The accepted artifacts of the children, in order, and the changes they carry. */
    method GatherChildren(ghost lo: nat, n: NodeId) returns (inputs: seq<ArtifactId>, changes: seq<Change>)
      requires Ready(lo, n) && ChildrenAccepted(nodes, n)
      ensures |inputs| == |nodes[n].children| && changes == ChangesOf(artifacts, inputs)
      ensures forall k :: 0 <= k < |inputs| ==>
                nodes[nodes[n].children[k]].accepted == Some(inputs[k]) && inputs[k] in artifacts
    {
      hide Good;
      ChildInputsExist(Snapshot(), workspace.Account(), lo, n);
      inputs, changes := [], [];
      var children := nodes[n].children;
      for i := 0 to |children|
        invariant |inputs| == i && changes == ChangesOf(artifacts, inputs)
        invariant forall k :: 0 <= k < i ==> nodes[children[k]].accepted == Some(inputs[k]) && inputs[k] in artifacts
      {
        var a := nodes[children[i]].accepted.value;
        OneMoreInput(artifacts, inputs, a);
        inputs := inputs + [a];
        if artifacts[a].change.Some? {
          changes := changes + [artifacts[a].change.value];
        }
      }
    }

    method HoldChildInputs(ghost lo: nat, n: NodeId, changes: seq<Change>)
      requires Ready(lo, n)
      modifies registry
      ensures Ready(lo, n)
      ensures Moved(old(Snapshot()), workspace.Account(), Snapshot(), workspace.Account(), n)
      ensures Tidy(old(registry.resources)) ==>
        TidyBut(registry.resources, HoldsFor(AllIds(changes), [ChildInputForCombine(n)]))
      ensures registry.resources.Keys == old(registry.resources).Keys
      ensures forall id :: id in AllIds(changes) && id in registry.resources ==>
        ChildInputForCombine(n) in registry.resources[id].refs
    {
      hide Good, Moved, TidyBut, HoldsFor;
      ghost var s, ledger := Snapshot(), workspace.Account();
      MovedNowhere(s, ledger, n);
      NoIds(changes[..0], ChildInputForCombine(n));
      for i := 0 to |changes|
        invariant Ready(lo, n) && Moved(s, ledger, Snapshot(), ledger, n)
        invariant Tidy(s.resources) ==>
          TidyBut(registry.resources, HoldsFor(AllIds(changes[..i]), [ChildInputForCombine(n)]))
        invariant registry.resources.Keys == s.resources.Keys
        invariant forall id :: id in AllIds(changes[..i]) && id in registry.resources ==>
          ChildInputForCombine(n) in registry.resources[id].refs
      {
        ghost var s1 := Snapshot();
        OneMoreChange(changes, i, ChildInputForCombine(n));
        RetainGood(s1, ledger, lo, n, changes[i].resourceIds, ChildInputForCombine(n),
                   HoldsFor(AllIds(changes[..i]), [ChildInputForCombine(n)]));
        RetainChangeResources(changes[i], ChildInputForCombine(n));
        assert Snapshot() == s1.(resources := registry.resources);
        MovedOn(s, ledger, s1, ledger, Snapshot(), ledger, n);
      }
      assert changes[..|changes|] == changes;
    }

    method ReleaseChildInputs(ghost lo: nat, n: NodeId, changes: seq<Change>, ghost extra: set<Hold>)
      requires Ready(lo, n)
      modifies registry
      ensures Ready(lo, n)
      ensures Moved(old(Snapshot()), workspace.Account(), Snapshot(), workspace.Account(), n)
      ensures TidyBut(old(registry.resources), extra) ==>
        TidyBut(registry.resources, extra - HoldsFor(AllIds(changes), [ChildInputForCombine(n)]))
    {
      hide Good, Moved, TidyBut, HoldsFor;
      ghost var s, ledger := Snapshot(), workspace.Account();
      MovedNowhere(s, ledger, n);
      NoIds(changes[..0], ChildInputForCombine(n));
      assert extra - {} == extra;
      for i := 0 to |changes|
        invariant Ready(lo, n) && Moved(s, ledger, Snapshot(), ledger, n)
        invariant TidyBut(s.resources, extra) ==>
          TidyBut(registry.resources, extra - HoldsFor(AllIds(changes[..i]), [ChildInputForCombine(n)]))
      {
        ghost var s1 := Snapshot();
        OneMoreChange(changes, i, ChildInputForCombine(n));
        ghost var left := extra - HoldsFor(AllIds(changes[..i]), [ChildInputForCombine(n)]);
        ReleaseFor(lo, n, changes[i].resourceIds, ChildInputForCombine(n), left);
        TakenAway(extra, HoldsFor(AllIds(changes[..i]), [ChildInputForCombine(n)]),
                  HoldsFor(changes[i].resourceIds, [ChildInputForCombine(n)]));
        MovedOn(s, ledger, s1, ledger, Snapshot(), ledger, n);
      }
      assert changes[..|changes|] == changes;
    }

    method OpenMergeSurface(ghost lo: nat, n: NodeId, changes: seq<Change>) returns (r: Outcome<Surface>)
      requires Ready(lo, n)
      modifies registry, workspace
      ensures Ready(lo, n)
      ensures Moved(old(Snapshot()), old(workspace.Account()), Snapshot(), workspace.Account(), n)
      ensures r.Ok? ==> Tracks(r.value, MergeSurface(n))
      ensures r.Ok? && Tidy(old(registry.resources)) ==>
        TidyBut(registry.resources, CombineHolds(n, changes, r.value))
      ensures r.Ok? ==>
        forall id :: id in AllIds(changes) && id in registry.resources && id in old(registry.resources) ==>
          ChildInputForCombine(n) in registry.resources[id].refs
      ensures r.Ok? ==> workspace.merges == old(workspace.merges) + [changes]
      ensures workspace.answers == Rest(old(workspace.answers))
      ensures old(Failures()) <= Failures() && (r.Ok? <==> Failures() == old(Failures()))
      ensures r.Err? ==> r.error.External()
    {
      hide Good, Moved, TidyBut, HoldsFor, Fresh;
      ghost var s0, l0 := Snapshot(), workspace.Account();
      HoldChildInputs(lo, n, changes);
      ghost var s1 := Snapshot();
      r := workspace.MergeChanges(changes, [MergeSurface(n)]);
      IssuedMore(s1, l0, lo, n, workspace.issued);
      MovedOn(s0, l0, s1, l0, Snapshot(), workspace.Account(), n);
      if r.Err? {
        return;
      }
      GoodRange(s1, l0, lo, n);
      TrackFor(lo, n, r.value.resources, [MergeSurface(n)], l0.issued,
               HoldsFor(AllIds(changes), [ChildInputForCombine(n)]));
      MovedOn(s0, l0, s1, l0, Snapshot(), workspace.Account(), n);
    }

    /** Combines the accepted work of all children into a candidate of the parent. */
    method CombineChildren(ghost lo: nat, n: NodeId) returns (r: Outcome<()>)
      requires Ready(lo, n) && nodes[n].status == Planned && nodes[n].size != Tiny && ChildrenAccepted(nodes, n)
      modifies this`nodes, this`artifacts, this`events, this`runs, this`nextArtifact, registry, workspace, agent
      ensures Ready(lo, n)
      ensures Moved(old(Snapshot()), old(workspace.Account()), Snapshot(), workspace.Account(), n)
      ensures |runs| <= old(|runs|) + 1
      ensures r.Ok? ==>
        && nodes[n].candidate.Some? && nodes[n].candidate.value in artifacts
        && nodes[n] == old(nodes[n]).(candidate := nodes[n].candidate, status := NodeStatus.Verifying)
        && CombinesAll(old(nodes), n, artifacts[nodes[n].candidate.value])
      ensures r.Ok? && Tidy(old(registry.resources)) ==> Tidy(registry.resources)
      ensures r.Ok? ==> NothingReleasable(registry.resources)
      ensures r.Ok? ==>
        workspace.merges ==
          old(workspace.merges) + [ChangesOf(old(artifacts), artifacts[nodes[n].candidate.value].children)]
      ensures r.Ok? ==>
        CombinationOf(artifacts[nodes[n].candidate.value], old(agent.replies), old(workspace.answers))
      ensures r.Ok? ==> runs == old(runs) + [RunRecord(n, NodeOperation.Combine)]
      ensures old(Failures()) <= Failures() && (r.Ok? <==> Failures() == old(Failures()))
      ensures r.Err? ==> r.error.External()
      ensures |agent.replies| <= old(|agent.replies|)
    {
      hide Good, Moved, TidyBut, CombineHolds, Tracks;
      ghost var s0, l0 := Snapshot(), workspace.Account();
      var inputs, changes := GatherChildren(lo, n);
      var surface := OpenMergeSurface(lo, n, changes);
      if surface.Err? {
        return Err(surface.error);
      }
      ghost var s1, l1 := Snapshot(), workspace.Account();
      var result := RunAgent(lo, n, NodeOperation.Combine);
      MovedOn(s0, l0, s1, l1, Snapshot(), l1, n);
      if result.Err? {
        return Err(result.error);
      }
      ghost var s2 := Snapshot();
      var id := CaptureArtifact(lo, n, surface.value, result.value.text, inputs, MergeSurface(n),
                                CombineHolds(n, changes, surface.value));
      MovedOn(s0, l0, s2, l1, Snapshot(), workspace.Account(), n);
      if id.Err? {
        return Err(id.error);
      }
      ghost var s3, l3 := Snapshot(), workspace.Account();
      r := FinishCombine(lo, n, surface.value, changes, id.value);
      MovedOn(s0, l0, s3, l3, Snapshot(), workspace.Account(), n);
    }

    method FinishCombine(ghost lo: nat, n: NodeId, surface: Surface, changes: seq<Change>,
                         a: ArtifactId)
      returns (r: Outcome<()>)
      requires Ready(lo, n) && nodes[n].status == Planned && nodes[n].size != Tiny
      requires a in artifacts && artifacts[a].node == n
      modifies this`nodes, registry, workspace
      ensures Ready(lo, n)
      ensures Moved(old(Snapshot()), old(workspace.Account()), Snapshot(), workspace.Account(), n)
      ensures r.Ok? ==> nodes[n] == old(nodes[n]).(candidate := Some(a), status := NodeStatus.Verifying)
      ensures r.Ok? && TidyBut(old(registry.resources), CombineHolds(n, changes, surface)) ==> Tidy(registry.resources)
      ensures r.Ok? ==> NothingReleasable(registry.resources)
      ensures workspace.merges == old(workspace.merges)
      ensures old(Failures()) <= Failures() && (r.Ok? <==> Failures() == old(Failures()))
      ensures r.Err? ==> r.error.External()
    {
      hide Good, Moved, TidyBut, HoldsFor;
      ghost var s0, l0 := Snapshot(), workspace.Account();
      ReleaseFor(lo, n, Ids(surface.resources), MergeSurface(n), CombineHolds(n, changes, surface));
      ghost var s1 := Snapshot();
      ReleaseChildInputs(lo, n, changes,
                         CombineHolds(n, changes, surface) - HoldsFor(Ids(surface.resources), [MergeSurface(n)]));
      NothingLeft(HoldsFor(AllIds(changes), [ChildInputForCombine(n)]),
                  HoldsFor(Ids(surface.resources), [MergeSurface(n)]));
      ghost var s2 := Snapshot();
      MovedOn(s0, l0, s1, l0, s2, l0, n);
      r := CleanupFor(lo, n);
      ghost var s3, l3 := Snapshot(), workspace.Account();
      MovedOn(s0, l0, s2, l0, s3, l3, n);
      if r.Err? {
        return;
      }
      CombinedGood(s3, l3, lo, n, a);
      Update(n, nodes[n].(candidate := Some(a), status := NodeStatus.Verifying));
      MovedOn(s0, l0, s3, l3, Snapshot(), l3, n);
      return Ok(());
    }

    // ---- Planning ----

    method ShouldPlan(n: NodeId) returns (plans: bool)
      requires n in nodes
      ensures plans <==> nodes[n].plan != ExecutePlan && nodes[n].children == []
    {
      plans := (nodes[n].plan.NeedsPlanning? || nodes[n].plan.Group?) && nodes[n].children == [];
    }

    /** Planning adopts exactly the agent's plan and creates one untouched child per planned item, in
        order, each inheriting from the parent; an invalid plan or a widened scope is a protocol error. */
    method PlanChildren(ghost lo: nat, n: NodeId) returns (r: Outcome<()>)
      requires Ready(lo, n) && nodes[n].status == NodeStatus.Specified && nodes[n].children == []
      modifies this`nodes, this`nextNode, this`events, this`runs, agent
      ensures Ready(lo, n)
      ensures Moved(old(Snapshot()), workspace.Account(), Snapshot(), workspace.Account(), n)
      ensures |runs| <= old(|runs|) + 1
      ensures r.Ok? ==> PlannedFrom(old(nodes[n]), n, old(nextNode) + 1, Snapshot())
      ensures r.Ok? ==> Heard(NodeOperation.Plan, old(agent.replies)) == Answer(PlannedAs(nodes[n].plan.group))
      ensures r.Ok? ==> Grouped(Snapshot(), n) && agent.replies == Rest(old(agent.replies))
      ensures r.Ok? <==>
        && RunOutcome(NodeOperation.Plan, old(agent.checks), old(agent.replies)).Ok?
        && PlanFits(old(nodes[n]), RunOutcome(NodeOperation.Plan, old(agent.checks), old(agent.replies)).value)
      ensures r.Ok? ==> runs == old(runs) + [RunRecord(n, NodeOperation.Plan)]
      ensures old(Failures()) <= Failures() && (r.Ok? <==> Failures() == old(Failures()))
      ensures r.Err? ==> r.error.External()
      ensures |agent.replies| <= old(|agent.replies|)
    {
      hide Good, Moved, FreshChildren, PlannedFrom, Grouped;
      ghost var s0, ledger := Snapshot(), workspace.Account();
      var result := RunAgent(lo, n, NodeOperation.Plan);
      if result.Err? {
        return Err(result.error);
      }
      ghost var s1 := Snapshot();
      if result.value.InvalidPlan? {
        RecordFor(lo, n, NodeOperation.Plan);
        MovedOn(s0, ledger, s1, ledger, Snapshot(), ledger, n);
        return Err(AgentProtocol);
      }
      r := AdoptPlan(lo, n, result.value.group);
      MovedOn(s0, ledger, s1, ledger, Snapshot(), ledger, n);
    }

    method AdoptPlan(ghost lo: nat, n: NodeId, group: PlanGroup) returns (r: Outcome<()>)
      requires Ready(lo, n) && nodes[n].status == NodeStatus.Specified && nodes[n].children == []
      modifies this`nodes, this`nextNode, agent`failures
      ensures Ready(lo, n)
      ensures Moved(old(Snapshot()), workspace.Account(), Snapshot(), workspace.Account(), n)
      ensures r.Ok? ==> PlannedFrom(old(nodes[n]), n, old(nextNode) + 1, Snapshot())
      ensures r.Ok? ==> nodes[n].plan == Group(group) && Grouped(Snapshot(), n)
      ensures r.Ok? <==> Inheritable(old(nodes[n]), group.items)
      ensures old(Failures()) <= Failures() && (r.Ok? <==> Failures() == old(Failures()))
      ensures r.Err? ==> r.error.External()
    {
      hide Good, Moved, FreshChildren, PlannedFrom, InsertedFrom, Grouped, Inheritable;
      ghost var s0, ledger := Snapshot(), workspace.Account();
      PlanSetGood(s0, ledger, lo, n, group);
      InheritableAlike(nodes[n], nodes[n].(plan := Group(group)), group.items);
      Update(n, nodes[n].(plan := Group(group)));
      ghost var s1 := Snapshot();
      var ids := InsertPlanned(lo, n, group.items);
      ghost var s2 := Snapshot();
      MovedOn(s0, ledger, s1, ledger, s2, ledger, n);
      if ids.Err? {
        return Err(ids.error);
      }
      ParentId(s0, ledger, lo, n);
      AdoptedGrouped(s2, n, s0.nextNode + 1, group.items);
      AdoptGood(s2, ledger, lo, n, s0.nextNode + 1);
      Update(n, nodes[n].(children := ids.value, status := Planned));
      assert Snapshot() == Adopted(s2, n, s0.nextNode + 1);
      MovedOn(s0, ledger, s2, ledger, Snapshot(), ledger, n);
      PlannedIs(s0.nodes[n], n, s0.nextNode + 1, s2, group);
      return Ok(());
    }

    method InsertPlanned(ghost lo: nat, n: NodeId, items: seq<NodeTemplate>) returns (r: Outcome<seq<NodeId>>)
      requires Ready(lo, n) && nodes[n].plan.Group? && items == nodes[n].plan.group.items
      modifies this`nodes, this`nextNode, agent`failures
      ensures Ready(lo, n)
      ensures Moved(old(Snapshot()), workspace.Account(), Snapshot(), workspace.Account(), n)
      ensures nodes[n] == old(nodes[n]) && old(nextNode) <= nextNode
      ensures r.Ok? ==> nextNode == old(nextNode) + |items| && r.value == Range(old(nextNode) + 1, nextNode)
      ensures r.Ok? ==> FreshChildren(Snapshot(), n, old(nextNode) + 1)
      ensures r.Ok? ==> InsertedFrom(nodes[n], items, old(nextNode) + 1, nodes)
      ensures r.Ok? <==> Inheritable(old(nodes[n]), items)
      ensures old(Failures()) <= Failures() && (r.Ok? <==> Failures() == old(Failures()))
      ensures r.Err? ==> r.error.External()
    {
      hide Good, Moved, Inherits, FreshChildren, InheritChildDefaults, InsertedFrom, InsertedAs, NewNode;
      hide TakesScope, PassesGate;
      ghost var s0, ledger := Snapshot(), workspace.Account();
      MovedNowhere(s0, ledger, n);
      NoChildrenYet(s0, ledger, lo, n);
      var parent := nodes[n];
      var ids: seq<NodeId> := [];
      InsertedNothing(parent, items[..0], nextNode + 1, nodes);
      for i := 0 to |items|
        invariant Ready(lo, n) && Moved(s0, ledger, Snapshot(), ledger, n)
        invariant nodes[n] == parent && nextNode == s0.nextNode + i
        invariant FreshChildren(Snapshot(), n, s0.nextNode + 1)
        invariant ids == Range(s0.nextNode + 1, nextNode)
        invariant InsertedFrom(parent, items[..i], s0.nextNode + 1, nodes)
        invariant Failures() == old(Failures())
        invariant forall k :: 0 <= k < i ==> InheritChildDefaults(parent, items[k]).Ok?
      {
        var template := InheritChildDefaults(parent, items[i]);
        InheritedChild(parent, items[i], nextNode + 1);
        if template.Err? {
          agent.Refuse(parent, parent.plan.group);
          return Err(template.error);
        }
        ghost var s1 := Snapshot();
        ParentId(s1, ledger, lo, n);
        var id := InsertChildNode(lo, n, template.value, s0.nextNode + 1);
        ids := ids + [id];
        MovedOn(s0, ledger, s1, ledger, Snapshot(), ledger, n);
        InsertedHere(parent, items[i], id, s1.nodes);
        InsertedOneMore(parent, items, i, s0.nextNode + 1, s1.nodes, NewNode(id, Some(n), template.value));
      }
      assert items[..|items|] == items;
      return Ok(ids);
    }

    method InsertChildNode(ghost lo: nat, n: NodeId, template: NodeTemplate, ghost first: NodeId)
      returns (id: NodeId)
      requires Ready(lo, n) && first <= nextNode + 1 && FreshChildren(Snapshot(), n, first)
      requires Inherits(NewNode(nextNode + 1, Some(n), template), nodes[n])
      modifies this`nodes, this`nextNode
      ensures Ready(lo, n) && FreshChildren(Snapshot(), n, first)
      ensures Moved(old(Snapshot()), workspace.Account(), Snapshot(), workspace.Account(), n)
      ensures id == nextNode == old(nextNode) + 1 && nodes == old(nodes)[id := NewNode(id, Some(n), template)]
    {
      hide Good, Moved, Inherits, FreshChildren, NewNode;
      InsertGood(Snapshot(), workspace.Account(), lo, n, template);
      InsertFresh(Snapshot(), workspace.Account(), lo, n, first, template);
      id := InsertNode(Some(n), template);
    }

    // ---- Parallel branches ----

    /** Renumbers a finished branch and takes over everything it holds. For a well-formed branch this
        never fails and yields exactly the merged engine. */
    method MergeParallelBranch(ghost lo: nat, c: NodeId, branch: Engine, ghost ledger: Ledger) returns (r: Outcome<()>)
      requires branch != this && branch.registry != registry
      modifies this, registry, branch.registry
      ensures MergeReady(old(Snapshot()), lo, c, old(branch.Snapshot()), ledger) ==>
        r == Ok(()) && Snapshot() == Merged(old(Snapshot()), c, old(branch.Snapshot()))
    {
      hide MergeReady, Mergeable, Merged, NodesOf, ArtifactsOf, RemapResource;
      ghost var s, b := Snapshot(), branch.Snapshot();
      var nodeMap, lastNode, artifactMap, lastArtifact := NumberBranch(lo, c, branch, ledger);
      if MergeReady(s, lo, c, b, ledger) {
        MergeReadyIs(s, lo, c, b, ledger);
        BranchResources(s, lo, c, b, ledger);
      }
      nextNode, nextArtifact := lastNode, lastArtifact;
      TrackBranch(registry, branch.registry, nodeMap, artifactMap);
      r := InsertBranch(lo, c, branch.artifacts, branch.nodes, nodeMap, artifactMap, s, b, ledger);
      if r.Err? {
        return;
      }
      r := AppendBranch(lo, c, branch, nodeMap, artifactMap, s, b, ledger);
    }

    /** Hands out the branch's new ids in ascending order; the branch root keeps its own. */
    method NumberBranch(ghost lo: nat, c: NodeId, branch: Engine, ghost ledger: Ledger)
      returns (nodeMap: IdMap, lastNode: NodeId, artifactMap: IdMap, lastArtifact: ArtifactId)
      ensures MergeReady(Snapshot(), lo, c, branch.Snapshot(), ledger) ==>
        && c <= nextNode && c <= branch.nextNode
        && nodeMap == NodesOf(Snapshot(), c, branch.Snapshot())
        && artifactMap == ArtifactsOf(Snapshot(), branch.Snapshot())
        && lastNode == Merged(Snapshot(), c, branch.Snapshot()).nextNode
        && lastArtifact == Merged(Snapshot(), c, branch.Snapshot()).nextArtifact
    {
      hide MergeReady, Mergeable, Merged, NodesOf, ArtifactsOf;
      ghost var s, b := Snapshot(), branch.Snapshot();
      var nodeIds := SortIds(branch.nodes.Keys);
      nodeMap, lastNode := NumberNodes(nodeIds, c, nextNode, branch.nextNode);
      var artifactIds := SortIds(branch.artifacts.Keys);
      artifactMap, lastArtifact := NumberArtifacts(artifactIds, nextArtifact, branch.nextArtifact);
      if MergeReady(s, lo, c, b, ledger) {
        MergeReadyMaps(s, lo, c, b, ledger, nodeIds, nodeMap, lastNode, artifactIds, artifactMap, lastArtifact);
        MergeReadyIs(s, lo, c, b, ledger);
        MergeableParts(s, lo, c, b);
      }
    }

    method InsertBranch(ghost lo: nat, ghost c: NodeId, branchArtifacts: map<ArtifactId, Artifact>,
                        branchNodes: map<NodeId, ProblemNode>,
                        nodeMap: IdMap, artifactMap: IdMap, ghost s: State, ghost b: State, ghost ledger: Ledger)
      returns (r: Outcome<()>)
      requires artifacts == s.artifacts && nodes == s.nodes && branchArtifacts == b.artifacts && branchNodes == b.nodes
      modifies this`nodes, this`artifacts
      ensures MergeReady(s, lo, c, b, ledger) && nodeMap == NodesOf(s, c, b) && artifactMap == ArtifactsOf(s, b) ==>
        r == Ok(()) && nodes == Merged(s, c, b).nodes && artifacts == Merged(s, c, b).artifacts
    {
      hide MergeReady, Mergeable, Merged, NodesOf, ArtifactsOf, PlacedIn, Total, RemapNode, RemapArtifact;
      var remapArtifact := (artifact: Artifact) => RemapArtifact(artifact, nodeMap, artifactMap);
      var artifactId := (artifact: Artifact) => artifact.id;
      var remapNode := (node: ProblemNode) => RemapNode(node, nodeMap, artifactMap);
      var nodeId := (node: ProblemNode) => node.id;
      if MergeReady(s, lo, c, b, ledger) && nodeMap == NodesOf(s, c, b) && artifactMap == ArtifactsOf(s, b) {
        MergeReadyIs(s, lo, c, b, ledger);
        BranchArtifactsPlaced(s, lo, c, b, remapArtifact, artifactId);
        BranchNodesPlaced(s, lo, c, b, remapNode, nodeId);
      }
      var moved := InsertRemapped(artifacts, branchArtifacts, remapArtifact, artifactId);
      if moved.Err? {
        return Err(moved.error);
      }
      artifacts := moved.value;
      var movedNodes := InsertRemapped(nodes, branchNodes, remapNode, nodeId);
      if movedNodes.Err? {
        return Err(movedNodes.error);
      }
      nodes := movedNodes.value;
      return Ok(());
    }

    method AppendBranch(ghost lo: nat, ghost c: NodeId, branch: Engine, nodeMap: IdMap, artifactMap: IdMap,
                        ghost s: State, ghost b: State, ghost ledger: Ledger)
      returns (r: Outcome<()>)
      requires branch != this
      requires events == s.events && runs == s.runs && attempts == s.attempts && memo == s.memo
      requires branch.events == b.events && branch.runs == b.runs && branch.attempts == b.attempts
      requires branch.memo == b.memo
      modifies this`events, this`runs, this`attempts, this`memo
      ensures MergeReady(s, lo, c, b, ledger) && nodeMap == NodesOf(s, c, b) && artifactMap == ArtifactsOf(s, b) ==>
        && r == Ok(()) && events == Merged(s, c, b).events && runs == Merged(s, c, b).runs
        && attempts == Merged(s, c, b).attempts && memo == Merged(s, c, b).memo
    {
      hide MergeReady, Mergeable, Merged, NodesOf, ArtifactsOf, ExtendedSoFar, AttemptsMapped, RenameEvents, RenameRuns;
      if MergeReady(s, lo, c, b, ledger) && nodeMap == NodesOf(s, c, b) && artifactMap == ArtifactsOf(s, b) {
        MergeReadyIs(s, lo, c, b, ledger);
        BranchLogs(s, lo, c, b);
      }
      var newEvents := AppendEvents(events, branch.events, nodeMap);
      if newEvents.Err? {
        return Err(newEvents.error);
      }
      events := newEvents.value;
      var newRuns := AppendRuns(runs, branch.runs, nodeMap);
      if newRuns.Err? {
        return Err(newRuns.error);
      }
      runs := newRuns.value;
      var newAttempts := ExtendAttempts(attempts, branch.attempts, nodeMap);
      if newAttempts.Err? {
        return Err(newAttempts.error);
      }
      attempts := newAttempts.value;
      var newMemo := MergeMemo(memo, branch.memo, artifactMap);
      if newMemo.Err? {
        return Err(newMemo.error);
      }
      memo := newMemo.value;
      return Ok(());
    }

    // ---- Resolving a node ----

    /** A parent whose children did not all deliver waits if some child waits, and is pruned otherwise. */
    method MarkParentBlocked(ghost lo: nat, n: NodeId)
      requires Ready(lo, n) && nodes[n].status == Planned
      requires forall k :: 0 <= k < |nodes[n].children| ==> nodes[n].children[k] in nodes
      modifies this`nodes, this`events
      ensures Ready(lo, n)
      ensures Moved(old(Snapshot()), workspace.Account(), Snapshot(), workspace.Account(), n)
      ensures nodes[n] == old(nodes[n]).(status := BlockedStatus(old(nodes), n))
      ensures nodes[n].status == if SomeChildWaits(old(nodes), nodes[n].children) then WaitingForInfo else Pruned
      ensures events == old(events) + [OperationEvent(n, NodeOperation.Combine)]
    {
      hide Good, Moved, SomeChildWaits;
      GoodShaped(Snapshot(), workspace.Account(), lo, n);
      WaitsIfBlocked(nodes, n);
      var children := nodes[n].children;
      var waiting := false;
      for i := 0 to |children|
        invariant waiting <==> exists k :: 0 <= k < i && nodes[children[k]].status == WaitingForInfo
      {
        waiting := waiting || nodes[children[i]].status == WaitingForInfo;
      }
      ghost var s0, ledger := Snapshot(), workspace.Account();
      RecordFor(lo, n, NodeOperation.Combine);
      ghost var s1 := Snapshot();
      SetStatus(lo, n, if waiting then WaitingForInfo else Pruned);
      MovedOn(s0, ledger, s1, ledger, Snapshot(), ledger, n);
    }

    /** Blocking changes nothing about the children. */
    method BlockParent(ghost lo: nat, n: NodeId, ghost s0: State, ghost l0: Ledger)
      requires Ready(lo, n) && Moved(s0, l0, Snapshot(), workspace.Account(), n)
      requires nodes[n].status == Planned && Unstarted(s0, Snapshot(), n, {})
      modifies this`nodes, this`events
      ensures Ready(lo, n) && Moved(s0, l0, Snapshot(), workspace.Account(), n)
      ensures Unstarted(s0, Snapshot(), n, {})
      ensures nodes[n] == old(nodes[n]).(status := BlockedStatus(nodes, n))
      ensures ChildrenAccepted(nodes, n) <==> ChildrenAccepted(old(nodes), n)
      ensures ChildrenCommitted(nodes, n) <==> ChildrenCommitted(old(nodes), n)
      ensures JoinedConcluded(nodes, n, {}) <==> JoinedConcluded(old(nodes), n, {})
    {
      hide Good, Moved, Unstarted, BlockedStatus, ChildrenAccepted, ChildrenCommitted, JoinedConcluded;
      hide SomeChildWaits;
      ghost var s, ledger := Snapshot(), workspace.Account();
      ChildrenExist(s0, s, n, {});
      MarkParentBlocked(lo, n);
      MovedOn(s0, l0, s, ledger, Snapshot(), ledger, n);
      BlockedByChildren(s0, s, ledger, Snapshot(), ledger, lo, n);
    }

    method AllChildrenAccepted(n: NodeId) returns (all: bool)
      requires n in nodes && forall k :: 0 <= k < |nodes[n].children| ==> nodes[n].children[k] in nodes
      ensures all <==> ChildrenAccepted(nodes, n)
    {
      var children := nodes[n].children;
      all := true;
      for i := 0 to |children|
        invariant all <==> forall k :: 0 <= k < i ==> nodes[children[k]].accepted.Some?
      {
        all := all && nodes[children[i]].accepted.Some?;
      }
    }

    /** Resolves one stage child whose turn it is. */
    method ResolveStageChild(ghost lo: nat, n: NodeId, ghost i: nat, c: NodeId, depth: nat,
                             ghost s0: State, ghost l0: Ledger,
                             ghost pending: set<NodeId>)
      returns (r: Outcome<Option<ArtifactId>>)
      requires Ready(lo, n) && Moved(s0, l0, Snapshot(), workspace.Account(), n)
      requires Unstarted(s0, Snapshot(), n, pending) && InStageTurn(nodes, n, i, pending)
      requires i < |nodes[n].children| && nodes[n].children[i] == c
      modifies this, registry, workspace, agent
      ensures Ready(lo, n) && Moved(s0, l0, Snapshot(), workspace.Account(), n)
      ensures nodes[n] == old(nodes[n]) && Unstarted(s0, Snapshot(), n, pending - {c})
      ensures r.Ok? ==> c in nodes && Settled(nodes[c], r.value)
      ensures r.Ok? && r.value.Some? ==> InStageTurn(nodes, n, i + 1, pending - {c})
      ensures old(nextNode) <= nextNode
      ensures |runs| <= old(|runs|) + Times(Quota(old(nodes[n])), 1 + nextNode - old(nextNode))
      ensures r.Ok? && Tidy(old(registry.resources)) ==> Tidy(registry.resources)
      ensures old(Failures()) <= Failures() && (r.Ok? <==> Failures() == old(Failures()))
      ensures r.Err? ==> r.error.External()
      ensures |agent.replies| <= old(|agent.replies|)
      decreases |agent.replies|, 4
    {
      hide Good, Moved, TidyBut, Unstarted, Times, Untouched, InStageTurn, Quota;
      ghost var s, ledger := Snapshot(), workspace.Account();
      StageChildReady(s0, s, ledger, lo, n, i, pending);
      r := Resolve(lo, c, depth);
      ghost var t, to := Snapshot(), workspace.Account();
      MovedParts(s, ledger, t, to, c);
      ChildDone(s0, l0, s, ledger, lo, n, t, to, c, pending);
      if r.Ok? && r.value.Some? {
        StageAdvances(s0, s, ledger, lo, n, i, pending, t);
      }
    }

    /** Stage children run one after the other; the first that does not deliver blocks the parent. */
    method ResolveStageChildren(ghost lo: nat, n: NodeId, depth: nat, ghost s0: State,
                                ghost l0: Ledger)
      returns (r: Outcome<bool>)
      requires Ready(lo, n) && Moved(s0, l0, Snapshot(), workspace.Account(), n)
      requires nodes[n].status == Planned && nodes[n].plan.Group? && nodes[n].plan.group.mode == Stage
      requires Unstarted(s0, Snapshot(), n, SetOf(nodes[n].children))
      modifies this, registry, workspace, agent
      ensures Ready(lo, n) && Moved(s0, l0, Snapshot(), workspace.Account(), n)
      ensures Unstarted(s0, Snapshot(), n, {})
      ensures old(nextNode) <= nextNode
      ensures |runs| <= old(|runs|) + Times(Quota(old(nodes[n])), |old(nodes[n]).children| + nextNode - old(nextNode))
      ensures r.Ok? ==> (r.value <==> ChildrenCommitted(nodes, n))
      ensures r.Ok? && r.value ==> nodes[n] == old(nodes[n])
      ensures r.Ok? && !r.value ==> nodes[n] == old(nodes[n]).(status := BlockedStatus(nodes, n))
      ensures r.Ok? && Tidy(old(registry.resources)) ==> Tidy(registry.resources)
      ensures old(Failures()) <= Failures() && (r.Ok? <==> Failures() == old(Failures()))
      ensures r.Err? ==> r.error.External()
      ensures |agent.replies| <= old(|agent.replies|)
      decreases |agent.replies|, 5
    {
      hide Good, Moved, TidyBut, Unstarted, Times, Settled, InStageTurn, Quota, BlockedStatus, ChildrenCommitted;
      hide ChildrenAccepted, JoinedConcluded;
      ghost var s1 := Snapshot();
      var children := nodes[n].children;
      ghost var pending := SetOf(children);
      TimesNothing(Quota(nodes[n]));
      StageStarts(s0, s1, n, pending);
      for i := 0 to |children|
        invariant Ready(lo, n) && Moved(s0, l0, Snapshot(), workspace.Account(), n)
        invariant nodes[n] == s1.nodes[n] && Unstarted(s0, Snapshot(), n, pending) && InStageTurn(nodes, n, i, pending)
        invariant s1.nextNode <= nextNode
        invariant |runs| <= |s1.runs| + Times(Quota(s1.nodes[n]), i + nextNode - s1.nextNode)
        invariant Tidy(s1.resources) ==> Tidy(registry.resources)
        invariant |agent.replies| <= old(|agent.replies|) && Failures() == old(Failures())
      {
        var c := children[i];
        ghost var s := Snapshot();
        var out := ResolveStageChild(lo, n, i, c, depth, s0, l0, pending);
        ghost var t, to := Snapshot(), workspace.Account();
        pending := pending - {c};
        TimesMore(Quota(s1.nodes[n]), i + s.nextNode - s1.nextNode, 1 + t.nextNode - s.nextNode);
        TimesGrows(Quota(s1.nodes[n]), i + 1 + nextNode - s1.nextNode, |children| + nextNode - s1.nextNode);
        UnstartedLess(s0, t, n, pending);
        if out.Err? {
          return Err(out.error);
        }
        if out.value.None? {
          SettledUncommitted(nodes, n, i);
          BlockParent(lo, n, s0, l0);
          return Ok(false);
        }
      }
      StageEnds(s0, Snapshot(), n, pending);
      UnstartedLess(s0, Snapshot(), n, pending);
      return Ok(true);
    }

    /** Parallel children run in private engines and are merged in whatever order they finish. Here each
        runs right before its merge; `BranchConcurrency` shows that the promises below hold however the
        branches interleave. */
    method ResolveParallelChildren(ghost lo: nat, n: NodeId, depth: nat, ghost s0: State,
                                   ghost l0: Ledger)
      returns (r: Outcome<()>)
      requires Ready(lo, n) && Moved(s0, l0, Snapshot(), workspace.Account(), n)
      requires nodes[n].plan.Group? && nodes[n].plan.group.mode == Parallel
      requires Unstarted(s0, Snapshot(), n, SetOf(nodes[n].children))
      modifies this, registry, workspace, agent
      ensures Ready(lo, n) && Moved(s0, l0, Snapshot(), workspace.Account(), n)
      ensures nodes[n] == old(nodes[n]) && Unstarted(s0, Snapshot(), n, {})
      ensures r.Ok? ==> JoinedConcluded(nodes, n, {})
      ensures old(nextNode) <= nextNode
      ensures |runs| <= old(|runs|) + Times(Quota(old(nodes[n])), |old(nodes[n]).children| + nextNode - old(nextNode))
      ensures r.Ok? && Tidy(old(registry.resources)) ==> Tidy(registry.resources)
      ensures r.Ok? ==> NothingReleasable(registry.resources)
      ensures old(Failures()) <= Failures() && (r.Ok? <==> Failures() == old(Failures()))
      ensures r.Err? ==> r.error.External()
      ensures |agent.replies| <= old(|agent.replies|)
      decreases |agent.replies|, 5
    {
      hide Good, Moved, TidyBut, Unstarted, Times, Quota, JoinedConcluded, Merged, SweptOn, ReleasableSet;
      ghost var s1 := Snapshot();
      var children := nodes[n].children;
      var pending := SetOf(children);
      SetOfSeq(children);
      ghost var finished: nat := 0;
      TimesNothing(Quota(nodes[n]));
      NoneJoined(nodes, n);
      while pending != {}
        invariant Ready(lo, n) && Moved(s0, l0, Snapshot(), workspace.Account(), n)
        invariant nodes[n] == s1.nodes[n] && Unstarted(s0, Snapshot(), n, pending)
        invariant pending <= SetOf(children)
        invariant finished + |pending| <= |children| && s1.nextNode <= nextNode
        invariant |runs| <= |s1.runs| + Times(Quota(s1.nodes[n]), finished + nextNode - s1.nextNode)
        invariant Tidy(s1.resources) ==> Tidy(registry.resources)
        invariant |agent.replies| <= old(|agent.replies|) && Failures() == old(Failures())
        invariant JoinedConcluded(nodes, n, pending)
        decreases |pending|
      {
        var c :| c in pending;
        ghost var s := Snapshot();
        ghost var b;
        r, b := JoinBranch(lo, n, c, depth, s0, l0, pending);
        TimesMore(Quota(s1.nodes[n]), finished + s.nextNode - s1.nextNode, 1 + nextNode - s.nextNode);
        pending, finished := pending - {c}, finished + 1;
        TimesGrows(Quota(s1.nodes[n]), finished + nextNode - s1.nextNode, |children| + nextNode - s1.nextNode);
        UnstartedLess(s0, Snapshot(), n, pending);
        if r.Err? {
          return;
        }
      }
      UnstartedLess(s0, Snapshot(), n, pending);
      ghost var t, to := Snapshot(), workspace.Account();
      r := CleanupFor(lo, n);
      MovedOn(s0, l0, t, to, Snapshot(), workspace.Account(), n);
      UnstartedSame(s0, t, Snapshot(), n, {});
      TimesGrows(Quota(s1.nodes[n]), finished + nextNode - s1.nextNode, |children| + nextNode - s1.nextNode);
    }

    /** Joins one finished branch and cleans up what its merge made releasable. */
    method JoinBranch(ghost lo: nat, n: NodeId, c: NodeId, depth: nat, ghost s0: State, ghost l0: Ledger,
                      ghost pending: set<NodeId>)
      returns (r: Outcome<()>, ghost b: State)
      requires Ready(lo, n) && Moved(s0, l0, Snapshot(), workspace.Account(), n)
      requires nodes[n].plan.Group? && nodes[n].plan.group.mode == Parallel
      requires Unstarted(s0, Snapshot(), n, pending) && c in pending && c in nodes[n].children
      modifies this, registry, workspace, agent
      ensures Ready(lo, n) && Moved(s0, l0, Snapshot(), workspace.Account(), n)
      ensures nodes[n] == old(nodes[n]) && Unstarted(s0, Snapshot(), n, pending - {c})
      ensures r.Ok? && JoinedConcluded(old(nodes), n, pending) ==> JoinedConcluded(nodes, n, pending - {c})
      ensures r.Ok? ==>
        && c <= b.nextNode && c <= old(nextNode)
        && var merged := Merged(old(Snapshot()), c, b);
           Snapshot() == merged.(resources := SweptOn(merged.resources, ReleasableSet(merged.resources)))
      ensures old(nextNode) <= nextNode
      ensures |runs| <= old(|runs|) + Times(Quota(old(nodes[n])), 1 + nextNode - old(nextNode))
      ensures r.Ok? && Tidy(old(registry.resources)) ==> Tidy(registry.resources)
      ensures old(Failures()) <= Failures() && (r.Ok? <==> Failures() == old(Failures()))
      ensures r.Err? ==> r.error.External()
      ensures |agent.replies| <= old(|agent.replies|)
      decreases |agent.replies|, 4
    {
      hide Good, Moved, TidyBut, Unstarted, Times, Untouched, Quota, Kept, TableStep, JoinedConcluded, Merged;
      hide Concluded, SweptOn, ReleasableSet;
      ghost var s, ledger := Snapshot(), workspace.Account();
      ghost var k :| 0 <= k < |nodes[n].children| && nodes[n].children[k] == c;
      ChildReady(s0, s, ledger, lo, n, k, pending);
      r, b := RunBranch(lo, c, depth);
      ghost var t, to := Snapshot(), workspace.Account();
      ChildDone(s0, l0, s, ledger, lo, n, t, to, c, pending);
      if r.Err? {
        return;
      }
      OneMoreConcluded(s.nodes, t.nodes, n, c, pending);
      r := CleanupFor(lo, n);
      MovedOn(s0, l0, t, to, Snapshot(), workspace.Account(), n);
      UnstartedSame(s0, t, Snapshot(), n, pending - {c});
    }

    /** Runs a child in a private engine of its own; a branch that fails is abandoned and its
        resources are cleaned up. */
    method RunPrivate(ghost lo: nat, c: NodeId, depth: nat) returns (r: Outcome<()>, branch: Engine)
      requires Ready(lo, c) && Untouched(nodes[c])
      modifies workspace, agent
      ensures fresh(branch) && fresh(branch.registry)
      ensures r.Ok? ==>
        && MergeReady(Snapshot(), lo, c, branch.Snapshot(), workspace.Account())
        && LedgerStep(map[], old(workspace.Account()), branch.registry.resources, workspace.Account())
        && Tidy(branch.registry.resources)
        && c in branch.nodes && Concluded(branch.nodes[c])
      ensures old(Failures()) <= Failures() && (r.Ok? <==> Failures() == old(Failures()))
      ensures r.Err? ==>
        && r.error.External() && branch.registry.resources == map[]
        && Good(Snapshot(), workspace.Account(), lo, c)
        && TableStep(registry.resources, old(workspace.Account()), registry.resources, workspace.Account())
      ensures c <= branch.nextNode && |branch.runs| <= Times(Quota(nodes[c]), 1 + branch.nextNode - c)
      ensures |agent.replies| <= old(|agent.replies|)
      decreases |agent.replies|, 2
    {
      hide Good, Moved, TidyBut, Times, Quota, MergeReady, TableStep, Concluded;
      ghost var s, ledger := Snapshot(), workspace.Account();
      BranchGood(s, ledger, lo, c);
      branch := new Engine.Branch(workspace, agent, maxDecompositionDepth, nodes[c]);
      BranchStarts(s, ledger, lo, c);
      r := branch.ResolveBranch(c, depth);
      ghost var b, to := branch.Snapshot(), workspace.Account();
      BranchMergeable(s, ledger, lo, c, b, to);
      if r.Err? {
        branch.Abandon();
        OthersWorked(s, ledger, lo, c, workspace.Account());
      }
    }

    method ResolveBranch(c: NodeId, depth: nat) returns (r: Outcome<()>)
      requires Ready(c, c) && Untouched(nodes[c])
      modifies this, registry, workspace, agent
      ensures Ready(c, c)
      ensures Moved(old(Snapshot()), old(workspace.Account()), Snapshot(), workspace.Account(), c)
      ensures old(nextNode) <= nextNode
      ensures |runs| <= old(|runs|) + Times(Quota(old(nodes[c])), 1 + nextNode - old(nextNode))
      ensures r.Ok? ==> Concluded(nodes[c])
      ensures r.Ok? && Tidy(old(registry.resources)) ==> Tidy(registry.resources)
      ensures old(Failures()) <= Failures() && (r.Ok? <==> Failures() == old(Failures()))
      ensures r.Err? ==> r.error.External()
      ensures |agent.replies| <= old(|agent.replies|)
      decreases |agent.replies|, 1
    {
      hide Good, Moved, TidyBut, Times, Quota;
      var out := Resolve(c, c, depth);
      r := if out.Err? then Err(out.error) else Ok(());
    }

    /** One parallel branch: run the child in a private engine and merge the result. */
    method RunBranch(ghost lo: nat, c: NodeId, depth: nat) returns (r: Outcome<()>, ghost b: State)
      requires Ready(lo, c) && Untouched(nodes[c])
      modifies this, registry, workspace, agent
      ensures Ready(lo, c)
      ensures Kept(old(Snapshot()), Snapshot(), c)
      ensures r.Ok? ==>
        && c <= b.nextNode && c <= old(nextNode) && Snapshot() == Merged(old(Snapshot()), c, b)
        && Concluded(nodes[c])
      ensures r.Err? ==> Snapshot() == old(Snapshot())
      ensures TableStep(old(registry.resources), old(workspace.Account()), registry.resources, workspace.Account())
      ensures old(nextNode) <= nextNode
      ensures |runs| <= old(|runs|) + Times(Quota(old(nodes[c])), 1 + nextNode - old(nextNode))
      ensures r.Ok? && Tidy(old(registry.resources)) ==> Tidy(registry.resources)
      ensures old(Failures()) <= Failures() && (r.Ok? <==> Failures() == old(Failures()))
      ensures r.Err? ==> r.error.External()
      ensures |agent.replies| <= old(|agent.replies|)
      decreases |agent.replies|, 3
    {
      hide Good, Moved, TidyBut, Times, Quota, Merged, MergeReady, Kept, TableStep, Untouched, Concluded;
      ghost var s, ledger := Snapshot(), workspace.Account();
      KeptNothing(s, ledger, c);
      GoodRange(s, ledger, lo, c);
      TimesNothing(Quota(nodes[c]));
      TimesGrows(Quota(nodes[c]), 0, 1);
      var cancelled := agent.Cancelled();
      b := s;
      if cancelled {
        return Err(Cancelled), b;
      }
      var branch;
      r, branch := RunPrivate(lo, c, depth);
      if r.Err? {
        return;
      }
      ghost var to := workspace.Account();
      b := branch.Snapshot();
      MergedConcluded(s, lo, c, b, to);
      MergedGood(s, ledger, lo, c, b, to);
      var merged := MergeParallelBranch(lo, c, branch, to);
    }

    /** What the guard of a failed branch does: every resource still active gets one cleanup call. */
    method Abandon()
      requires Accounted(registry.resources, workspace.Account())
      modifies registry, workspace
      ensures registry.resources == map[] && workspace.issued == old(workspace.issued)
      ensures old(Failures()) <= Failures()
      ensures forall id ::
        workspace.cleaned[id] == old(workspace.cleaned)[id]
          + (if id in old(registry.resources) && old(registry.resources)[id].state == Active then 1 else 0)
      ensures forall id :: id in old(registry.resources) ==> workspace.cleaned[id] == 1
    {
      var drained, ids := registry.DrainAll();
      for i := 0 to |drained|
        invariant registry.resources == map[] && workspace.issued == old(workspace.issued)
        invariant old(Failures()) <= Failures()
        invariant forall id ::
          workspace.cleaned[id] == old(workspace.cleaned)[id]
            + (if id in ids[..i] && old(registry.resources)[id].state == Active then 1 else 0)
      {
        if drained[i].state == Active {
          var works := workspace.Cleanup(drained[i].id);
        }
        assert ids[..i + 1] == ids[..i] + [ids[i]];
      }
      assert ids[..|ids|] == ids;
    }

    /** Plans a node, resolves its children, and combines them once every child has an accepted
        artifact; otherwise the node is blocked. Returns whether there is a candidate to verify. */
    method ResolvePlanned(ghost lo: nat, n: NodeId, depth: nat) returns (r: Outcome<bool>)
      requires Ready(lo, n) && nodes[n].status == NodeStatus.Specified && nodes[n].children == []
      requires nodes[n].size != Tiny
      modifies this, registry, workspace, agent
      ensures Ready(lo, n)
      ensures Moved(old(Snapshot()), old(workspace.Account()), Snapshot(), workspace.Account(), n)
      ensures old(nextNode) <= nextNode
      ensures |runs| <= old(|runs|) + 2 + Times(Quota(old(nodes[n])), nextNode - old(nextNode))
      ensures r.Ok? && r.value ==>
        && nodes[n].status == NodeStatus.Verifying && nodes[n].candidate.Some? && nodes[n].candidate.value in artifacts
        && nodes[n].executionAttempts == old(nodes[n]).executionAttempts
        && ChildrenAccepted(nodes, n) && CombinesAll(nodes, n, artifacts[nodes[n].candidate.value])
      ensures r.Ok? && !r.value ==> nodes[n].status == BlockedStatus(nodes, n)
      ensures r.Ok? ==> nodes[n].plan.Group? && |nodes[n].children| == |nodes[n].plan.group.items|
      ensures r.Ok? ==> (r.value <==> ChildrenDelivered(nodes, n))
      ensures r.Ok? && nodes[n].plan.group.mode == Parallel ==> JoinedConcluded(nodes, n, {})
      ensures r.Ok? && Tidy(old(registry.resources)) ==> Tidy(registry.resources)
      ensures r.Ok? ==> Heard(NodeOperation.Plan, old(agent.replies)) == Answer(PlannedAs(nodes[n].plan.group))
      ensures r.Ok? ==> nodes[n].size == old(nodes[n]).size
      ensures old(Failures()) <= Failures() && (r.Ok? <==> Failures() == old(Failures()))
      ensures r.Err? ==> r.error.External()
      ensures |agent.replies| <= old(|agent.replies|)
      decreases |agent.replies|, 7
    {
      hide Good, Moved, TidyBut, Times, Quota, PlannedFrom, Unstarted, BlockedStatus, ChildrenAccepted, CombinesAll;
      hide ChildrenDelivered, JoinedConcluded, CombinationOf, Grouped, Inheritable;
      ghost var s0, l0 := Snapshot(), workspace.Account();
      TimesNothing(Quota(nodes[n]));
      var planned := PlanChildren(lo, n);
      MovedForward(s0, l0, Snapshot(), workspace.Account(), n);
      TimesGrows(Quota(s0.nodes[n]), 0, nextNode - s0.nextNode);
      if planned.Err? {
        return Err(planned.error);
      }
      ghost var s1 := Snapshot();
      PlannedUnstarted(s0, l0, lo, n, s1);
      r := ResolveChildren(lo, n, depth, s0, l0);
      TimesGrows(Quota(s0.nodes[n]), |s1.nodes[n].children| + nextNode - s1.nextNode, nextNode - s0.nextNode);
      if r.Err? || !r.value {
        return;
      }
      ghost var s2, l2 := Snapshot(), workspace.Account();
      var combined := CombineChildren(lo, n);
      ghost var t, to := Snapshot(), workspace.Account();
      MovedOn(s0, l0, s2, l2, t, to, n);
      MovedForward(s2, l2, t, to, n);
      if combined.Err? {
        return Err(combined.error);
      }
      CombinedFrom(s0, s2, l2, t, to, lo, n);
      return Ok(true);
    }

    /** Resolves the children in the group's mode and blocks the parent unless all were accepted. */
    method ResolveChildren(ghost lo: nat, n: NodeId, depth: nat, ghost s0: State,
                           ghost l0: Ledger)
      returns (r: Outcome<bool>)
      requires Ready(lo, n) && Moved(s0, l0, Snapshot(), workspace.Account(), n)
      requires nodes[n].status == Planned && nodes[n].plan.Group?
      requires Unstarted(s0, Snapshot(), n, SetOf(nodes[n].children))
      modifies this, registry, workspace, agent
      ensures Ready(lo, n) && Moved(s0, l0, Snapshot(), workspace.Account(), n)
      ensures Unstarted(s0, Snapshot(), n, {})
      ensures old(nextNode) <= nextNode
      ensures |runs| <= old(|runs|) + Times(Quota(old(nodes[n])), |old(nodes[n]).children| + nextNode - old(nextNode))
      ensures r.Ok? ==> (r.value <==> ChildrenDelivered(nodes, n))
      ensures r.Ok? && old(nodes[n]).plan.group.mode == Parallel ==> JoinedConcluded(nodes, n, {})
      ensures r.Ok? && r.value ==> nodes[n] == old(nodes[n]) && ChildrenAccepted(nodes, n)
      ensures r.Ok? && !r.value ==> nodes[n] == old(nodes[n]).(status := BlockedStatus(nodes, n))
      ensures r.Ok? && Tidy(old(registry.resources)) ==> Tidy(registry.resources)
      ensures old(Failures()) <= Failures() && (r.Ok? <==> Failures() == old(Failures()))
      ensures r.Err? ==> r.error.External()
      ensures |agent.replies| <= old(|agent.replies|)
      decreases |agent.replies|, 6
    {
      hide Good, Moved, TidyBut, Times, Quota, Unstarted, BlockedStatus, ChildrenAccepted, ChildrenCommitted;
      hide JoinedConcluded;
      match nodes[n].plan.group.mode {
        case Parallel =>
          var joined := ResolveParallelChildren(lo, n, depth + 1, s0, l0);
          if joined.Err? {
            return Err(joined.error);
          }
        case Stage =>
          r := ResolveStageChildren(lo, n, depth + 1, s0, l0);
          if r.Err? || !r.value {
            return;
          }
      }
      ghost var s, ledger := Snapshot(), workspace.Account();
      CommittedAccepted(s, ledger, lo, n);
      ChildrenExist(s0, s, n, {});
      var all := AllChildrenAccepted(n);
      if !all {
        BlockParent(lo, n, s0, l0);
        return Ok(false);
      }
      return Ok(true);
    }

    /** Resolves one untouched node: a memo hit commits at once; otherwise specify, then either plan
        and combine or execute, then verify. */
    method Resolve(ghost lo: nat, n: NodeId, depth: nat) returns (r: Outcome<Option<ArtifactId>>)
      requires Ready(lo, n) && Untouched(nodes[n])
      modifies this, registry, workspace, agent
      ensures Ready(lo, n)
      ensures Moved(old(Snapshot()), old(workspace.Account()), Snapshot(), workspace.Account(), n)
      ensures old(nextNode) <= nextNode
      ensures |runs| <= old(|runs|) + Times(Quota(old(nodes[n])), 1 + nextNode - old(nextNode))
      ensures r.Ok? ==> Settled(nodes[n], r.value)
      ensures r.Ok? && Tidy(old(registry.resources)) ==> Tidy(registry.resources)
      ensures old(agent.checks) == 0 ==> r == Err(Cancelled) && Snapshot() == old(Snapshot())
      ensures r.Ok? && old(nodes[n].key in memo) ==>
        Snapshot() == CommittedTo(old(Snapshot()), n, old(memo[nodes[n].key]))
      ensures r.Ok? && old(nodes[n].key in memo) ==> r.value == Some(old(memo[nodes[n].key]))
      ensures r.Ok? && old(nodes[n].key !in memo) ==> old(runs) + [RunRecord(n, NodeOperation.Specify)] <= runs
      ensures r.Ok? && old(nodes[n].key !in memo) ==>
        ResolvedFrom(old(nodes[n]), Snapshot(), n, old(agent.replies), old(workspace.answers))
      ensures old(nodes[n].key !in memo) && old(TinyThenSlips(n, 2)) ==> EndsHopeless(old(nodes[n]), nodes[n], r)
      ensures old(Failures()) <= Failures() && (r.Ok? <==> Failures() == old(Failures()))
      ensures r.Err? ==> r.error.External()
      ensures |agent.replies| <= old(|agent.replies|)
      decreases |agent.replies|, 0, 1
    {
      hide Good, Moved, TidyBut, Times, ResolvedFrom, Settled;
      ghost var s0, l0 := Snapshot(), workspace.Account();
      MovedNowhere(s0, l0, n);
      TimesOnce(s0.nodes[n], 0);
      var cancelled := agent.Cancelled();
      if cancelled {
        return Err(Cancelled);
      }
      if nodes[n].key in memo {
        var a := memo[nodes[n].key];
        MemoGood(s0, l0, lo, n);
        CommitSettles(s0, n, a);
        Commit(n, a);
        return Ok(Some(a));
      }
      r := ResolveFresh(lo, n, depth);
    }

    /** The work on a node that is not memoised. */
    method ResolveFresh(ghost lo: nat, n: NodeId, depth: nat) returns (r: Outcome<Option<ArtifactId>>)
      requires Ready(lo, n) && Untouched(nodes[n])
      modifies this, registry, workspace, agent
      ensures Ready(lo, n)
      ensures Moved(old(Snapshot()), old(workspace.Account()), Snapshot(), workspace.Account(), n)
      ensures old(nextNode) <= nextNode
      ensures |runs| <= old(|runs|) + Times(Quota(old(nodes[n])), 1 + nextNode - old(nextNode))
      ensures r.Ok? ==> Settled(nodes[n], r.value)
      ensures r.Ok? && Tidy(old(registry.resources)) ==> Tidy(registry.resources)
      ensures r.Ok? ==> old(runs) + [RunRecord(n, NodeOperation.Specify)] <= runs
      ensures r.Ok? ==> ResolvedFrom(old(nodes[n]), Snapshot(), n, old(agent.replies), old(workspace.answers))
      ensures old(TinyThenSlips(n, 1)) ==> EndsHopeless(old(nodes[n]), nodes[n], r)
      ensures old(Failures()) <= Failures() && (r.Ok? <==> Failures() == old(Failures()))
      ensures r.Err? ==> r.error.External()
      ensures |agent.replies| <= old(|agent.replies|)
      decreases |agent.replies|, 0, 0
    {
      hide Good, Moved, TidyBut, Times, BlockedStatus, ChildrenAccepted, CombinesAll, ResolvedAs, ResolvedFrom;
      hide Settled;
      ghost var s0, l0, replies, answers := Snapshot(), workspace.Account(), agent.replies, workspace.answers;
      TimesNothing(Quota(s0.nodes[n]));
      TimesOnce(s0.nodes[n], 0);
      var specified := Specify(lo, n, depth);
      if specified.Err? {
        return Err(specified.error);
      }
      ghost var s1, l1 := Snapshot(), workspace.Account();
      r := ResolveSpecified(lo, n, depth);
      if r.Ok? {
        ResolvedIs(s0.nodes[n], Snapshot(), n, replies, answers);
      }
      MovedForward(s1, l1, Snapshot(), workspace.Account(), n);
      MovedOn(s0, l0, s1, l1, Snapshot(), workspace.Account(), n);
      TimesOnce(s0.nodes[n], nextNode - s0.nextNode);
    }

    /** The first attempt at a node. */
    method ExecuteFirst(ghost lo: nat, n: NodeId) returns (r: Outcome<()>)
      requires Ready(lo, n) && nodes[n].status != New && nodes[n].executionAttempts == 0 && MayReopen(nodes[n])
      modifies this`nodes, this`artifacts, this`memo, this`events, this`runs, this`nextArtifact
      modifies registry, workspace, agent
      ensures Ready(lo, n)
      ensures Moved(old(Snapshot()), old(workspace.Account()), Snapshot(), workspace.Account(), n)
      ensures |runs| <= old(|runs|) + 1
      ensures r.Ok? ==> AfterExecute(old(nodes[n]), nodes[n])
      ensures r.Ok? ==>
        && nextArtifact in artifacts && artifacts[nextArtifact].id == nextArtifact
        && nodes[n] == ExecutedNode(old(nodes[n]), artifacts[nextArtifact])
        && AttemptOf(artifacts[nextArtifact], old(agent.replies), old(workspace.answers))
        && runs == old(runs) + [RunRecord(n, NodeOperation.Execute)]
      ensures r.Ok? && Tidy(old(registry.resources)) ==> Tidy(registry.resources)
      ensures old(nodes[n]).size == Tiny && old(SlipsOnce(n)) ==>
        r.Ok? && nodes[n].status == NodeStatus.Verifying && Hopeless(n)
      ensures old(Failures()) <= Failures() && (r.Ok? <==> Failures() == old(Failures()))
      ensures r.Err? ==> r.error.External()
      ensures |agent.replies| <= old(|agent.replies|)
    {
      hide Good, Moved, TidyBut, BlanksFollow, BlankCandidate;
      ghost var before, slips, replies, answers := nodes[n], SlipsOnce(n), agent.replies, workspace.answers;
      r := ExecuteNode(lo, n);
      if before.size == Tiny && slips {
        SlippedOnce(before, Snapshot(), n, replies, answers);
      }
    }

    method ResolveSpecified(ghost lo: nat, n: NodeId, depth: nat) returns (r: Outcome<Option<ArtifactId>>)
      requires Ready(lo, n) && nodes[n].status == NodeStatus.Specified && nodes[n].children == []
      requires nodes[n].candidate == None && nodes[n].accepted == None && nodes[n].executionAttempts == 0
      requires nodes[n].size == Tiny ==> nodes[n].plan == ExecutePlan
      modifies this, registry, workspace, agent
      ensures Ready(lo, n)
      ensures Moved(old(Snapshot()), old(workspace.Account()), Snapshot(), workspace.Account(), n)
      ensures old(nextNode) <= nextNode
      ensures |runs| <= old(|runs|) + 3 + 2 * AttemptLimit(old(nodes[n]))
                     + Times(Quota(old(nodes[n])), nextNode - old(nextNode))
      ensures r.Ok? ==> Settled(nodes[n], r.value)
      ensures r.Ok? && Tidy(old(registry.resources)) ==> Tidy(registry.resources)
      ensures r.Ok? ==> nodes[n].size == old(nodes[n]).size
      ensures r.Ok? ==> ResolvedAs(old(nodes[n]), Snapshot(), n, old(agent.replies), old(workspace.answers))
      ensures old(nodes[n]).size == Tiny && old(SlipsOnce(n)) ==> EndsHopeless(old(nodes[n]), nodes[n], r)
      ensures old(Failures()) <= Failures() && (r.Ok? <==> Failures() == old(Failures()))
      ensures r.Err? ==> r.error.External()
      ensures |agent.replies| <= old(|agent.replies|)
      decreases |agent.replies|, 9
    {
      hide Good, Moved, TidyBut, Times, WorkedOn, ResolvedAs, SlipsOnce, FollowsJudgement, Judgement, LeftOver;
      ghost var s0, l0 := Snapshot(), workspace.Account();
      ghost var replies, answers := agent.replies, workspace.answers;
      var ended := WorkOn(lo, n, depth);
      if ended.Err? {
        return Err(ended.error);
      }
      ghost var s1, l1 := Snapshot(), workspace.Account();
      if ended.value.Some? {
        EndedEarly(s0.nodes[n], s1, n, replies, answers);
        return Ok(ended.value.value);
      }
      r := VerifyAndMaybeCommit(lo, n);
      ghost var t, to := Snapshot(), workspace.Account();
      if r.Ok? {
        JudgementGrows(s1, t, n);
        ChildrenSame(s1, l1, t, to, lo, n);
        VerifiedAs(s0.nodes[n], s1, t, n, replies, answers);
      }
      MovedForward(s0, l0, s1, l1, n);
      MovedForward(s1, l1, t, to, n);
      TimesGrows(Quota(s0.nodes[n]), s1.nextNode - s0.nextNode, t.nextNode - s0.nextNode);
      MovedOn(s0, l0, s1, l1, t, to, n);
    }

    /** The way to a candidate: plan, resolve the children and combine them, or execute. Returns the
        result of a node that ends before it is verified. */
    method WorkOn(ghost lo: nat, n: NodeId, depth: nat) returns (r: Outcome<Option<Option<ArtifactId>>>)
      requires Ready(lo, n) && nodes[n].status == NodeStatus.Specified && nodes[n].children == []
      requires nodes[n].candidate == None && nodes[n].accepted == None && nodes[n].executionAttempts == 0
      requires nodes[n].size == Tiny ==> nodes[n].plan == ExecutePlan
      modifies this, registry, workspace, agent
      ensures Ready(lo, n)
      ensures Moved(old(Snapshot()), old(workspace.Account()), Snapshot(), workspace.Account(), n)
      ensures old(nextNode) <= nextNode
      ensures |runs| <= old(|runs|) + 2 + Times(Quota(old(nodes[n])), nextNode - old(nextNode))
      ensures r.Ok? && Tidy(old(registry.resources)) ==> Tidy(registry.resources)
      ensures r.Ok? && r.value.Some? ==> Settled(nodes[n], r.value.value)
      ensures r.Ok? && r.value.None? ==>
        nodes[n].candidate.Some? && nodes[n].status == NodeStatus.Verifying && MayReopen(nodes[n])
      ensures r.Ok? ==>
        WorkedOn(old(nodes[n]), Snapshot(), n, old(agent.replies), old(workspace.answers), r.value.Some?)
      ensures r.Ok? ==> nodes[n].size == old(nodes[n]).size
      ensures r.Ok? && old(nodes[n]).size == Tiny ==>
        nodes[n].executionAttempts == 1 && nodes[n].maxAttempts == old(nodes[n]).maxAttempts
      ensures old(nodes[n]).size == Tiny && old(SlipsOnce(n)) ==>
        r == Ok(None) && Hopeless(n) && nodes[n].maxAttempts >= 2
      ensures old(Failures()) <= Failures() && (r.Ok? <==> Failures() == old(Failures()))
      ensures r.Err? ==> r.error.External()
      ensures |agent.replies| <= old(|agent.replies|)
      decreases |agent.replies|, 8
    {
      hide Good, Moved, TidyBut, Times, BlockedStatus, ChildrenAccepted, CombinesAll, ExecutedNode, WorkedOn;
      hide ChildrenDelivered, JoinedConcluded, AttemptOf;
      ghost var s0, l0 := Snapshot(), workspace.Account();
      ghost var replies, answers := agent.replies, workspace.answers;
      TimesNothing(Quota(nodes[n]));
      var plans := ShouldPlan(n);
      if plans {
        var combined := ResolvePlanned(lo, n, depth);
        MovedForward(s0, l0, Snapshot(), workspace.Account(), n);
        if combined.Err? {
          return Err(combined.error);
        }
        WorkedByPlan(s0.nodes[n], Snapshot(), n, replies, answers, !combined.value);
        if !combined.value {
          BlockedSettles(nodes, n);
          return Ok(Some(None));
        }
      } else if nodes[n].candidate.None? {
        var executed := ExecuteFirst(lo, n);
        if executed.Err? {
          return Err(executed.error);
        }
        WorkedByExecution(s0.nodes[n], Snapshot(), n, replies, answers);
        if nodes[n].status == NodeStatus.Committed {
          return Ok(Some(nodes[n].accepted));
        }
      }
      GoodShaped(Snapshot(), workspace.Account(), lo, n);
      return Ok(None);
    }

    // ---- Whole runs ----

    method InsertRoot(template: NodeTemplate) returns (root: NodeId)
      requires EngineOk(Snapshot(), workspace.Account())
      modifies this`nodes, this`nextNode
      ensures EngineOk(Snapshot(), workspace.Account())
      ensures Snapshot() == NodeInserted(old(Snapshot()), None, template) && root == nextNode
      ensures Ready(1, root) && Untouched(nodes[root])
    {
      hide EngineOk, Good;
      RootGood(Snapshot(), workspace.Account(), template);
      root := InsertNode(None, template);
    }

    /** Drops every reference and cleans up. */
    method ReleaseEverything() returns (r: Outcome<()>)
      requires TableOk(registry.resources, workspace.Account(), 1, nextNode, nextArtifact)
      modifies registry, workspace
      ensures TableOk(registry.resources, workspace.Account(), 1, nextNode, nextArtifact)
      ensures forall id :: id in registry.resources ==> registry.resources[id].refs == []
      ensures r.Ok? ==> forall id :: id in registry.resources ==> registry.resources[id].state != Active
      ensures r.Err? ==> exists id :: id in registry.resources && registry.resources[id].state == FailedCleanup
      ensures r.Ok? && Tidy(old(registry.resources)) ==> AllReleased(registry.resources, workspace.cleaned)
      ensures old(Failures()) <= Failures() && (r.Ok? <==> Failures() == old(Failures()))
      ensures r.Err? ==> r.error.External()
    {
      hide NoFailures, TidyBut, TableOk, TableStep, SweptOn, StoppedAt, AllReleased;
      ghost var table, ledger := registry.resources, workspace.Account();
      if Tidy(table) {
        TidyIs(table, {});
      }
      registry.ReleaseAllRefs();
      UnreferencedOk(table, ledger, 1, nextNode, nextArtifact);
      ghost var unreferenced := registry.resources;
      r := CleanupReleasableResources(1, nextNode, nextArtifact);
      if r.Err? {
        StoppedShows(unreferenced, registry.resources);
      } else {
        NoneActive(registry.resources);
        if Tidy(table) {
          AllCleaned(registry.resources, workspace.Account(), 1, nextNode, nextArtifact);
        }
      }
    }

    /** One run from a root that has not run yet. A run that ends Ok reports how the root settled and
        leaves every resource released, each after exactly one cleanup call. It ends Ok exactly if the
        root exists and nothing outside the engine failed. However it ends, no reference is left, and
        nothing is left active unless a cleanup failed. */
    method RunWithCancel(root: NodeId) returns (r: Outcome<Report>)
      requires root in nodes ==> Ready(1, root) && Untouched(nodes[root])
      requires TableOk(registry.resources, workspace.Account(), 1, nextNode, nextArtifact)
      requires Tidy(registry.resources)
      modifies this, registry, workspace, agent
      ensures root in old(nodes) ==>
        && StoreOk(Snapshot(), 1) && Kept(old(Snapshot()), Snapshot(), root)
        && old(nextNode) <= nextNode
        && |runs| <= old(|runs|) + Times(Quota(old(nodes[root])), 1 + nextNode - old(nextNode))
      ensures forall id :: id in registry.resources ==> registry.resources[id].refs == []
      ensures
        || (forall id :: id in registry.resources ==> registry.resources[id].state != Active)
        || (exists id :: id in registry.resources && registry.resources[id].state == FailedCleanup)
      ensures r.Ok? ==>
        && root in old(nodes)
        && if old(nodes)[root].key in old(memo) then r.value.artifact == Some(old(memo)[old(nodes)[root].key])
           else ResolvedFrom(old(nodes)[root], Snapshot(), root, old(agent.replies), old(workspace.answers))
      ensures r.Ok? ==>
        && root in nodes && Settled(nodes[root], r.value.artifact)
        && ReportsOn(Snapshot(), root, r.value)
        && AllReleased(registry.resources, workspace.cleaned)
      ensures old(Failures()) <= Failures() && (r.Ok? <==> root in old(nodes) && Failures() == old(Failures()))
      ensures r.Err? ==> r.error.External() || (r.error == MissingNode(root) && root !in old(nodes))
    {
      hide Good, Moved, TidyBut, TableOk, StoreOk, Kept, Times, Settled, AllReleased, Untouched, ResolvedFrom;
      ghost var s0, l0, replies, answers := Snapshot(), workspace.Account(), agent.replies, workspace.answers;
      var result: Outcome<Option<ArtifactId>>;
      if root in nodes {
        result := Resolve(1, root, 0);
        GoodParts(s0, l0, Snapshot(), workspace.Account(), 1, root);
      } else {
        result := Err(MissingNode(root));
      }
      ghost var s1 := Snapshot();
      var released := ReleaseEverything();
      if root in s0.nodes {
        ResourcesDone(s0, s1, 1, root, registry.resources);
        assert Snapshot() == s1.(resources := registry.resources);
      }
      if result.Err? {
        return Err(result.error);
      }
      if released.Err? {
        return Err(released.error);
      }
      if s0.nodes[root].key !in s0.memo {
        ResolvedStays(s0.nodes[root], s1, root, replies, answers, registry.resources);
      }
      SettledArtifact(Snapshot(), 1, root, result.value);
      var text := if result.value.Some? then Some(artifacts[result.value.value].text) else None;
      return Ok(Report(root, nodes[root].status, result.value, text, events, runs));
    }
  }

  /** The route follows from the size alone. */
  function SpecifiedNode(node: ProblemNode, size: WorkSize): ProblemNode
  {
    var threshold := node.taskType.DefaultPolicyPack().autoPlanThreshold;
    node.(
      size := size,
      status := NodeStatus.Specified,
      plan := if size.Rank() < threshold.Rank() then ExecutePlan
              else if node.plan.Group? then node.plan else NeedsPlanning)
  }

  lemma SpecifyGood(s: State, ledger: Ledger, lo: nat, n: NodeId, size: WorkSize, plan: NodePlan)
    requires Good(s, ledger, lo, n) && Untouched(s.nodes[n])
    ensures var t := NodeSet(s, n, s.nodes[n].(size := size, plan := plan, status := NodeStatus.Specified));
            Good(t, ledger, lo, n) && Moved(s, ledger, t, ledger, n)
  {
    hide Good, Moved;
    GoodHas(s, ledger, lo, n);
    ProgressGood(s, ledger, lo, n, s.nodes[n].(size := size, plan := plan, status := NodeStatus.Specified));
  }

  /** The context of an agent run looks up the candidate and the children's accepted artifacts; in a
      well-formed engine every lookup succeeds. */
  lemma ContextComplete(s: State, lo: nat, n: NodeId)
    requires StoreOk(s, lo) && n in s.nodes
    ensures s.nodes[n].candidate.Some? ==> s.nodes[n].candidate.value in s.artifacts
    ensures forall i :: i in s.nodes && s.nodes[i].accepted.Some? ==> s.nodes[i].accepted.value in s.artifacts
  {
    assert Produced(s, n);
    forall i | i in s.nodes && s.nodes[i].accepted.Some?
      ensures s.nodes[i].accepted.value in s.artifacts
    {
      assert Produced(s, i);
    }
  }

  lemma TrackGood(s: State, ledger: Ledger, lo: nat, n: NodeId, resources: seq<Resource>, hi: nat,
                  refs: seq<ResourceRef>, extra: set<Hold>)
    requires Good(s, ledger, lo, n)
    requires ledger.issued <= hi && Fresh(resources, ledger.issued, hi, refs)
    requires forall ref :: ref in refs ==> RefKnown(ref, lo, s.nextNode, s.nextArtifact)
    ensures var table, to := Tracked(s.resources, resources), Ledger(hi, ledger.cleaned);
      && Good(s.(resources := table), to, lo, n) && Moved(s, ledger, s.(resources := table), to, n)
      && (TidyBut(s.resources, extra) ==> TidyBut(table, extra + HoldsFor(Ids(resources), refs)))
      && (forall id :: id in s.resources ==> id in table && table[id] == s.resources[id])
      && (forall id :: id in Ids(resources) ==> id in table && table[id].state == Active && table[id].refs == refs)
  {
    TrackFresh(s.resources, ledger, resources, hi, refs, lo, s.nextNode, s.nextArtifact);
    hide StoreOk, TableOk, TableStep, NoFailures, TidyBut, HoldsFor, InTurn;
    if TidyBut(s.resources, extra) {
      TidyTrack(s.resources, resources, refs, ledger.issued, hi, extra);
    }
    TableGood(s, ledger, lo, n, Tracked(s.resources, resources), Ledger(hi, ledger.cleaned));
  }

  /** Ids issued to others do not disturb this engine. */
  lemma IssuedMore(s: State, ledger: Ledger, lo: nat, n: NodeId, hi: nat)
    requires Good(s, ledger, lo, n) && ledger.issued <= hi
    ensures Good(s, Ledger(hi, ledger.cleaned), lo, n) && Moved(s, ledger, s, Ledger(hi, ledger.cleaned), n)
  {
  }

  lemma DropGood(s: State, ledger: Ledger, lo: nat, n: NodeId, ids: seq<ResourceId>, ref: ResourceRef,
                 extra: set<Hold>)
    requires Good(s, ledger, lo, n) && !ref.CandidateArtifact?
    ensures var t := s.(resources := DroppedAll(s.resources, ids, ref));
      && Good(t, ledger, lo, n) && Moved(s, ledger, t, ledger, n)
      && (TidyBut(s.resources, extra) ==> TidyBut(t.resources, extra - HoldsFor(ids, [ref])))
  {
    hide StoreOk, TableOk, TableStep, NoFailures, TidyBut, HoldsFor, InTurn;
    if TidyBut(s.resources, extra) {
      TidyDrop(s.resources, ids, ref, extra);
    }
    DropAll(s.resources, ledger, ids, ref, lo, s.nextNode, s.nextArtifact);
    TableGood(s, ledger, lo, n, DroppedAll(s.resources, ids, ref), ledger);
  }

  lemma GoodHolds(s: State, ledger: Ledger, lo: nat, n: NodeId, a: ArtifactId)
    requires Good(s, ledger, lo, n) && a in s.artifacts
    ensures Held(s, a)
  {
  }

  predicate ShowsCapture(change: Change, answer: Option<Served>)
  {
    && answer.Some? && answer.value.Captures?
    && change.changedPaths == answer.value.paths && change.sideEffects == answer.value.effects
  }

  /** The change is the one the workspace captured: its paths and effects, and only resources of the
      surface or of its own. */
  predicate CarriesCapture(change: Change, surface: Surface, answer: Option<Served>)
  {
    && ShowsCapture(change, answer)
    && |change.resources| == |answer.value.gaps|
    && forall id :: id in change.resourceIds ==> id in Ids(surface.resources) || id in Ids(change.resources)
  }

  /** An execution that will be answered, on a workspace that hands out no resource for it. */
  predicate ServesAttempt(table: Table, checks: nat, replies: seq<Reply>, answers: seq<Served>)
  {
    table == map[] && checks > 0 && Heard(NodeOperation.Execute, replies).Answer? && ServesBare(answers)
  }

  /** The artifact of an attempt: what the agent answered and what the workspace then captured. */
  predicate AttemptOf(artifact: Artifact, replies: seq<Reply>, answers: seq<Served>)
  {
    && Heard(NodeOperation.Execute, replies) == Answer(Executed(artifact.text))
    && artifact.children == [] && artifact.change.Some?
    && ShowsCapture(artifact.change.value, First(Rest(answers)))
  }

  /** The combined artifact: what the agent answered, and what was captured on the merge surface. */
  predicate CombinationOf(artifact: Artifact, replies: seq<Reply>, answers: seq<Served>)
  {
    && Heard(NodeOperation.Combine, replies) == Answer(Combined(artifact.text))
    && artifact.change.Some? && ShowsCapture(artifact.change.value, First(Rest(answers)))
  }

  ghost predicate AfterExecute(before: ProblemNode, after: ProblemNode)
  {
    && after.executionAttempts == before.executionAttempts + 1
    && after.maxAttempts == before.maxAttempts && SameRoute(before, after)
    && (|| (after.status == NodeStatus.Committed && after.accepted.Some? && after.candidate == before.candidate)
        || (after.status == NodeStatus.Verifying && after.candidate.Some? && after.accepted == before.accepted))
  }

  lemma GoodHas(s: State, ledger: Ledger, lo: nat, n: NodeId)
    requires Good(s, ledger, lo, n)
    ensures n in s.nodes
  {
  }

  lemma GoodShaped(s: State, ledger: Ledger, lo: nat, n: NodeId)
    requires Good(s, ledger, lo, n)
    ensures n in s.nodes && Shaped(s.nodes[n])
  {
    assert Produced(s, n);
  }

  lemma GoodProduced(s: State, ledger: Ledger, lo: nat, n: NodeId)
    requires Good(s, ledger, lo, n)
    ensures n in s.nodes && Produced(s, n) && Numbered(s, lo)
  {
  }

  /** Changing a started node's progress keeps what it produced in order. */
  lemma ProgressProduced(s: State, lo: nat, n: NodeId, node: ProblemNode)
    requires n in s.nodes && Produced(s, n) && Numbered(s, lo)
    requires SameIdentity(s.nodes[n], node) && node.accepted == s.nodes[n].accepted
    requires node.status != New && (node.status == NodeStatus.Committed ==> s.nodes[n].status == NodeStatus.Committed)
    requires node.executionAttempts <= AttemptLimit(node) && Shaped(node)
    requires node.candidate == s.nodes[n].candidate
          || (&& node.candidate.Some? && node.candidate.value in s.artifacts
              && s.artifacts[node.candidate.value].node == n)
    ensures Produced(NodeSet(s, n, node), n)
  {
    hide Acceptable;
    if node.accepted.Some? {
      UpdatedKept(s, lo, n, node);
      hide Kept;
      AcceptableKept(s, NodeSet(s, n, node), n, node.accepted.value, node.key);
    }
  }

  lemma ProgressGood(s: State, ledger: Ledger, lo: nat, n: NodeId, node: ProblemNode)
    requires Good(s, ledger, lo, n)
    requires SameIdentity(s.nodes[n], node) && node.accepted == s.nodes[n].accepted
    requires node.children == s.nodes[n].children && (Shaped(s.nodes[n]) ==> Shaped(node))
    requires node.plan == s.nodes[n].plan || node.children == []
    requires node.status != New && (node.status == NodeStatus.Committed ==> s.nodes[n].status == NodeStatus.Committed)
    requires node.executionAttempts == s.nodes[n].executionAttempts || node.executionAttempts <= AttemptLimit(node)
    requires node.candidate == s.nodes[n].candidate
          || (&& node.candidate.Some? && node.candidate.value in s.artifacts
              && s.artifacts[node.candidate.value].node == n)
    ensures Good(NodeSet(s, n, node), ledger, lo, n) && Moved(s, ledger, NodeSet(s, n, node), ledger, n)
  {
    GoodProduced(s, ledger, lo, n);
    AttemptsWithin(s, n, node);
    ProgressProduced(s, lo, n, node);
    hide Good, Moved, Produced, Numbered;
    UpdateGood(s, ledger, lo, n, node);
  }

  lemma AttemptsWithin(s: State, n: NodeId, node: ProblemNode)
    requires n in s.nodes && Produced(s, n) && SameIdentity(s.nodes[n], node)
    ensures node.executionAttempts == s.nodes[n].executionAttempts ==> node.executionAttempts <= AttemptLimit(node)
  {
  }

  lemma ExecutedProduced(s: State, n: NodeId, a: ArtifactId)
    requires n in s.nodes && Produced(s, n)
    requires s.nodes[n].status != New && s.nodes[n].executionAttempts < AttemptLimit(s.nodes[n])
    requires MayReopen(s.nodes[n])
    requires a in s.artifacts && s.artifacts[a].node == n && s.artifacts[a].change.Some?
    ensures var attempted := s.nodes[n].(executionAttempts := s.nodes[n].executionAttempts + 1);
      && Produced(NodeSet(s, n, attempted), n)
      && Produced(NodeSet(s, n, attempted.(candidate := Some(a), status := NodeStatus.Verifying)), n)
      && (s.artifacts[a].change.value.changedPaths == [] ==> Acceptable(NodeSet(s, n, attempted), a, s.nodes[n].key))
  {
  }

  lemma ExecutedGood(s: State, ledger: Ledger, lo: nat, n: NodeId, a: ArtifactId)
    requires Good(s, ledger, lo, n)
    requires s.nodes[n].status != New && s.nodes[n].executionAttempts < AttemptLimit(s.nodes[n])
    requires MayReopen(s.nodes[n])
    requires a in s.artifacts && s.artifacts[a].node == n && s.artifacts[a].change.Some?
    ensures
      var attempted := s.nodes[n].(executionAttempts := s.nodes[n].executionAttempts + 1);
      var direct := CommittedTo(NodeSet(s, n, attempted), n, a);
      var verifying := NodeSet(s, n, attempted.(candidate := Some(a), status := NodeStatus.Verifying));
      && (s.artifacts[a].change.value.changedPaths == [] ==>
            Good(direct, ledger, lo, n) && Moved(s, ledger, direct, ledger, n))
      && Good(verifying, ledger, lo, n) && Moved(s, ledger, verifying, ledger, n)
  {
    hide Good, Moved, Produced, Numbered, Acceptable;
    GoodProduced(s, ledger, lo, n);
    ExecutedProduced(s, n, a);
    var attempted := s.nodes[n].(executionAttempts := s.nodes[n].executionAttempts + 1);
    UpdateGood(s, ledger, lo, n, attempted.(candidate := Some(a), status := NodeStatus.Verifying));
    if s.artifacts[a].change.value.changedPaths == [] {
      var counted := NodeSet(s, n, attempted);
      UpdateGood(s, ledger, lo, n, attempted);
      CommitGood(counted, ledger, lo, n, a);
      MovedOn(s, ledger, counted, ledger, CommittedTo(counted, n, a), ledger, n);
    }
  }

  lemma StatusGood(s: State, ledger: Ledger, lo: nat, n: NodeId, status: NodeStatus)
    requires Good(s, ledger, lo, n) && s.nodes[n].status != New && status != New && status != NodeStatus.Committed
    requires MayReopen(s.nodes[n])
    ensures var t := NodeSet(s, n, s.nodes[n].(status := status));
      Good(t, ledger, lo, n) && Moved(s, ledger, t, ledger, n)
  {
    hide Good, Moved;
    GoodHas(s, ledger, lo, n);
    ProgressGood(s, ledger, lo, n, s.nodes[n].(status := status));
  }

  lemma VerifiedGood(s: State, ledger: Ledger, lo: nat, n: NodeId)
    requires Good(s, ledger, lo, n) && s.nodes[n].status != New
    ensures var t := NodeSet(s, n, s.nodes[n].(verificationAttempts := s.nodes[n].verificationAttempts + 1));
      Good(t, ledger, lo, n) && Moved(s, ledger, t, ledger, n)
  {
    hide Good, Moved;
    GoodHas(s, ledger, lo, n);
    ProgressGood(s, ledger, lo, n, s.nodes[n].(verificationAttempts := s.nodes[n].verificationAttempts + 1));
  }

  /** A finished execution: a tiny node that changed nothing is committed as it is; any other gets a new
      candidate to verify. */
  function ExecutedNode(before: ProblemNode, artifact: Artifact): ProblemNode
  {
    var attempted := before.(executionAttempts := before.executionAttempts + 1);
    if before.size == Tiny && artifact.change.Some? && artifact.change.value.changedPaths == []
    then attempted.(status := NodeStatus.Committed, accepted := Some(artifact.id))
    else attempted.(candidate := Some(artifact.id), status := NodeStatus.Verifying)
  }

  /** How the node is worked on does not change any more. */
  predicate SameRoute(before: ProblemNode, after: ProblemNode)
  {
    after.size == before.size && after.plan == before.plan && after.children == before.children
  }

  predicate OutOfBudget(node: ProblemNode) { node.executionAttempts >= node.maxAttempts }

  /** Rejections that are not retried. */
  predicate Terminal(node: ProblemNode, failure: FailureClass)
  {
    failure == UnsafeSideEffect || failure == MergeConflict || OutOfBudget(node)
  }

  /** Verdicts that wait for the user. */
  predicate AsksForInfo(verdict: Verdict)
  {
    verdict == Uncertain || verdict == Reject(MissingInfo) || verdict == Reject(SpecAmbiguity)
  }

  /** The verdict on an artifact: the deterministic checks', or else the one the agent replies with. */
  function Judgement(node: ProblemNode, artifact: Artifact, replies: seq<Reply>): Option<Verdict>
  {
    if DeterministicVerdict(node, artifact).Some? then DeterministicVerdict(node, artifact)
    else
      match Heard(NodeOperation.Verify, replies)
      case Answer(output) => Some(output.verdict)
      case _ => None
  }

  /** What the first verdict does to a node under verification. Without a retry a node is committed only
      by acceptance, and an accepted node is committed with the artifact that was judged. */
  predicate FollowsVerdict(before: ProblemNode, after: ProblemNode, verdict: Verdict, result: Option<ArtifactId>)
  {
    if verdict.Accept? then
      result.Some? && result == before.candidate && after.executionAttempts == before.executionAttempts
    else if AsksForInfo(verdict) then
      result == None && after.status == WaitingForInfo && after.executionAttempts == before.executionAttempts
    else if Terminal(before, verdict.failure) then
      && result == None && after.status == (if OutOfBudget(before) then Rejected else Pruned)
      && after.executionAttempts == before.executionAttempts
    else after.executionAttempts > before.executionAttempts
  }

  /** How a node ends by the last verdict on it. */
  predicate ConcludesAs(verdict: Verdict, node: ProblemNode)
  {
    if verdict.Accept? then node.status == NodeStatus.Committed && node.accepted == node.candidate
    else if AsksForInfo(verdict) then node.status == WaitingForInfo
    else Terminal(node, verdict.failure) && node.status == (if OutOfBudget(node) then Rejected else Pruned)
  }

  predicate LastAttempt(attempts: map<ProblemKey, seq<AttemptRecord>>, key: ProblemKey, attempt: AttemptRecord)
  {
    var log := AttemptsAt(attempts, key);
    log != [] && log[|log| - 1] == attempt
  }

  /** The last record under the node's key is a verification of the node, and it ended accordingly. */
  ghost predicate EndsByVerdict(s: State, n: NodeId)
  {
    n in s.nodes && exists verdict: Verdict ::
      LastAttempt(s.attempts, s.nodes[n].key, AttemptRecord(n, NodeOperation.Verify, Some(verdict)))
      && ConcludesAs(verdict, s.nodes[n])
  }

  /** Attempts are only appended, and only under the given key. */
  ghost predicate AttemptsGrow(before: map<ProblemKey, seq<AttemptRecord>>, after: map<ProblemKey, seq<AttemptRecord>>,
                               key: ProblemKey)
  {
    && AttemptsAt(before, key) <= AttemptsAt(after, key)
    && forall other :: other != key ==> AttemptsAt(after, other) == AttemptsAt(before, other)
  }

  ghost predicate ActsOn(s: State, t: State, n: NodeId, verdict: Verdict, result: Option<ArtifactId>)
  {
    && n in s.nodes && n in t.nodes && t.nodes[n].key == s.nodes[n].key
    && FollowsVerdict(s.nodes[n], t.nodes[n], verdict, result)
    && AttemptsGrow(s.attempts, t.attempts, s.nodes[n].key)
    && (LastAttempt(s.attempts, s.nodes[n].key, AttemptRecord(n, NodeOperation.Verify, Some(verdict))) ==>
          EndsByVerdict(t, n))
  }

  /** A verification: the judgement is the next record under the node's key, the node follows it, and in
      the end it follows the last one. */
  ghost predicate FollowsJudgement(s: State, t: State, n: NodeId, judgement: Option<Verdict>,
                                   result: Option<ArtifactId>)
  {
    && n in s.nodes && n in t.nodes && t.nodes[n].key == s.nodes[n].key && judgement.Some?
    && AttemptsGrow(AttemptRecorded(s, s.nodes[n].key, AttemptRecord(n, NodeOperation.Verify, judgement)).attempts,
                    t.attempts, s.nodes[n].key)
    && FollowsVerdict(s.nodes[n], t.nodes[n], judgement.value, result)
    && EndsByVerdict(t, n)
  }

  lemma JudgementFollowed(s: State, judged: State, t: State, n: NodeId, verdict: Verdict, result: Option<ArtifactId>)
    requires n in s.nodes && n in judged.nodes
    requires judged.nodes[n] == s.nodes[n].(verificationAttempts := judged.nodes[n].verificationAttempts)
    requires judged.attempts
          == AttemptRecorded(s, s.nodes[n].key, AttemptRecord(n, NodeOperation.Verify, Some(verdict))).attempts
    requires ActsOn(judged, t, n, verdict, result)
    ensures FollowsJudgement(s, t, n, Some(verdict), result)
  {
  }

  /** A candidate is committed without a retry exactly if the deterministic checks have nothing against it
      and the agent's verification accepts it, and the verdict is on record under the node's key. */
  lemma CommittedIfAccepted(s: State, t: State, n: NodeId, artifact: Artifact, replies: seq<Reply>,
                            result: Option<ArtifactId>)
    requires n in s.nodes && FollowsJudgement(s, t, n, Judgement(s.nodes[n], artifact, replies), result)
    ensures n in t.nodes
    ensures result.Some? && t.nodes[n].executionAttempts == s.nodes[n].executionAttempts <==>
              && DeterministicVerdict(s.nodes[n], artifact).None?
              && Heard(NodeOperation.Verify, replies) == Answer(Verified(Verdict.Accept))
    ensures
      var attempt := AttemptRecord(n, NodeOperation.Verify, Judgement(s.nodes[n], artifact, replies));
      AttemptsAt(s.attempts, s.nodes[n].key) + [attempt] <= AttemptsAt(t.attempts, s.nodes[n].key)
  {
    hide DeterministicVerdict, EndsByVerdict;
    DeterministicChecks(s.nodes[n], artifact);
  }

  /** The last word: a node that ends by a verdict is committed exactly if the last verdict on record
      accepts, and then with the candidate it was given for. */
  lemma CommittedByLastVerdict(s: State, n: NodeId)
    requires EndsByVerdict(s, n)
    ensures n in s.nodes && AttemptsAt(s.attempts, s.nodes[n].key) != []
    ensures
      var log := AttemptsAt(s.attempts, s.nodes[n].key);
      var last := log[|log| - 1];
      && last.node == n && last.operation == NodeOperation.Verify
      && (s.nodes[n].status == NodeStatus.Committed <==> last.verdict == Some(Verdict.Accept))
      && (last.verdict == Some(Verdict.Accept) ==> s.nodes[n].accepted == s.nodes[n].candidate)
  {
    var verdict: Verdict :| LastAttempt(s.attempts, s.nodes[n].key,
                                        AttemptRecord(n, NodeOperation.Verify, Some(verdict)))
                            && ConcludesAs(verdict, s.nodes[n]);
  }

  lemma JudgementGrows(s: State, t: State, n: NodeId)
    requires exists judgement, result :: FollowsJudgement(s, t, n, judgement, result)
    ensures EndsByVerdict(t, n) && n in s.nodes && AttemptsGrow(s.attempts, t.attempts, s.nodes[n].key)
  {
  }

  lemma SameRouteOn(a: ProblemNode, b: ProblemNode, c: ProblemNode)
    requires SameRoute(a, b) && SameRoute(b, c)
    ensures SameRoute(a, c)
  {
  }

  lemma ActsByWaiting(s: State, t: State, n: NodeId, verdict: Verdict)
    requires n in s.nodes && n in t.nodes && AsksForInfo(verdict) && t.attempts == s.attempts
    requires t.nodes[n] == s.nodes[n].(status := WaitingForInfo)
    ensures ActsOn(s, t, n, verdict, None)
  {
  }

  lemma ActsByCommit(s: State, n: NodeId, a: ArtifactId)
    requires n in s.nodes && s.nodes[n].candidate == Some(a)
    ensures ActsOn(s, CommittedTo(s, n, a), n, Verdict.Accept, Some(a))
  {
  }

  lemma ActsByRejecting(s: State, t: State, n: NodeId, failure: FailureClass, result: Option<ArtifactId>)
    requires n in s.nodes && n in t.nodes && t.nodes[n].key == s.nodes[n].key && !AsksForInfo(Reject(failure))
    requires AttemptsGrow(s.attempts, t.attempts, s.nodes[n].key)
    requires
      if Terminal(s.nodes[n], failure) then
        && t.attempts == s.attempts && result == None
        && t.nodes[n] == s.nodes[n].(status := if OutOfBudget(s.nodes[n]) then Rejected else Pruned)
      else EndsByVerdict(t, n) && s.nodes[n].executionAttempts < t.nodes[n].executionAttempts
    ensures ActsOn(s, t, n, Reject(failure), result)
  {
  }

  /** How the way to a candidate went: by execution there is the artifact of one attempt, which ends the
      node if it is tiny and changed no path; by plan, the agent's plan was adopted, and the node ends
      unless its children delivered. */
  ghost predicate WorkedOn(before: ProblemNode, s: State, n: NodeId, replies: seq<Reply>, answers: seq<Served>,
                           ended: bool)
  {
    && n in s.nodes
    && if before.plan == ExecutePlan then
         && s.nextArtifact in s.artifacts && AttemptOf(s.artifacts[s.nextArtifact], replies, answers)
         && s.artifacts[s.nextArtifact].id == s.nextArtifact
         && s.nodes[n] == ExecutedNode(before, s.artifacts[s.nextArtifact])
         && (ended <==> before.size == Tiny && s.artifacts[s.nextArtifact].change.value.changedPaths == [])
       else
         && AdoptedAnswer(s, n, replies) && (ended <==> !ChildrenDelivered(s.nodes, n))
         && (ended ==> s.nodes[n].status == BlockedStatus(s.nodes, n))
  }

  /** The node's plan is the one the agent answered with; it has a child for each item, and the branches
      of a parallel group were all joined. */
  ghost predicate AdoptedAnswer(s: State, n: NodeId, replies: seq<Reply>)
  {
    && n in s.nodes && s.nodes[n].plan.Group?
    && Heard(NodeOperation.Plan, replies) == Answer(PlannedAs(s.nodes[n].plan.group))
    && |s.nodes[n].children| == |s.nodes[n].plan.group.items|
    && (s.nodes[n].plan.group.mode == Parallel ==> JoinedConcluded(s.nodes, n, {}))
  }

  /** The workspace captures no changed path in the next attempt. */
  predicate CapturesNoPath(answers: seq<Served>)
  {
    var answer := First(Rest(answers));
    answer.Some? && answer.value.Captures? && answer.value.paths == []
  }

  /** How a specified node ends. By execution: a tiny node whose first attempt changed no path is
      committed with that attempt; any other ends by the last verdict on it. By plan: a node whose
      children did not deliver is blocked; any other ends by the last verdict. */
  ghost predicate ResolvedAs(before: ProblemNode, s: State, n: NodeId, replies: seq<Reply>, answers: seq<Served>)
  {
    && n in s.nodes
    && if before.plan == ExecutePlan then
         && s.nodes[n].children == before.children && s.nodes[n].executionAttempts > before.executionAttempts
         && if before.size == Tiny && CapturesNoPath(answers) then
              && s.nodes[n].status == NodeStatus.Committed && s.nodes[n].accepted.Some?
              && s.nodes[n].executionAttempts == before.executionAttempts + 1
              && s.nodes[n].accepted.value in s.artifacts
              && AttemptOf(s.artifacts[s.nodes[n].accepted.value], replies, answers)
            else EndsByVerdict(s, n)
       else
         && AdoptedAnswer(s, n, replies)
         && if ChildrenDelivered(s.nodes, n) then EndsByVerdict(s, n)
            else s.nodes[n].status == BlockedStatus(s.nodes, n)
  }

  /** How a node that is not memoised ends: the agent says how large it is, which decides the route. */
  ghost predicate ResolvedFrom(before: ProblemNode, s: State, n: NodeId, replies: seq<Reply>, answers: seq<Served>)
  {
    && n in s.nodes && Heard(NodeOperation.Specify, replies) == Answer(SpecifiedAs(s.nodes[n].size))
    && ResolvedAs(SpecifiedNode(before, s.nodes[n].size), s, n, Rest(replies), answers)
  }

  lemma ResolvedIs(before: ProblemNode, s: State, n: NodeId, replies: seq<Reply>, answers: seq<Served>)
    requires n in s.nodes && Heard(NodeOperation.Specify, replies) == Answer(SpecifiedAs(s.nodes[n].size))
    requires ResolvedAs(SpecifiedNode(before, s.nodes[n].size), s, n, Rest(replies), answers)
    ensures ResolvedFrom(before, s, n, replies, answers)
  {
  }

  lemma ResolvedStays(before: ProblemNode, s: State, n: NodeId, replies: seq<Reply>, answers: seq<Served>, table: Table)
    requires ResolvedFrom(before, s, n, replies, answers)
    ensures ResolvedFrom(before, s.(resources := table), n, replies, answers)
  {
  }

  lemma WorkedByPlan(before: ProblemNode, s: State, n: NodeId, replies: seq<Reply>, answers: seq<Served>, ended: bool)
    requires before.plan != ExecutePlan && AdoptedAnswer(s, n, replies)
    requires ended <==> !ChildrenDelivered(s.nodes, n)
    requires ended ==> s.nodes[n].status == BlockedStatus(s.nodes, n)
    ensures WorkedOn(before, s, n, replies, answers, ended)
  {
  }

  lemma WorkedByExecution(before: ProblemNode, s: State, n: NodeId, replies: seq<Reply>, answers: seq<Served>)
    requires before.plan == ExecutePlan && n in s.nodes
    requires s.nextArtifact in s.artifacts && AttemptOf(s.artifacts[s.nextArtifact], replies, answers)
    requires s.artifacts[s.nextArtifact].id == s.nextArtifact
    requires s.nodes[n] == ExecutedNode(before, s.artifacts[s.nextArtifact])
    ensures WorkedOn(before, s, n, replies, answers, s.nodes[n].status == NodeStatus.Committed)
  {
  }

  lemma EndedEarly(before: ProblemNode, s: State, n: NodeId, replies: seq<Reply>, answers: seq<Served>)
    requires WorkedOn(before, s, n, replies, answers, true)
    ensures ResolvedAs(before, s, n, replies, answers)
  {
  }

  lemma VerifiedAs(before: ProblemNode, s: State, t: State, n: NodeId, replies: seq<Reply>, answers: seq<Served>)
    requires WorkedOn(before, s, n, replies, answers, false)
    requires n in t.nodes && SameRoute(s.nodes[n], t.nodes[n]) && EndsByVerdict(t, n)
    requires s.nodes[n].executionAttempts <= t.nodes[n].executionAttempts
    requires forall c :: c in s.nodes[n].children ==> c in s.nodes && c in t.nodes && t.nodes[c] == s.nodes[c]
    ensures ResolvedAs(before, t, n, replies, answers)
  {
    SameChildrenSame(s, s, t, n);
  }

  /** What a node that ends without a result keeps as accepted: what it had, or, after a retry of a tiny
      node, the artifact of an attempt that changed nothing. */
  predicate LeftOver(before: ProblemNode, after: ProblemNode, artifacts: map<ArtifactId, Artifact>)
  {
    || after.accepted == before.accepted
    || (&& before.size == Tiny && !OutOfBudget(before) && after.accepted.Some? && after.accepted.value in artifacts
        && artifacts[after.accepted.value].change.Some?
        && artifacts[after.accepted.value].change.value.changedPaths == [])
  }

  // ---- A run of attempts that lead nowhere ----

  function Blanks(k: nat): seq<Reply>
  {
    if k == 0 then [] else [Answer(Executed(""))] + Blanks(k - 1)
  }

  function Idles(k: nat): seq<Served>
  {
    if k == 0 then [] else [Opens([]), Captures([], [], [], [])] + Idles(k - 1)
  }

  predicate BlankCandidate(nodes: map<NodeId, ProblemNode>, artifacts: map<ArtifactId, Artifact>, n: NodeId)
  {
    && n in nodes && nodes[n].size == Tiny && nodes[n].candidate.Some?
    && nodes[n].candidate.value in artifacts && artifacts[nodes[n].candidate.value].text == ""
  }

  predicate BlanksFollow(k: nat, table: Table, checks: nat, replies: seq<Reply>, answers: seq<Served>)
  {
    table == map[] && checks >= k && Blanks(k) <= replies && Idles(k) <= answers
  }

  predicate Slips(limit: nat, table: Table, checks: nat, replies: seq<Reply>, answers: seq<Served>)
  {
    && limit >= 2 && ServesAttempt(table, checks, replies, answers)
    && Heard(NodeOperation.Execute, replies) == Answer(Executed("")) && answers[1].paths != []
    && BlanksFollow(limit - 1, table, checks - 1, Rest(replies), Rest(Rest(answers)))
  }

  /** Such a node ends rejected, and once it was retried it has an accepted artifact all the same. */
  predicate EndsHopeless(before: ProblemNode, after: ProblemNode, r: Outcome<Option<ArtifactId>>)
  {
    && r == Ok(None) && after.status == Rejected
    && (before.accepted.Some? || before.executionAttempts < before.maxAttempts ==> after.accepted.Some?)
  }

  lemma EndsHopelessAfter(before: ProblemNode, between: ProblemNode, after: ProblemNode, r: Outcome<Option<ArtifactId>>)
    ensures between.accepted.Some? && EndsHopeless(between, after, r) ==> EndsHopeless(before, after, r)
  {
  }

  lemma NextBlank(k: nat, table: Table, checks: nat, replies: seq<Reply>, answers: seq<Served>)
    requires k > 0 && BlanksFollow(k, table, checks, replies, answers)
    ensures ServesAttempt(table, checks, replies, answers) && answers[1].paths == []
    ensures Heard(NodeOperation.Execute, replies) == Answer(Executed(""))
    ensures BlanksFollow(k - 1, table, checks - 1, Rest(replies), Rest(Rest(answers)))
  {
    assert Blanks(k)[0] == Answer(Executed("")) && Blanks(k)[1..] == Blanks(k - 1);
    assert Idles(k)[0] == Opens([]) && Idles(k)[1] == Captures([], [], [], []) && Idles(k)[2..] == Idles(k - 1);
    assert answers[1..][0] == answers[1] && Rest(Rest(answers)) == answers[2..];
  }

  lemma BlankVerdict(node: ProblemNode, artifact: Artifact)
    requires artifact.text == ""
    ensures DeterministicVerdict(node, artifact) == Some(Reject(IncompleteOutput))
  {
    assert Trim("") == "";
  }

  /** A retried node is in shape for another verification. */
  lemma RetryReopens(before: ProblemNode, after: ProblemNode, artifact: Artifact)
    requires Shaped(before) && MayReopen(before) && before.candidate.Some? && !OutOfBudget(before)
    requires after == ExecutedNode(before, artifact)
    ensures MayReopen(after) && after.status != New && after.candidate.Some? && SameRoute(before, after)
    ensures after.executionAttempts == before.executionAttempts + 1 && after.maxAttempts == before.maxAttempts
  {
  }

  /** A blank retry commits directly and leaves the blank candidate where it was. */
  lemma BlankRetried(s: State, ls: Ledger, t: State, lt: Ledger, n: NodeId, replies: seq<Reply>, answers: seq<Served>)
    requires BlankCandidate(s.nodes, s.artifacts, n) && Moved(s, ls, t, lt, n) && n in t.nodes
    requires t.nextArtifact in t.artifacts && t.nodes[n] == ExecutedNode(s.nodes[n], t.artifacts[t.nextArtifact])
    requires AttemptOf(t.artifacts[t.nextArtifact], replies, answers) && ServesBare(answers) && answers[1].paths == []
    ensures BlankCandidate(t.nodes, t.artifacts, n) && t.nodes[n].accepted.Some?
  {
  }

  /** The first attempt leaves a blank candidate. */
  lemma SlippedOnce(before: ProblemNode, t: State, n: NodeId, replies: seq<Reply>, answers: seq<Served>)
    requires before.size == Tiny && n in t.nodes
    requires t.nextArtifact in t.artifacts && t.artifacts[t.nextArtifact].id == t.nextArtifact
    requires t.nodes[n] == ExecutedNode(before, t.artifacts[t.nextArtifact])
    requires AttemptOf(t.artifacts[t.nextArtifact], replies, answers) && ServesBare(answers) && answers[1].paths != []
    requires Heard(NodeOperation.Execute, replies) == Answer(Executed(""))
    ensures BlankCandidate(t.nodes, t.artifacts, n) && t.nodes[n].status == NodeStatus.Verifying
  {
  }

  lemma LeftOverSame(before: ProblemNode, judged: ProblemNode, after: ProblemNode, artifacts: map<ArtifactId, Artifact>)
    requires judged == before.(verificationAttempts := judged.verificationAttempts)
    ensures LeftOver(judged, after, artifacts) <==> LeftOver(before, after, artifacts)
  {
  }

  /** A retry and what follows it. */
  lemma LeftOverAfterRetry(before: ProblemNode, s: State, ledger: Ledger, t: State, to: Ledger, n: NodeId)
    requires !OutOfBudget(before) && n in s.nodes && n in t.nodes && Moved(s, ledger, t, to, n)
    requires s.nextArtifact in s.artifacts && s.artifacts[s.nextArtifact].id == s.nextArtifact
    requires s.nodes[n] == ExecutedNode(before, s.artifacts[s.nextArtifact])
    requires LeftOver(s.nodes[n], t.nodes[n], t.artifacts)
    ensures LeftOver(before, t.nodes[n], t.artifacts)
  {
  }

  function RetriesLeft(node: ProblemNode): nat
  {
    if node.executionAttempts < node.maxAttempts then node.maxAttempts - node.executionAttempts else 0
  }

  /** How a finished attempt at a node can end. */
  predicate Settled(node: ProblemNode, result: Option<ArtifactId>)
  {
    match result
    case Some(a) => node.status == NodeStatus.Committed && node.accepted == Some(a)
    case None => node.status == WaitingForInfo || node.status == Rejected || node.status == Pruned
  }

  lemma CandidateExists(s: State, ledger: Ledger, lo: nat, n: NodeId)
    requires Good(s, ledger, lo, n) && s.nodes[n].candidate.Some?
    ensures s.nodes[n].candidate.value in s.artifacts && s.artifacts[s.nodes[n].candidate.value].node == n
  {
    assert Produced(s, n);
  }

  lemma AcceptGood(s: State, ledger: Ledger, lo: nat, n: NodeId, a: ArtifactId, before: ProblemNode)
    requires Good(s, ledger, lo, n) && s.nodes[n].candidate == Some(a) && a in s.artifacts
    requires DeterministicVerdict(before, s.artifacts[a]).None?
    requires before.allowWrite == s.nodes[n].allowWrite && before.workspace == s.nodes[n].workspace
    ensures Good(CommittedTo(s, n, a), ledger, lo, n) && Moved(s, ledger, CommittedTo(s, n, a), ledger, n)
  {
    DeterministicChecks(before, s.artifacts[a]);
    CandidateExists(s, ledger, lo, n);
    assert Acceptable(s, a, s.nodes[n].key);
    hide Good, Moved, Acceptable;
    CommitGood(s, ledger, lo, n, a);
  }

  predicate ChildrenAccepted(nodes: map<NodeId, ProblemNode>, n: NodeId)
  {
    n in nodes && forall k :: 0 <= k < |nodes[n].children| ==>
      nodes[n].children[k] in nodes && nodes[nodes[n].children[k]].accepted.Some?
  }

  predicate CombinesAll(nodes: map<NodeId, ProblemNode>, n: NodeId, artifact: Artifact)
    requires ChildrenAccepted(nodes, n)
  {
    && |artifact.children| == |nodes[n].children|
    && forall k :: 0 <= k < |nodes[n].children| ==> nodes[nodes[n].children[k]].accepted == Some(artifact.children[k])
  }

  /** The changes the given artifacts carry, in order. */
  function ChangesOf(artifacts: map<ArtifactId, Artifact>, inputs: seq<ArtifactId>): seq<Change>
  {
    if inputs == [] then []
    else
      var last := inputs[|inputs| - 1];
      ChangesOf(artifacts, inputs[..|inputs| - 1])
        + (if last in artifacts && artifacts[last].change.Some? then [artifacts[last].change.value] else [])
  }

  lemma OneMoreInput(artifacts: map<ArtifactId, Artifact>, inputs: seq<ArtifactId>, a: ArtifactId)
    requires a in artifacts
    ensures ChangesOf(artifacts, inputs + [a])
         == ChangesOf(artifacts, inputs) + (if artifacts[a].change.Some? then [artifacts[a].change.value] else [])
  {
    assert (inputs + [a])[..|inputs|] == inputs;
  }

  predicate CarriesChange(artifacts: map<ArtifactId, Artifact>, a: ArtifactId)
  {
    a in artifacts && artifacts[a].change.Some?
  }

  /** The changes are those of the inputs that have one, every one of them, in the order of the inputs. */
  lemma {:induction false} ChangesInOrder(artifacts: map<ArtifactId, Artifact>, inputs: seq<ArtifactId>)
    returns (at: seq<nat>)
    ensures |at| == |ChangesOf(artifacts, inputs)|
    ensures forall j, k :: 0 <= j < k < |at| ==> at[j] < at[k]
    ensures forall k :: 0 <= k < |at| ==>
              && at[k] < |inputs| && CarriesChange(artifacts, inputs[at[k]])
              && ChangesOf(artifacts, inputs)[k] == artifacts[inputs[at[k]]].change.value
    ensures forall i :: 0 <= i < |inputs| && CarriesChange(artifacts, inputs[i]) ==> i in at
    decreases |inputs|
  {
    if inputs == [] {
      at := [];
    } else {
      var last := |inputs| - 1;
      at := ChangesInOrder(artifacts, inputs[..last]);
      if CarriesChange(artifacts, inputs[last]) {
        at := at + [last];
      }
    }
  }

  lemma ChildInputsExist(s: State, ledger: Ledger, lo: nat, n: NodeId)
    requires Good(s, ledger, lo, n) && ChildrenAccepted(s.nodes, n)
    ensures forall k :: 0 <= k < |s.nodes[n].children| ==> s.nodes[s.nodes[n].children[k]].accepted.value in s.artifacts
  {
    ContextComplete(s, lo, n);
  }

  predicate InsertedAs(parent: ProblemNode, item: NodeTemplate, id: NodeId, nodes: map<NodeId, ProblemNode>)
  {
    && InheritChildDefaults(parent, item).Ok?
    && id in nodes && nodes[id] == NewNode(id, Some(parent.id), InheritChildDefaults(parent, item).value)
  }

  /** One child per item, in order, exactly as inherited from the parent. */
  ghost predicate InsertedFrom(parent: ProblemNode, items: seq<NodeTemplate>, first: NodeId,
                               nodes: map<NodeId, ProblemNode>)
  {
    forall k :: 0 <= k < |items| ==> InsertedAs(parent, items[k], first + k, nodes)
  }

  ghost predicate PlannedFrom(before: ProblemNode, n: NodeId, first: NodeId, s: State)
  {
    && first <= s.nextNode + 1 && n in s.nodes && s.nodes[n].plan.Group?
    && s.nodes[n] == before.(plan := s.nodes[n].plan, children := Range(first, s.nextNode), status := Planned)
    && FreshChildren(s, n, first)
    && InsertedFrom(before.(plan := s.nodes[n].plan), s.nodes[n].plan.group.items, first, s.nodes)
    && |s.nodes[n].plan.group.items| == |s.nodes[n].children|
  }

  predicate PlanFits(parent: ProblemNode, output: Output)
  {
    output.PlannedAs? && Inheritable(parent, output.group.items)
  }

  lemma InheritableAlike(a: ProblemNode, b: ProblemNode, items: seq<NodeTemplate>)
    requires SameIdentity(a, b)
    ensures Inheritable(a, items) <==> Inheritable(b, items)
  {
    forall k | 0 <= k < |items| ensures InheritChildDefaults(a, items[k]) == InheritChildDefaults(b, items[k]) {
      InheritsAlike(a, b, items[k]);
    }
  }

  lemma InsertedFollows(parent: ProblemNode, adopted: ProblemNode, item: NodeTemplate, id: NodeId,
                        nodes: map<NodeId, ProblemNode>)
    requires InsertedAs(parent, item, id, nodes) && SameIdentity(parent, adopted)
    ensures id in nodes && FollowsPlan(adopted, item, nodes[id])
  {
    hide InheritChildDefaults;
    InheritsAlike(parent, adopted, item);
  }

  lemma AdoptedGrouped(s: State, n: NodeId, first: NodeId, items: seq<NodeTemplate>)
    requires n in s.nodes && n < first <= s.nextNode + 1 && |items| == s.nextNode + 1 - first
    requires s.nodes[n].plan.Group? && s.nodes[n].plan.group.items == items
    requires InsertedFrom(s.nodes[n], items, first, s.nodes)
    ensures Grouped(Adopted(s, n, first), n)
  {
    hide InsertedAs, FollowsPlan;
    var t := Adopted(s, n, first);
    forall k | 0 <= k < |items|
      ensures t.nodes[n].children[k] in t.nodes && FollowsPlan(t.nodes[n], items[k], t.nodes[t.nodes[n].children[k]])
    {
      assert InsertedAs(s.nodes[n], items[k], first + k, s.nodes);
      InsertedFollows(s.nodes[n], t.nodes[n], items[k], first + k, s.nodes);
    }
  }

  lemma PlanSetGood(s: State, ledger: Ledger, lo: nat, n: NodeId, group: PlanGroup)
    requires Good(s, ledger, lo, n) && s.nodes[n].status != New && s.nodes[n].children == []
    ensures var t := NodeSet(s, n, s.nodes[n].(plan := Group(group)));
      Good(t, ledger, lo, n) && Moved(s, ledger, t, ledger, n)
  {
    hide Good, Moved;
    GoodHas(s, ledger, lo, n);
    ProgressGood(s, ledger, lo, n, s.nodes[n].(plan := Group(group)));
  }

  lemma ParentId(s: State, ledger: Ledger, lo: nat, n: NodeId)
    requires Good(s, ledger, lo, n)
    ensures s.nodes[n].id == n && s.nextNode + 1 !in s.nodes && n <= s.nextNode
  {
  }

  lemma NoChildrenYet(s: State, ledger: Ledger, lo: nat, n: NodeId)
    requires Good(s, ledger, lo, n)
    ensures FreshChildren(s, n, s.nextNode + 1)
  {
  }

  lemma InsertFresh(s: State, ledger: Ledger, lo: nat, n: NodeId, first: NodeId, template: NodeTemplate)
    requires Good(s, ledger, lo, n) && first <= s.nextNode + 1 && FreshChildren(s, n, first)
    ensures FreshChildren(NodeInserted(s, Some(n), template), n, first)
  {
  }

  lemma InsertedNothing(parent: ProblemNode, items: seq<NodeTemplate>, first: NodeId, nodes: map<NodeId, ProblemNode>)
    ensures items == [] ==> InsertedFrom(parent, items, first, nodes)
  {
  }

  lemma InsertedHere(parent: ProblemNode, item: NodeTemplate, id: NodeId, before: map<NodeId, ProblemNode>)
    requires InheritChildDefaults(parent, item).Ok?
    ensures var node := NewNode(id, Some(parent.id), InheritChildDefaults(parent, item).value);
      InsertedAs(parent, item, id, before[id := node])
  {
  }

  lemma InsertedStays(parent: ProblemNode, item: NodeTemplate, id: NodeId, before: map<NodeId, ProblemNode>,
                      other: NodeId, node: ProblemNode)
    requires InsertedAs(parent, item, id, before) && other != id
    ensures InsertedAs(parent, item, id, before[other := node])
  {
  }

  lemma InsertedOneMore(parent: ProblemNode, items: seq<NodeTemplate>, i: nat, first: NodeId,
                        before: map<NodeId, ProblemNode>, node: ProblemNode)
    requires i < |items| && InsertedFrom(parent, items[..i], first, before)
    requires InsertedAs(parent, items[i], first + i, before[first + i := node])
    ensures InsertedFrom(parent, items[..i + 1], first, before[first + i := node])
  {
    hide InsertedAs;
    var upTo := items[..i + 1];
    forall k | 0 <= k < |upTo|
      ensures InsertedAs(parent, upTo[k], first + k, before[first + i := node])
    {
      if k < i {
        assert items[..i][k] == upTo[k];
        InsertedStays(parent, upTo[k], first + k, before, first + i, node);
      }
    }
  }

  lemma PlannedIs(before: ProblemNode, n: NodeId, first: NodeId, s: State, group: PlanGroup)
    requires first <= s.nextNode + 1 && n in s.nodes && s.nodes[n] == before.(plan := Group(group))
    requires FreshChildren(s, n, first) && s.nextNode + 1 == first + |group.items|
    requires InsertedFrom(s.nodes[n], group.items, first, s.nodes)
    ensures PlannedFrom(before, n, first, Adopted(s, n, first))
  {
  }

  lemma MergeReadyIs(s: State, lo: nat, c: NodeId, b: State, ledger: Ledger)
    requires MergeReady(s, lo, c, b, ledger)
    ensures Mergeable(s, lo, c, b)
  {
    hide Mergeable, ResourcesOk;
  }

  lemma MergeReadyMaps(s: State, lo: nat, c: NodeId, b: State, ledger: Ledger, nodeIds: seq<nat>, nm: IdMap,
                       lastNode: nat, artifactIds: seq<nat>, am: IdMap, lastArtifact: nat)
    requires MergeReady(s, lo, c, b, ledger)
    requires Ascending(nodeIds) && forall id :: id in nodeIds <==> id in b.nodes.Keys
    requires c <= b.nextNode && nodeIds == Range(c, b.nextNode) ==>
      && lastNode == s.nextNode + b.nextNode - c
      && forall i :: (i in nm <==> c <= i <= b.nextNode) && (i in nm ==> nm[i] == ShiftNode(s.nextNode, c, i))
    requires Ascending(artifactIds) && forall id :: id in artifactIds <==> id in b.artifacts.Keys
    requires artifactIds == Range(1, b.nextArtifact) ==>
      && lastArtifact == s.nextArtifact + b.nextArtifact
      && forall i :: (i in am <==> 1 <= i <= b.nextArtifact) && (i in am ==> am[i] == ShiftArtifact(s.nextArtifact, i))
    ensures nm == NodesOf(s, c, b) && lastNode == Merged(s, c, b).nextNode
    ensures am == ArtifactsOf(s, b) && lastArtifact == Merged(s, c, b).nextArtifact
  {
    hide Mergeable, ResourcesOk, Merged, NodesOf, ArtifactsOf, Ascending;
    BranchNodeMap(s, lo, c, b, nodeIds, nm, lastNode);
    BranchArtifactMap(s, lo, c, b, artifactIds, am, lastArtifact);
  }

  // ---- Children ----

  /** The most agent runs one node can need: specify, plan, combine, then one execution and one
      verification per attempt, and the verification of the combination. */
  function Quota(node: ProblemNode): nat { 4 + 2 * AttemptLimit(node) }

  function Times(q: nat, k: int): int { q * k }

  lemma TimesNothing(q: nat)
    ensures Times(q, 0) == 0
  {
  }

  lemma TimesMore(q: nat, a: int, b: int)
    ensures Times(q, a) + Times(q, b) == Times(q, a + b)
  {
    assert q * a + q * b == q * (a + b);
  }

  lemma TimesGrows(q: nat, a: int, b: int)
    requires a <= b
    ensures Times(q, a) <= Times(q, b)
  {
    assert q * a <= q * b;
  }

  function BlockedStatus(nodes: map<NodeId, ProblemNode>, n: NodeId): NodeStatus
    requires n in nodes
  {
    if exists k :: 0 <= k < |nodes[n].children| && nodes[n].children[k] in nodes
                   && nodes[nodes[n].children[k]].status == WaitingForInfo
    then WaitingForInfo else Pruned
  }

  predicate SomeChildWaits(nodes: map<NodeId, ProblemNode>, children: seq<NodeId>)
  {
    exists c :: c in children && c in nodes && nodes[c].status == WaitingForInfo
  }

  lemma WaitsIfBlocked(nodes: map<NodeId, ProblemNode>, n: NodeId)
    requires n in nodes
    ensures BlockedStatus(nodes, n) == if SomeChildWaits(nodes, nodes[n].children) then WaitingForInfo else Pruned
  {
    forall c | c in nodes[n].children ensures exists k :: 0 <= k < |nodes[n].children| && nodes[n].children[k] == c {
    }
  }

  predicate ChildrenCommitted(nodes: map<NodeId, ProblemNode>, n: NodeId)
  {
    n in nodes && forall k :: 0 <= k < |nodes[n].children| ==>
      nodes[n].children[k] in nodes && nodes[nodes[n].children[k]].status == NodeStatus.Committed
  }

  /** The node's run has ended. */
  predicate Concluded(node: ProblemNode)
  {
    || (node.status == NodeStatus.Committed && node.accepted.Some?)
    || node.status == WaitingForInfo || node.status == Rejected || node.status == Pruned
  }

  /** The branches of all children that are not pending were joined. */
  ghost predicate JoinedConcluded(nodes: map<NodeId, ProblemNode>, n: NodeId, pending: set<NodeId>)
  {
    n in nodes && forall c :: c in nodes[n].children && c !in pending ==> c in nodes && Concluded(nodes[c])
  }

  lemma NoneJoined(nodes: map<NodeId, ProblemNode>, n: NodeId)
    requires n in nodes
    ensures JoinedConcluded(nodes, n, SetOf(nodes[n].children))
  {
  }

  lemma OneMoreConcluded(before: map<NodeId, ProblemNode>, after: map<NodeId, ProblemNode>, n: NodeId, c: NodeId,
                         pending: set<NodeId>)
    requires n in before && n in after && after[n] == before[n] && c in after && Concluded(after[c])
    requires forall o :: o in before[n].children && o != c ==> o in after && o in before && after[o] == before[o]
    ensures JoinedConcluded(before, n, pending) ==> JoinedConcluded(after, n, pending - {c})
  {
  }

  lemma MergedConcluded(p: State, lo: nat, c: NodeId, b: State, ledger: Ledger)
    requires MergeReady(p, lo, c, b, ledger) && c in b.nodes && Concluded(b.nodes[c])
    ensures c <= b.nextNode && c <= p.nextNode
    ensures c in Merged(p, c, b).nodes && Concluded(Merged(p, c, b).nodes[c])
  {
    MergeReadyIs(p, lo, c, b, ledger);
    MergedNodeAt(p, lo, c, b, c);
    hide Merged, NodesOf, ArtifactsOf;
  }

  lemma SettledUncommitted(nodes: map<NodeId, ProblemNode>, n: NodeId, i: nat)
    requires n in nodes && i < |nodes[n].children| && nodes[n].children[i] in nodes
    requires Settled(nodes[nodes[n].children[i]], None)
    ensures !ChildrenCommitted(nodes, n)
  {
  }

  /** The children delivered what the parent waits for: a stage goes on after committed children only, a
      parallel group looks for accepted artifacts at the end. */
  predicate ChildrenDelivered(nodes: map<NodeId, ProblemNode>, n: NodeId)
  {
    && n in nodes && nodes[n].plan.Group?
    && if nodes[n].plan.group.mode == Stage then ChildrenCommitted(nodes, n) else ChildrenAccepted(nodes, n)
  }

  /** The children of `n` were created after `s0`; the pending ones have not started. */
  ghost predicate Unstarted(s0: State, s: State, n: NodeId, pending: set<NodeId>)
  {
    n in s.nodes && forall c :: c in s.nodes[n].children ==>
      c in s.nodes && c !in s0.nodes && (c in pending ==> Untouched(s.nodes[c]))
  }

  /** A child may start when its predecessors in a stage are committed and its successors new. */
  lemma ChildReady(s0: State, s: State, ledger: Ledger, lo: nat, n: NodeId, i: nat, pending: set<NodeId>)
    requires Good(s, ledger, lo, n) && i < |s.nodes[n].children| && s.nodes[n].children[i] in pending
    requires Unstarted(s0, s, n, pending) && s.nodes[n].plan.Group?
    requires s.nodes[n].plan.group.mode == Stage ==>
      && (forall k :: i <= k < |s.nodes[n].children| ==> s.nodes[n].children[k] in pending)
      && (forall k :: 0 <= k < i ==>
            s.nodes[n].children[k] in s.nodes && s.nodes[s.nodes[n].children[k]].status == NodeStatus.Committed)
    ensures var c := s.nodes[n].children[i];
      && c in s.nodes && Good(s, ledger, lo, c) && Untouched(s.nodes[c]) && s.nodes[c].parent == Some(n)
      && Quota(s.nodes[c]) == Quota(s.nodes[n])
  {
    hide ResourcesOk, Produced, Staged, Grouped, ArtifactOk, MemoOk, LogsOk;
    var children := s.nodes[n].children;
    assert forall k :: 0 <= k < |children| ==> children[k] in children;
    assert Linked(s, n) && Linked(s, children[i]);
  }

  lemma ChildDone(s0: State, l0: Ledger, s: State, ledger: Ledger, lo: nat, n: NodeId, t: State, to: Ledger,
                  c: NodeId, pending: set<NodeId>)
    requires Good(s, ledger, lo, n) && Unstarted(s0, s, n, pending) && c in s.nodes[n].children
    requires s.nodes[c].parent == Some(n)
    requires Good(t, to, lo, c) && Kept(s, t, c) && TableStep(s.resources, ledger, t.resources, to)
    requires Moved(s0, l0, s, ledger, n)
    ensures n in t.nodes && Good(t, to, lo, n) && Moved(s0, l0, t, to, n) && t.nodes[n] == s.nodes[n]
    ensures Unstarted(s0, t, n, pending - {c})
    ensures s.nextNode <= t.nextNode
    ensures forall o :: o in s.nodes[n].children && o != c ==>
              o in s.nodes && o in t.nodes && t.nodes[o] == s.nodes[o]
  {
    hide Good, TableStep;
    ChildMoved(s, ledger, lo, n, t, to, c);
    KeptTransitive(s0, s, t, n, c);
    TableStepTransitive(s0.resources, l0, s.resources, ledger, t.resources, to);
  }

  lemma UnstartedLess(s0: State, s: State, n: NodeId, pending: set<NodeId>)
    requires Unstarted(s0, s, n, pending)
    ensures Unstarted(s0, s, n, {})
  {
  }

  lemma UnstartedSame(s0: State, s: State, t: State, n: NodeId, pending: set<NodeId>)
    requires Unstarted(s0, s, n, pending) && t.nodes == s.nodes
    ensures Unstarted(s0, t, n, pending)
  {
  }

  lemma MovedParts(s: State, ledger: Ledger, t: State, to: Ledger, n: NodeId)
    requires Moved(s, ledger, t, to, n)
    ensures Kept(s, t, n) && TableStep(s.resources, ledger, t.resources, to)
  {
  }

  /** The first `i` children are committed, the others have not started. */
  ghost predicate InStageTurn(nodes: map<NodeId, ProblemNode>, n: NodeId, i: nat, pending: set<NodeId>)
  {
    && n in nodes && nodes[n].plan.Group? && nodes[n].plan.group.mode == Stage
    && (forall k :: i <= k < |nodes[n].children| ==> nodes[n].children[k] in pending)
    && (forall k :: 0 <= k < i && k < |nodes[n].children| ==>
          nodes[n].children[k] in nodes && nodes[nodes[n].children[k]].status == NodeStatus.Committed)
  }

  lemma StageStarts(s0: State, s: State, n: NodeId, pending: set<NodeId>)
    requires n in s.nodes && s.nodes[n].plan.Group? && s.nodes[n].plan.group.mode == Stage
    requires pending == SetOf(s.nodes[n].children)
    ensures InStageTurn(s.nodes, n, 0, pending)
  {
  }

  lemma StageEnds(s0: State, s: State, n: NodeId, pending: set<NodeId>)
    requires n in s.nodes && InStageTurn(s.nodes, n, |s.nodes[n].children|, pending)
    ensures ChildrenCommitted(s.nodes, n)
  {
  }

  lemma StageChildReady(s0: State, s: State, ledger: Ledger, lo: nat, n: NodeId, i: nat, pending: set<NodeId>)
    requires Good(s, ledger, lo, n) && Unstarted(s0, s, n, pending)
    requires InStageTurn(s.nodes, n, i, pending) && i < |s.nodes[n].children|
    ensures var c := s.nodes[n].children[i];
      && c in s.nodes && Good(s, ledger, lo, c) && Untouched(s.nodes[c]) && s.nodes[c].parent == Some(n)
      && Quota(s.nodes[c]) == Quota(s.nodes[n]) && c in s.nodes[n].children
  {
    hide Good;
    ChildReady(s0, s, ledger, lo, n, i, pending);
  }

  lemma StageAdvances(s0: State, s: State, ledger: Ledger, lo: nat, n: NodeId, i: nat, pending: set<NodeId>, t: State)
    requires Good(s, ledger, lo, n) && InStageTurn(s.nodes, n, i, pending) && i < |s.nodes[n].children|
    requires var c := s.nodes[n].children[i];
      && n in t.nodes && t.nodes[n] == s.nodes[n] && c in t.nodes && t.nodes[c].status == NodeStatus.Committed
      && forall o :: o in s.nodes[n].children && o != c ==> o in t.nodes && t.nodes[o] == s.nodes[o]
    ensures InStageTurn(t.nodes, n, i + 1, pending - {s.nodes[n].children[i]})
  {
    hide Good;
    ChildrenDistinct(s, ledger, lo, n);
    var children := s.nodes[n].children;
    forall k | 0 <= k < i + 1 && k < |children|
      ensures children[k] in t.nodes && t.nodes[children[k]].status == NodeStatus.Committed
    {
      assert children[k] in children;
    }
  }

  lemma ChildrenExist(s0: State, s: State, n: NodeId, pending: set<NodeId>)
    requires Unstarted(s0, s, n, pending)
    ensures n in s.nodes && forall k :: 0 <= k < |s.nodes[n].children| ==> s.nodes[n].children[k] in s.nodes
  {
    assert forall k :: 0 <= k < |s.nodes[n].children| ==> s.nodes[n].children[k] in s.nodes[n].children;
  }

  lemma MovedForward(s: State, ledger: Ledger, t: State, to: Ledger, n: NodeId)
    requires Moved(s, ledger, t, to, n)
    ensures s.nextNode <= t.nextNode && s.runs <= t.runs && s.events <= t.events
    ensures n in s.nodes ==> n in t.nodes && SameIdentity(s.nodes[n], t.nodes[n])
  {
  }

  lemma TimesOnce(node: ProblemNode, k: nat)
    ensures 4 + 2 * AttemptLimit(node) + Times(Quota(node), k) == Times(Quota(node), 1 + k)
    ensures Times(Quota(node), 1 + k) >= 0
  {
    TimesMore(Quota(node), 1, k);
  }

  lemma MemoGood(s: State, ledger: Ledger, lo: nat, n: NodeId)
    requires Good(s, ledger, lo, n) && s.nodes[n].key in s.memo
    ensures var a := s.memo[s.nodes[n].key];
      && Good(CommittedTo(s, n, a), ledger, lo, n) && Moved(s, ledger, CommittedTo(s, n, a), ledger, n)
  {
    assert Acceptable(s, s.memo[s.nodes[n].key], s.nodes[n].key);
    hide Good, Moved, Acceptable;
    CommitGood(s, ledger, lo, n, s.memo[s.nodes[n].key]);
  }

  lemma CommitSettles(s: State, n: NodeId, a: ArtifactId)
    requires n in s.nodes
    ensures Settled(CommittedTo(s, n, a).nodes[n], Some(a))
  {
  }

  lemma BlockedSettles(nodes: map<NodeId, ProblemNode>, n: NodeId)
    requires n in nodes && nodes[n].status == BlockedStatus(nodes, n)
    ensures Settled(nodes[n], None)
  {
  }

  lemma PlannedUnstarted(s0: State, l0: Ledger, lo: nat, n: NodeId, s1: State)
    requires Good(s0, l0, lo, n) && n in s1.nodes && PlannedFrom(s0.nodes[n], n, s0.nextNode + 1, s1)
    ensures Unstarted(s0, s1, n, SetOf(s1.nodes[n].children))
    ensures |s1.nodes[n].children| == s1.nextNode - s0.nextNode
    ensures s1.nodes[n].plan.Group? && |s1.nodes[n].children| == |s1.nodes[n].plan.group.items|
    ensures s1.nodes[n].status == Planned && s1.nodes[n].plan.Group? && Quota(s1.nodes[n]) == Quota(s0.nodes[n])
    ensures s1.nodes[n].executionAttempts == s0.nodes[n].executionAttempts && s1.nodes[n].size == s0.nodes[n].size
  {
    hide Linked, Produced, Staged, Grouped, ArtifactOk, MemoOk, LogsOk, ResourcesOk, InTurn, InsertedFrom;
    var children := s1.nodes[n].children;
    forall c | c in children
      ensures c in s1.nodes && c !in s0.nodes && Untouched(s1.nodes[c])
    {
      var k :| 0 <= k < |children| && children[k] == c;
    }
  }

  lemma CombinedFrom(s0: State, s: State, ledger: Ledger, t: State, to: Ledger, lo: nat, n: NodeId)
    requires Good(s, ledger, lo, n) && Moved(s, ledger, t, to, n) && ChildrenAccepted(s.nodes, n)
    requires n in t.nodes && t.nodes[n].children == s.nodes[n].children && t.nodes[n].plan == s.nodes[n].plan
    requires t.nodes[n].candidate.Some? && t.nodes[n].candidate.value in t.artifacts
    requires CombinesAll(s.nodes, n, t.artifacts[t.nodes[n].candidate.value])
    ensures ChildrenAccepted(t.nodes, n) && CombinesAll(t.nodes, n, t.artifacts[t.nodes[n].candidate.value])
    ensures ChildrenDelivered(t.nodes, n) <==> ChildrenDelivered(s.nodes, n)
    ensures JoinedConcluded(t.nodes, n, {}) <==> JoinedConcluded(s.nodes, n, {})
  {
    ChildrenSame(s, ledger, t, to, lo, n);
    hide Good, Moved;
    SameChildrenSame(s0, s, t, n);
    forall k | 0 <= k < |s.nodes[n].children|
      ensures t.nodes[s.nodes[n].children[k]] == s.nodes[s.nodes[n].children[k]]
    {
      assert s.nodes[n].children[k] in s.nodes[n].children;
    }
  }

  // ---- Whole runs ----

  ghost predicate EngineOk(s: State, ledger: Ledger)
  {
    StoreOk(s, 1) && ResourcesOk(s, ledger, 1)
  }

  lemma EmptyEngineOk(ledger: Ledger)
    requires forall id :: id > ledger.issued ==> ledger.cleaned[id] == 0
    ensures EngineOk(State(0, 0, map[], map[], map[], map[], [], [], map[]), ledger)
  {
  }

  lemma RootKept(s: State, template: NodeTemplate)
    requires Numbered(s, 1)
    ensures var t := NodeInserted(s, None, template);
      && Kept(s, t, t.nextNode) && Numbered(t, 1) && t.nextNode !in s.nodes
      && Linked(t, t.nextNode) && Produced(t, t.nextNode) && Staged(t, t.nextNode) && InTurn(t, t.nextNode)
      && Grouped(t, t.nextNode)
      && (LogsOk(s) ==> LogsOk(t))
  {
  }

  lemma RootStaged(s: State, template: NodeTemplate, i: NodeId)
    requires i in s.nodes && Staged(s, i) && Linked(s, i) && s.nextNode + 1 !in s.nodes
    ensures Staged(NodeInserted(s, None, template), i)
  {
  }

  lemma RootStore(s: State, template: NodeTemplate)
    requires StoreOk(s, 1)
    ensures StoreOk(NodeInserted(s, None, template), 1)
  {
    hide Linked, Produced, Staged, Grouped, ArtifactOk, LogsOk, Acceptable, Kept, Numbered, InTurn;
    RootKept(s, template);
    var t := NodeInserted(s, None, template);
    forall i | i in t.nodes ensures Linked(t, i) && Produced(t, i) && Staged(t, i) && Grouped(t, i) {
      if i != t.nextNode {
        LinkedKept(s, t, 1, t.nextNode, i);
        ProducedKept(s, t, t.nextNode, i);
        RootStaged(s, template, i);
        GroupedKept(s, t, t.nextNode, i);
      }
    }
    forall a | a in t.artifacts ensures ArtifactOk(t, a) {
      ArtifactOkKept(s, t, t.nextNode, a);
    }
    forall key | key in t.memo ensures Acceptable(t, t.memo[key], key) {
      AcceptableKept(s, t, t.nextNode, t.memo[key], key);
    }
  }

  lemma RootGood(s: State, ledger: Ledger, template: NodeTemplate)
    requires EngineOk(s, ledger)
    ensures var t := NodeInserted(s, None, template);
      EngineOk(t, ledger) && Good(t, ledger, 1, t.nextNode) && Untouched(t.nodes[t.nextNode])
  {
    RootKept(s, template);
    hide StoreOk, Numbered, Kept, Linked, Produced, Staged, Grouped, InTurn;
    var t := NodeInserted(s, None, template);
    RootStore(s, template);
    KeptIsHeld(s, 1, t, ledger, ledger);
  }

  datatype Report = Report(
    root: NodeId,
    status: NodeStatus,
    artifact: Option<ArtifactId>,
    artifactText: Option<string>,
    events: seq<OperationEvent>,
    runs: seq<RunRecord>)

  /** The report agrees with the engine: the root's status, and the text of the delivered artifact. */
  ghost predicate ReportsOn(s: State, root: NodeId, report: Report)
  {
    && report.root == root && root in s.nodes && report.status == s.nodes[root].status
    && report.events == s.events && report.runs == s.runs
    && match report.artifact
       case None => report.artifactText == None
       case Some(a) => a in s.artifacts && report.artifactText == Some(s.artifacts[a].text)
  }

  /** Nothing the engine ever tracked is left behind, and nothing was cleaned up twice. */
  ghost predicate AllReleased(table: Table, cleaned: multiset<ResourceId>)
  {
    forall id :: id in table ==> table[id].state == Released && cleaned[id] == 1
  }

  lemma GoodParts(s: State, ledger: Ledger, t: State, to: Ledger, lo: nat, n: NodeId)
    requires Good(t, to, lo, n) && Moved(s, ledger, t, to, n)
    ensures StoreOk(t, lo) && Kept(s, t, n) && TableOk(t.resources, to, lo, t.nextNode, t.nextArtifact)
  {
  }

  lemma UnreferencedOk(table: Table, ledger: Ledger, lo: nat, nodes: nat, artifacts: nat)
    requires TableOk(table, ledger, lo, nodes, artifacts)
    ensures TableOk(Unreferenced(table), ledger, lo, nodes, artifacts)
    ensures NoFailures(table) ==> NoFailures(Unreferenced(table))
    ensures forall id :: id in Unreferenced(table) ==> Unreferenced(table)[id].refs == []
  {
  }

  lemma ResourcesDone(s0: State, s: State, lo: nat, n: NodeId, table: Table)
    requires StoreOk(s, lo) && n in s.nodes && Kept(s0, s, n)
    ensures StoreOk(s.(resources := table), lo) && Kept(s0, s.(resources := table), n)
  {
    hide StoreOk;
    UpdateResources(s, lo, n, table);
  }

  lemma AllCleaned(table: Table, ledger: Ledger, lo: nat, nodes: nat, artifacts: nat)
    requires TableOk(table, ledger, lo, nodes, artifacts) && NoFailures(table)
    requires forall id :: id in table ==> table[id].refs == []
    requires forall id :: !Releasable(table, id)
    ensures AllReleased(table, ledger.cleaned)
  {
    forall id | id in table
      ensures table[id].state == Released && ledger.cleaned[id] == 1
    {
      assert !Releasable(table, id);
    }
  }

  lemma NoneActive(table: Table)
    requires forall id :: id in table ==> table[id].refs == []
    requires forall id :: !Releasable(table, id)
    ensures forall id :: id in table ==> table[id].state != Active
  {
    forall id | id in table ensures table[id].state != Active {
      assert !Releasable(table, id);
    }
  }

  lemma SettledArtifact(s: State, lo: nat, n: NodeId, result: Option<ArtifactId>)
    requires StoreOk(s, lo) && n in s.nodes && Settled(s.nodes[n], result)
    ensures result.Some? ==> result.value in s.artifacts
  {
    assert Produced(s, n);
  }

  lemma BranchStarts(s: State, ledger: Ledger, lo: nat, c: NodeId)
    requires Good(s, ledger, lo, c)
    ensures var b := BranchState(s.nodes[c]);
      c in b.nodes && b.nodes[c] == s.nodes[c] && b.nextNode == c && Tidy(b.resources)
  {
  }

  lemma BranchIds(s: State, ledger: Ledger, lo: nat, c: NodeId)
    requires Good(s, ledger, lo, c)
    ensures s.nodes[c].id == c && BranchState(s.nodes[c]).nextNode == c
  {
  }

  /** A branch that ran in its private engine can be merged, whatever happened in it. */
  lemma BranchMergeable(s: State, ledger: Ledger, lo: nat, c: NodeId, b: State, to: Ledger)
    requires Good(s, ledger, lo, c) && Good(b, to, c, c) && Untouched(s.nodes[c])
    requires Moved(BranchState(s.nodes[c]), ledger, b, to, c)
    ensures MergeReady(s, lo, c, b, to) && LedgerStep(map[], ledger, b.resources, to)
    ensures Accounted(b.resources, to)
  {
    BranchIds(s, ledger, lo, c);
    GoodTable(s, ledger, lo, c);
    GoodTable(b, to, c, c);
    hide StoreOk, ResourcesOk, InTurn, Keeps, RefsKnown;
  }

  /** A merge brings in no temporary reference the branch did not have. */
  lemma MergedTidy(s: State, lo: nat, c: NodeId, b: State)
    requires Mergeable(s, lo, c, b) && c <= b.nextNode && c <= s.nextNode
    requires Tidy(s.resources) && Tidy(b.resources)
    ensures Tidy(Merged(s, c, b).resources)
  {
    hide Merged, NodesOf, ArtifactsOf, Linked, Produced, Staged, Grouped, ArtifactOk, MemoOk, LogsOk, InTurn,
         SameIdentity;
    var f := Merged(s, c, b);
    forall id | id in f.resources
      ensures f.resources[id].state != FailedCleanup && forall ref :: ref in f.resources[id].refs ==> Lasting(ref)
    {
      MergedResourceAt(s, c, b, id);
      if id in b.resources {
        RenamedLasting(b.resources[id], NodesOf(s, c, b), ArtifactsOf(s, b));
      }
    }
  }

  lemma RenamedLasting(resource: Resource, nm: IdMap, am: IdMap)
    requires forall ref :: ref in resource.refs ==> Lasting(ref)
    ensures RenameResource(resource, nm, am).state == resource.state
    ensures forall ref :: ref in RenameResource(resource, nm, am).refs ==> Lasting(ref)
  {
    var renamed := RenameResource(resource, nm, am);
    forall ref | ref in renamed.refs ensures Lasting(ref) {
      var k :| 0 <= k < |renamed.refs| && renamed.refs[k] == ref;
      assert Lasting(resource.refs[k]);
    }
  }

  lemma MergedGood(s: State, ledger: Ledger, lo: nat, c: NodeId, b: State, to: Ledger)
    requires Good(s, ledger, lo, c) && MergeReady(s, lo, c, b, to) && LedgerStep(map[], ledger, b.resources, to)
    requires c <= b.nextNode && c <= s.nextNode
    ensures var f := Merged(s, c, b);
      && c in f.nodes && Good(f, to, lo, c) && Kept(s, f, c) && TableStep(s.resources, ledger, f.resources, to)
      && (Tidy(s.resources) && Tidy(b.resources) ==> Tidy(f.resources))
      && |f.runs| == |s.runs| + |b.runs| && f.nextNode == s.nextNode + b.nextNode - c
  {
    hide StoreOk, ResourcesOk, InTurn, Merged, NoFailures, TidyBut, LedgerStep, TableStep, SameIdentity;
    MergeKeepsStore(s, lo, c, b);
    MergeKeepsResources(s, ledger, lo, c, b, to);
    MergedNextNode(s, c, b);
    if Tidy(s.resources) && Tidy(b.resources) {
      MergeReadyIs(s, lo, c, b, to);
      MergedTidy(s, lo, c, b);
    }
    MergedLogsAt(s, c, b);
  }

  /** Work done elsewhere, on resources of others, does not disturb this engine. */
  lemma OthersWorked(s: State, ledger: Ledger, lo: nat, n: NodeId, to: Ledger)
    requires Good(s, ledger, lo, n) && ledger.issued <= to.issued
    requires forall id :: id <= ledger.issued ==> to.cleaned[id] == ledger.cleaned[id]
    requires forall id :: id > to.issued ==> to.cleaned[id] == 0
    ensures Good(s, to, lo, n) && Moved(s, ledger, s, to, n)
    ensures Kept(s, s, n) && TableStep(s.resources, ledger, s.resources, to)
  {
    hide StoreOk, InTurn;
  }

  lemma KeptNothing(s: State, ledger: Ledger, n: NodeId)
    ensures Kept(s, s, n) && TableStep(s.resources, ledger, s.resources, ledger)
  {
  }

  function SetOf(xs: seq<NodeId>): set<NodeId> { set x | x in xs }

  lemma {:induction false} SetOfSeq(xs: seq<NodeId>)
    ensures |SetOf(xs)| <= |xs|
  {
    if xs != [] {
      SetOfSeq(xs[1..]);
      assert xs == [xs[0]] + xs[1..];
      assert SetOf(xs) == {xs[0]} + SetOf(xs[1..]);
    }
  }

  lemma ChildrenSame(s: State, ledger: Ledger, t: State, to: Ledger, lo: nat, n: NodeId)
    requires Good(s, ledger, lo, n) && Moved(s, ledger, t, to, n)
    ensures forall c :: c in s.nodes[n].children ==> c in s.nodes && c in t.nodes && t.nodes[c] == s.nodes[c]
  {
    hide ResourcesOk, Produced, Staged, Grouped, ArtifactOk, MemoOk, LogsOk, TableStep;
    assert Linked(s, n);
  }

  /** Blocking the parent leaves its children as they were. */
  lemma BlockedByChildren(s0: State, s: State, ledger: Ledger, t: State, to: Ledger, lo: nat, n: NodeId)
    requires Good(s, ledger, lo, n) && Moved(s, ledger, t, to, n) && Unstarted(s0, s, n, {})
    requires n in t.nodes && t.nodes[n] == s.nodes[n].(status := BlockedStatus(s.nodes, n))
    ensures BlockedStatus(t.nodes, n) == BlockedStatus(s.nodes, n) && Unstarted(s0, t, n, {})
    ensures ChildrenAccepted(t.nodes, n) <==> ChildrenAccepted(s.nodes, n)
    ensures ChildrenCommitted(t.nodes, n) <==> ChildrenCommitted(s.nodes, n)
    ensures JoinedConcluded(t.nodes, n, {}) <==> JoinedConcluded(s.nodes, n, {})
  {
    ChildrenSame(s, ledger, t, to, lo, n);
    hide Good, Moved;
    SameChildrenSame(s0, s, t, n);
  }

  lemma SameChildrenSame(s0: State, s: State, t: State, n: NodeId)
    requires n in s.nodes && n in t.nodes && t.nodes[n].children == s.nodes[n].children
    requires forall c :: c in s.nodes[n].children ==> c in s.nodes && c in t.nodes && t.nodes[c] == s.nodes[c]
    ensures BlockedStatus(t.nodes, n) == BlockedStatus(s.nodes, n)
    ensures Unstarted(s0, s, n, {}) ==> Unstarted(s0, t, n, {})
    ensures ChildrenAccepted(t.nodes, n) <==> ChildrenAccepted(s.nodes, n)
    ensures ChildrenCommitted(t.nodes, n) <==> ChildrenCommitted(s.nodes, n)
    ensures JoinedConcluded(t.nodes, n, {}) <==> JoinedConcluded(s.nodes, n, {})
  {
    forall k | 0 <= k < |s.nodes[n].children|
      ensures s.nodes[n].children[k] in s.nodes && s.nodes[n].children[k] in t.nodes
      ensures t.nodes[s.nodes[n].children[k]] == s.nodes[s.nodes[n].children[k]]
    {
      assert s.nodes[n].children[k] in s.nodes[n].children;
    }
  }

  lemma CommittedAccepted(s: State, ledger: Ledger, lo: nat, n: NodeId)
    requires Good(s, ledger, lo, n)
    ensures ChildrenCommitted(s.nodes, n) ==> ChildrenAccepted(s.nodes, n)
  {
    hide ResourcesOk, Linked, Staged, Grouped, ArtifactOk, MemoOk, LogsOk, InTurn, Acceptable;
    if ChildrenCommitted(s.nodes, n) {
      forall k | 0 <= k < |s.nodes[n].children|
        ensures s.nodes[n].children[k] in s.nodes && s.nodes[s.nodes[n].children[k]].accepted.Some?
      {
        assert Produced(s, s.nodes[n].children[k]);
      }
    }
  }

  lemma ChildrenDistinct(s: State, ledger: Ledger, lo: nat, n: NodeId)
    requires Good(s, ledger, lo, n)
    ensures forall j, k :: 0 <= j < k < |s.nodes[n].children| ==> s.nodes[n].children[j] != s.nodes[n].children[k]
  {
    assert Linked(s, n);
  }

  lemma RetainGood(s: State, ledger: Ledger, lo: nat, n: NodeId, ids: seq<ResourceId>, ref: ResourceRef,
                   extra: set<Hold>)
    requires Good(s, ledger, lo, n) && RefKnown(ref, n, n, 0)
    ensures var t := s.(resources := RetainedAll(s.resources, ids, ref));
      && Good(t, ledger, lo, n) && Moved(s, ledger, t, ledger, n)
      && (TidyBut(s.resources, extra) ==> TidyBut(t.resources, extra + HoldsFor(ids, [ref])))
      && t.resources.Keys == s.resources.Keys
      && (forall id :: id in s.resources ==>
            forall other ::
              other in t.resources[id].refs <==> other in s.resources[id].refs || (id in ids && other == ref))
  {
    GoodRange(s, ledger, lo, n);
    RetainedAllEffect(s.resources, ids, ref);
    hide StoreOk, TableOk, TableStep, NoFailures, TidyBut, HoldsFor, InTurn;
    if TidyBut(s.resources, extra) {
      TidyRetain(s.resources, ids, ref, extra);
    }
    RetainAll(s.resources, ledger, ids, ref, lo, s.nextNode, s.nextArtifact);
    TableGood(s, ledger, lo, n, RetainedAll(s.resources, ids, ref), ledger);
  }

  lemma CombinedGood(s: State, ledger: Ledger, lo: nat, n: NodeId, a: ArtifactId)
    requires Good(s, ledger, lo, n) && s.nodes[n].status == Planned && s.nodes[n].size != Tiny
    requires a in s.artifacts && s.artifacts[a].node == n
    ensures var t := NodeSet(s, n, s.nodes[n].(candidate := Some(a), status := NodeStatus.Verifying));
      Good(t, ledger, lo, n) && Moved(s, ledger, t, ledger, n)
  {
    hide Good, Moved;
    GoodHas(s, ledger, lo, n);
    ProgressGood(s, ledger, lo, n, s.nodes[n].(candidate := Some(a), status := NodeStatus.Verifying));
  }

  // ---- Temporary holds ----

  function AllIds(changes: seq<Change>): seq<ResourceId>
  {
    if changes == [] then [] else AllIds(changes[..|changes| - 1]) + changes[|changes| - 1].resourceIds
  }

  /** What combining `n` holds while the agent works: every child input, and the merge surface. */
  function CombineHolds(n: NodeId, changes: seq<Change>, surface: Surface): set<Hold>
  {
    HoldsFor(AllIds(changes), [ChildInputForCombine(n)]) + HoldsFor(Ids(surface.resources), [MergeSurface(n)])
  }

  lemma NoIds(changes: seq<Change>, ref: ResourceRef)
    ensures changes == [] ==> AllIds(changes) == [] && HoldsFor(AllIds(changes), [ref]) == {}
  {
  }

  lemma OneMoreChange(changes: seq<Change>, i: nat, ref: ResourceRef)
    requires i < |changes|
    ensures AllIds(changes[..i + 1]) == AllIds(changes[..i]) + changes[i].resourceIds
    ensures HoldsFor(AllIds(changes[..i + 1]), [ref])
         == HoldsFor(AllIds(changes[..i]), [ref]) + HoldsFor(changes[i].resourceIds, [ref])
  {
    assert changes[..i + 1][..i] == changes[..i];
  }

  lemma NoHolds(ids: seq<ResourceId>, extra: set<Hold>)
    ensures extra + HoldsFor(ids, []) == extra
  {
  }

  lemma NothingExtra(holds: set<Hold>)
    ensures {} + holds == holds
  {
  }

  lemma TakenAway(extra: set<Hold>, first: set<Hold>, second: set<Hold>)
    ensures (extra - first) - second == extra - (first + second)
  {
  }

  lemma NothingLeft(first: set<Hold>, second: set<Hold>)
    ensures ((first + second) - second) - first == {}
  {
  }

  lemma FreshIsBare(change: Change, lo: nat, hi: nat)
    requires Fresh(change.resources, lo, hi, [])
    ensures Bare(Some(change))
  {
  }

  lemma NothingNamed(surface: Surface, change: Change)
    requires forall id :: id in change.resourceIds ==> id in Ids(surface.resources) || id in Ids(change.resources)
    ensures surface.resources == [] && change.resources == [] ==> change.resourceIds == []
  {
    assert change.resourceIds != [] ==> change.resourceIds[0] in change.resourceIds;
  }

  lemma CapturedIs(s: State, t: State, n: NodeId, text: string, change: Change, children: seq<ArtifactId>)
    requires t.resources == RetainedAll(s.resources, change.resourceIds, CandidateArtifact(s.nextArtifact + 1))
    requires t == ArtifactPushed(s, n, text, Some(change), children).(resources := t.resources)
    ensures t == Captured(s, n, text, change, children)
    ensures var a := s.nextArtifact + 1;
      a in t.artifacts && t.artifacts[a] == Artifact(a, n, text, Some(change), children)
  {
  }

  lemma GoodRange(s: State, ledger: Ledger, lo: nat, n: NodeId)
    requires Good(s, ledger, lo, n)
    ensures 1 <= lo <= n <= s.nextNode
  {
  }

  lemma GoodTable(s: State, ledger: Ledger, lo: nat, n: NodeId)
    requires Good(s, ledger, lo, n)
    ensures TableOk(s.resources, ledger, lo, s.nextNode, s.nextArtifact)
  {
  }

  lemma NothingYet(table: Table, ledger: Ledger)
    ensures TableStep(table, ledger, table, ledger)
  {
  }

  /** Everything that could be cleaned up has been. */
  ghost predicate NothingReleasable(table: Table)
  {
    forall id :: !Releasable(table, id)
  }

  function Among(ids: seq<ResourceId>): set<ResourceId> { set id | id in ids }

  lemma SweptNothing(table: Table, ids: seq<ResourceId>)
    ensures SweptOn(table, Among(ids[..0])) == table && multiset(ids[..0]) == multiset{}
  {
  }

  lemma SweptOneMore(table: Table, ids: seq<ResourceId>, i: nat)
    requires i < |ids| && Releasable(table, ids[i])
    ensures SweptOn(table, Among(ids[..i + 1])) == Marked(SweptOn(table, Among(ids[..i])), ids[i], Released)
    ensures multiset(ids[..i + 1]) == multiset(ids[..i]) + multiset{ids[i]}
  {
    assert ids[..i + 1] == ids[..i] + [ids[i]];
  }

  predicate SweptUntil(table: Table, after: Table, ids: set<ResourceId>, id: ResourceId)
  {
    && ids <= ReleasableSet(table) && id in ReleasableSet(table) && id !in ids
    && after == Marked(SweptOn(table, ids), id, FailedCleanup)
  }

  /** A sweep that fails cleaned some releasable resources and failed at another one. */
  ghost predicate StoppedAt(table: Table, after: Table)
  {
    exists ids, id :: SweptUntil(table, after, ids, id)
  }

  lemma SweepStopped(table: Table, ids: seq<ResourceId>, i: nat, after: Table)
    requires i < |ids| && forall id :: id in ids <==> Releasable(table, id)
    requires forall j, k :: 0 <= j < k < |ids| ==> ids[j] != ids[k]
    requires after == Marked(SweptOn(table, Among(ids[..i])), ids[i], FailedCleanup)
    ensures StoppedAt(table, after)
  {
    hide Marked, SweptOn;
    assert ids[i] in ids && forall id :: id in ids[..i] ==> id in ids;
    assert SweptUntil(table, after, Among(ids[..i]), ids[i]);
  }

  lemma StoppedShows(table: Table, after: Table)
    requires StoppedAt(table, after)
    ensures exists id :: id in after && after[id].state == FailedCleanup
  {
    var ids, id :| SweptUntil(table, after, ids, id);
    assert id in after && after[id].state == FailedCleanup;
  }

  lemma AllSwept(table: Table, ids: seq<ResourceId>)
    requires forall id :: id in ids <==> Releasable(table, id)
    requires forall j, k :: 0 <= j < k < |ids| ==> ids[j] != ids[k]
    ensures Among(ids[..|ids|]) == ReleasableSet(table) && multiset(ids[..|ids|]) == multiset(ReleasableSet(table))
  {
    assert ids[..|ids|] == ids;
    forall id ensures multiset(ids)[id] == multiset(ReleasableSet(table))[id] {
      OnceAmong(ids, id);
    }
  }

  lemma {:induction false} OnceAmong(ids: seq<ResourceId>, id: ResourceId)
    requires forall j, k :: 0 <= j < k < |ids| ==> ids[j] != ids[k]
    ensures multiset(ids)[id] == if id in ids then 1 else 0
    decreases |ids|
  {
    if ids != [] {
      var last := |ids| - 1;
      OnceAmong(ids[..last], id);
      assert ids == ids[..last] + [ids[last]];
    }
  }

  lemma CleanedUp(table: Table, ledger: Ledger, id: ResourceId, lo: nat, nodes: nat, artifacts: nat)
    requires TableOk(table, ledger, lo, nodes, artifacts) && Releasable(table, id)
    ensures forall state :: state != Active ==>
      var after, to := Marked(table, id, state), Ledger(ledger.issued, ledger.cleaned + multiset{id});
      && TableOk(after, to, lo, nodes, artifacts) && TableStep(table, ledger, after, to)
      && (NoFailures(table) && state == Released ==> NoFailures(after))
      && (forall other :: Releasable(after, other) <==> Releasable(table, other) && other != id)
  {
    hide TableOk, TableStep, NoFailures, Releasable;
    forall state | state != Active
      ensures
        var after, to := Marked(table, id, state), Ledger(ledger.issued, ledger.cleaned + multiset{id});
        && TableOk(after, to, lo, nodes, artifacts) && TableStep(table, ledger, after, to)
        && (NoFailures(table) && state == Released ==> NoFailures(after))
        && (forall other :: Releasable(after, other) <==> Releasable(table, other) && other != id)
    {
      MarkCleaned(table, ledger, id, state, lo, nodes, artifacts);
    }
  }
}
