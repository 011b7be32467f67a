/** Renumbering a branch engine's ids. The `Remap` functions are the engine's partial lookups; the
    `Rename` functions are the total renaming they amount to when every id is mapped. */
module Renaming {
  import opened Types
  import opened Nodes
  import opened EngineState

  type IdMap = map<nat, nat>

  function At(ids: IdMap, id: nat): nat { if id in ids then ids[id] else id }

  function AtAll(ids: IdMap, xs: seq<nat>): (ys: seq<nat>)
    ensures |ys| == |xs| && forall k :: 0 <= k < |xs| ==> ys[k] == At(ids, xs[k])
  {
    seq(|xs|, k requires 0 <= k < |xs| => At(ids, xs[k]))
  }

  // ---- Partial lookups ----

  function RemapNodeId(id: NodeId, nodes: IdMap): Outcome<NodeId>
  {
    if id in nodes then Ok(nodes[id]) else Err(MissingNode(id))
  }

  function RemapArtifactId(id: ArtifactId, artifacts: IdMap): Outcome<ArtifactId>
  {
    if id in artifacts then Ok(artifacts[id]) else Err(MissingArtifact(id))
  }

  function RemapNodeIds(ids: seq<NodeId>, nodes: IdMap): Outcome<seq<NodeId>>
  {
    if ids == [] then Ok([])
    else if ids[0] !in nodes then Err(MissingNode(ids[0]))
    else
      var rest := RemapNodeIds(ids[1..], nodes);
      if rest.Err? then rest else Ok([nodes[ids[0]]] + rest.value)
  }

  function RemapArtifactIds(ids: seq<ArtifactId>, artifacts: IdMap): Outcome<seq<ArtifactId>>
  {
    if ids == [] then Ok([])
    else if ids[0] !in artifacts then Err(MissingArtifact(ids[0]))
    else
      var rest := RemapArtifactIds(ids[1..], artifacts);
      if rest.Err? then rest else Ok([artifacts[ids[0]]] + rest.value)
  }

  function RemapNode(node: ProblemNode, nodes: IdMap, artifacts: IdMap): Outcome<ProblemNode>
  {
    if node.id !in nodes then Err(MissingNode(node.id))
    else
      var children := RemapNodeIds(node.children, nodes);
      if children.Err? then Err(children.error)
      else if node.candidate.Some? && node.candidate.value !in artifacts then Err(MissingArtifact(node.candidate.value))
      else if node.accepted.Some? && node.accepted.value !in artifacts then Err(MissingArtifact(node.accepted.value))
      else
        Ok(node.(
           id := nodes[node.id],
           parent := if node.parent.Some? then Some(At(nodes, node.parent.value)) else None,
           children := children.value,
           candidate := if node.candidate.Some? then Some(artifacts[node.candidate.value]) else None,
           accepted := if node.accepted.Some? then Some(artifacts[node.accepted.value]) else None))
  }

  function RemapRef(ref: ResourceRef, nodes: IdMap, artifacts: IdMap): Option<ResourceRef>
  {
    match ref
    case RunningNode(n) => if n in nodes then Some(RunningNode(nodes[n])) else None
    case CandidateArtifact(a) => if a in artifacts then Some(CandidateArtifact(artifacts[a])) else None
    case ChildInputForCombine(n) => if n in nodes then Some(ChildInputForCombine(nodes[n])) else None
    case MergeSurface(n) => if n in nodes then Some(MergeSurface(nodes[n])) else None
    case DebugRetain => Some(DebugRetain)
  }

  /** References that cannot be mapped are dropped. */
  function RemapRefs(refs: seq<ResourceRef>, nodes: IdMap, artifacts: IdMap): seq<ResourceRef>
  {
    if refs == [] then []
    else
      var first := RemapRef(refs[0], nodes, artifacts);
      (if first.Some? then [first.value] else []) + RemapRefs(refs[1..], nodes, artifacts)
  }

  function RemapResource(resource: Resource, nodes: IdMap, artifacts: IdMap): Resource
  {
    resource.(refs := RemapRefs(resource.refs, nodes, artifacts))
  }

  function RemapChange(change: Change, nodes: IdMap, artifacts: IdMap): Change
  {
    change.(resources := seq(|change.resources|, k requires 0 <= k < |change.resources| =>
                             RemapResource(change.resources[k], nodes, artifacts)))
  }

  function RemapArtifact(artifact: Artifact, nodes: IdMap, artifacts: IdMap): Outcome<Artifact>
  {
    if artifact.id !in artifacts then Err(MissingArtifact(artifact.id))
    else if artifact.node !in nodes then Err(MissingNode(artifact.node))
    else
      var children := RemapArtifactIds(artifact.children, artifacts);
      if children.Err? then Err(children.error)
      else
        Ok(artifact.(
           id := artifacts[artifact.id],
           node := nodes[artifact.node],
           children := children.value,
           change := if artifact.change.Some? then Some(RemapChange(artifact.change.value, nodes, artifacts))
                     else None))
  }

  // ---- Total renaming ----

  function RenameNode(node: ProblemNode, nodes: IdMap, artifacts: IdMap): ProblemNode
  {
    node.(
      id := At(nodes, node.id),
      parent := if node.parent.Some? then Some(At(nodes, node.parent.value)) else None,
      children := AtAll(nodes, node.children),
      candidate := if node.candidate.Some? then Some(At(artifacts, node.candidate.value)) else None,
      accepted := if node.accepted.Some? then Some(At(artifacts, node.accepted.value)) else None)
  }

  function RenameRef(ref: ResourceRef, nodes: IdMap, artifacts: IdMap): ResourceRef
  {
    match ref
    case RunningNode(n) => RunningNode(At(nodes, n))
    case CandidateArtifact(a) => CandidateArtifact(At(artifacts, a))
    case ChildInputForCombine(n) => ChildInputForCombine(At(nodes, n))
    case MergeSurface(n) => MergeSurface(At(nodes, n))
    case DebugRetain => DebugRetain
  }

  function RenameResource(resource: Resource, nodes: IdMap, artifacts: IdMap): Resource
  {
    resource.(refs := seq(|resource.refs|, k requires 0 <= k < |resource.refs| =>
                          RenameRef(resource.refs[k], nodes, artifacts)))
  }

  function RenameArtifact(artifact: Artifact, nodes: IdMap, artifacts: IdMap): Artifact
  {
    artifact.(
      id := At(artifacts, artifact.id),
      node := At(nodes, artifact.node),
      children := AtAll(artifacts, artifact.children),
      change := if artifact.change.Some? then Some(RemapChange(artifact.change.value, nodes, artifacts)) else None)
  }

  function RenameEvents(events: seq<OperationEvent>, nodes: IdMap): (renamed: seq<OperationEvent>)
    ensures |renamed| == |events|
  {
    seq(|events|, k requires 0 <= k < |events| => events[k].(node := At(nodes, events[k].node)))
  }

  function RenameRuns(runs: seq<RunRecord>, nodes: IdMap): (renamed: seq<RunRecord>)
    ensures |renamed| == |runs|
  {
    seq(|runs|, k requires 0 <= k < |runs| => runs[k].(node := At(nodes, runs[k].node)))
  }

  function RenameAttempts(attempts: seq<AttemptRecord>, nodes: IdMap): (renamed: seq<AttemptRecord>)
    ensures |renamed| == |attempts|
  {
    seq(|attempts|, k requires 0 <= k < |attempts| => attempts[k].(node := At(nodes, attempts[k].node)))
  }

  // ---- The lookups succeed, and then they rename ----

  lemma {:induction false} RemapNodeIdsTotal(ids: seq<NodeId>, nodes: IdMap)
    requires forall k :: 0 <= k < |ids| ==> ids[k] in nodes
    ensures RemapNodeIds(ids, nodes) == Ok(AtAll(nodes, ids))
  {
    if ids != [] {
      RemapNodeIdsTotal(ids[1..], nodes);
      assert AtAll(nodes, ids) == [nodes[ids[0]]] + AtAll(nodes, ids[1..]);
    }
  }

  lemma {:induction false} RemapArtifactIdsTotal(ids: seq<ArtifactId>, artifacts: IdMap)
    requires forall k :: 0 <= k < |ids| ==> ids[k] in artifacts
    ensures RemapArtifactIds(ids, artifacts) == Ok(AtAll(artifacts, ids))
  {
    if ids != [] {
      RemapArtifactIdsTotal(ids[1..], artifacts);
      assert AtAll(artifacts, ids) == [artifacts[ids[0]]] + AtAll(artifacts, ids[1..]);
    }
  }

  lemma RemapNodeTotal(node: ProblemNode, nodes: IdMap, artifacts: IdMap)
    requires node.id in nodes
    requires forall k :: 0 <= k < |node.children| ==> node.children[k] in nodes
    requires node.candidate.Some? ==> node.candidate.value in artifacts
    requires node.accepted.Some? ==> node.accepted.value in artifacts
    ensures RemapNode(node, nodes, artifacts) == Ok(RenameNode(node, nodes, artifacts))
  {
    RemapNodeIdsTotal(node.children, nodes);
  }

  lemma RemapArtifactTotal(artifact: Artifact, nodes: IdMap, artifacts: IdMap)
    requires artifact.id in artifacts && artifact.node in nodes
    requires forall k :: 0 <= k < |artifact.children| ==> artifact.children[k] in artifacts
    ensures RemapArtifact(artifact, nodes, artifacts) == Ok(RenameArtifact(artifact, nodes, artifacts))
  {
    RemapArtifactIdsTotal(artifact.children, artifacts);
  }

  /** No reference is dropped when every referenced id is mapped. */
  lemma {:induction false} RemapRefsTotal(refs: seq<ResourceRef>, nodes: IdMap, artifacts: IdMap)
    requires forall k :: 0 <= k < |refs| ==> RemapRef(refs[k], nodes, artifacts).Some?
    ensures |RemapRefs(refs, nodes, artifacts)| == |refs|
    ensures forall k :: 0 <= k < |refs| ==>
              RemapRefs(refs, nodes, artifacts)[k] == RenameRef(refs[k], nodes, artifacts)
  {
    if refs != [] {
      forall k | 0 <= k < |refs[1..]| ensures RemapRef(refs[1..][k], nodes, artifacts).Some? {
        assert refs[1..][k] == refs[k + 1];
      }
      RemapRefsTotal(refs[1..], nodes, artifacts);
    }
  }

  lemma RemapResourceTotal(resource: Resource, nodes: IdMap, artifacts: IdMap)
    requires forall k :: 0 <= k < |resource.refs| ==> RemapRef(resource.refs[k], nodes, artifacts).Some?
    ensures RemapResource(resource, nodes, artifacts) == RenameResource(resource, nodes, artifacts)
  {
    RemapRefsTotal(resource.refs, nodes, artifacts);
    assert RemapRefs(resource.refs, nodes, artifacts) == RenameResource(resource, nodes, artifacts).refs;
  }
}
