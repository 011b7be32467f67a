/** Problem nodes, artifacts, plans, and the pure routing and inheritance rules. */
module Nodes {
  import opened Types
  import opened Glob
  import opened ScopeGate

  datatype NodePlan = ExecutePlan | NeedsPlanning | Group(group: PlanGroup)

  datatype PlanGroupMode = Stage | Parallel

  datatype PlanGroup = PlanGroup(mode: PlanGroupMode, items: seq<NodeTemplate>)

  datatype NodeTemplate = NodeTemplate(
    key: ProblemKey,
    size: WorkSize,
    workspace: Requirement,
    allowWrite: bool,
    maxAttempts: nat,
    policy: NodePolicy,
    taskType: TaskType,
    plan: NodePlan)

  datatype ProblemNode = ProblemNode(
    id: NodeId,
    key: ProblemKey,
    parent: Option<NodeId>,
    size: WorkSize,
    workspace: Requirement,
    allowWrite: bool,
    maxAttempts: nat,
    policy: NodePolicy,
    taskType: TaskType,
    children: seq<NodeId>,
    status: NodeStatus,
    plan: NodePlan,
    candidate: Option<ArtifactId>,
    accepted: Option<ArtifactId>,
    executionAttempts: nat,
    verificationAttempts: nat)

  datatype Artifact = Artifact(
    id: ArtifactId,
    node: NodeId,
    text: string,
    change: Option<Change>,
    children: seq<ArtifactId>)

  /** A captured change names its resources before anything refers to them. */
  predicate Bare(change: Option<Change>)
  {
    change.Some? ==> forall k :: 0 <= k < |change.value.resources| ==> change.value.resources[k].refs == []
  }

  function NewNode(id: NodeId, parent: Option<NodeId>, template: NodeTemplate): ProblemNode
  {
    ProblemNode(
      id, template.key, parent, template.size, template.workspace, template.allowWrite, template.maxAttempts,
      template.policy, template.taskType, [], New, template.plan, None, None, 0, 0)
  }

  // ---- Routing ----

  function PlanFromScopeAssessment(size: WorkSize, current: NodePlan, pack: PolicyPack, allowDecompose: bool): NodePlan
  {
    var planning := if current.Group? then current else NeedsPlanning;
    if pack.decompose && allowDecompose && size.Rank() >= pack.autoPlanThreshold.Rank() then planning
    else if size.Rank() >= pack.autoPlanThreshold.Rank() then planning
    else ExecutePlan
  }

  /** Neither the policy's wish to decompose nor the depth limit influences the route; only the size
      against the threshold does. */
  lemma DepthLimitIsInert(size: WorkSize, current: NodePlan, pack: PolicyPack, allow: bool, depth: nat, maxDepth: nat)
    ensures PlanFromScopeAssessment(size, current, pack, allow)
         == PlanFromScopeAssessment(size, current, pack.(decompose := false), depth < maxDepth)
    ensures PlanFromScopeAssessment(size, current, pack, allow) == ExecutePlan
       <==> size.Rank() < pack.autoPlanThreshold.Rank()
  {
  }

  // ---- Inheritance ----

  function InheritScope(child: seq<string>, parent: seq<string>): Option<seq<string>>
  {
    if child == [] then Some(parent)
    else if ScopesWithinParent(child, parent) then Some(child)
    else None
  }

  function InheritChildDefaults(parent: ProblemNode, template: NodeTemplate): Outcome<NodeTemplate>
  {
    var readScope := InheritScope(template.workspace.readScope, parent.workspace.readScope);
    if readScope.None? then Err(AgentProtocol)
    else
      var writeScope := InheritScope(template.workspace.writeScope, parent.workspace.writeScope);
      if writeScope.None? then Err(AgentProtocol)
      else
        var inherited := template.(
          workspace := parent.workspace.(readScope := readScope.value, writeScope := writeScope.value),
          allowWrite := parent.allowWrite,
          maxAttempts := parent.maxAttempts);
        Ok(if template.policy == ExplorePolicy
           then inherited.(policy := parent.policy, taskType := parent.taskType)
           else inherited)
  }

  /** The scope is the parent's own, or every pattern passed the gate. */
  predicate Narrows(child: seq<string>, parent: seq<string>)
  {
    child == parent || ScopesWithinParent(child, parent)
  }

  /** What a child node is guaranteed to share with its parent. */
  predicate Inherits(child: ProblemNode, parent: ProblemNode)
  {
    && child.allowWrite == parent.allowWrite
    && child.maxAttempts == parent.maxAttempts
    && child.workspace.provider == parent.workspace.provider
    && Narrows(child.workspace.readScope, parent.workspace.readScope)
    && Narrows(child.workspace.writeScope, parent.workspace.writeScope)
  }

  ghost predicate AcceptedBySome(pattern: string, parent: seq<string>)
  {
    exists j :: 0 <= j < |parent| && ParentScopeAllowsChild(parent[j], pattern)
  }

  /** Each pattern of the child is accepted by the gate against some pattern of the parent. */
  ghost predicate PassesGate(child: seq<string>, parent: seq<string>)
  {
    forall pattern :: pattern in child ==> AcceptedBySome(pattern, parent)
  }

  /** The scope a child gets: its own if it names one, the parent's if it leaves it out. */
  predicate TakesScope(scope: seq<string>, own: seq<string>, parent: seq<string>)
  {
    (own == [] ==> scope == parent) && (own != [] ==> scope == own)
  }

  /** Inheritance fails exactly on a scope pattern the gate rejects. Otherwise the child has the parent's
      provider, permissions and budget, and for reading and for writing the scope it names, or the
      parent's where it names none. A child planned for exploring also takes over what the parent is for;
      any other child keeps its own purpose. */
  lemma InheritedChild(parent: ProblemNode, template: NodeTemplate, id: NodeId)
    ensures InheritChildDefaults(parent, template).Ok? <==>
              && PassesGate(template.workspace.readScope, parent.workspace.readScope)
              && PassesGate(template.workspace.writeScope, parent.workspace.writeScope)
    ensures InheritChildDefaults(parent, template).Err? ==> InheritChildDefaults(parent, template).error.External()
    ensures InheritChildDefaults(parent, template).Ok? ==>
              var node := NewNode(id, Some(parent.id), InheritChildDefaults(parent, template).value);
              && Inherits(node, parent) && node.id == id && node.parent == Some(parent.id)
              && node.key == template.key && node.size == template.size && node.plan == template.plan
              && TakesScope(node.workspace.readScope, template.workspace.readScope, parent.workspace.readScope)
              && TakesScope(node.workspace.writeScope, template.workspace.writeScope, parent.workspace.writeScope)
              && (template.policy == ExplorePolicy ==> node.policy == parent.policy && node.taskType == parent.taskType)
              && (template.policy != ExplorePolicy ==>
                    node.policy == template.policy && node.taskType == template.taskType)
  {
    GateIs(template.workspace.readScope, parent.workspace.readScope);
    GateIs(template.workspace.writeScope, parent.workspace.writeScope);
  }

  lemma GateIs(child: seq<string>, parent: seq<string>)
    ensures ScopesWithinParent(child, parent) <==> PassesGate(child, parent)
  {
    forall pattern ensures ScopeAllowedByParent(pattern, parent) <==> AcceptedBySome(pattern, parent) {
    }
    hide ParentScopeAllowsChild, ScopeAllowedByParent, AcceptedBySome;
    if PassesGate(child, parent) {
      forall i | 0 <= i < |child| ensures ScopeAllowedByParent(child[i], parent) {
        assert child[i] in child;
      }
    }
  }

  // ---- The checks Verify makes before asking the agent ----

  /** Unicode White_Space. */
  predicate IsWhitespace(c: char)
  {
    var u := c as int;
    || 0x9 <= u <= 0xD || u == 0x20 || u == 0x85 || u == 0xA0 || u == 0x1680 || 0x2000 <= u <= 0x200A
    || u == 0x2028 || u == 0x2029 || u == 0x202F || u == 0x205F || u == 0x3000
  }

  function TrimStart(text: string): string
  {
    if text != "" && IsWhitespace(text[0]) then TrimStart(text[1..]) else text
  }

  function TrimEnd(text: string): string
    decreases |text|
  {
    if text != "" && IsWhitespace(text[|text| - 1]) then TrimEnd(text[..|text| - 1]) else text
  }

  function Trim(text: string): string { TrimEnd(TrimStart(text)) }

  function DeterministicVerdict(node: ProblemNode, artifact: Artifact): Option<Verdict>
  {
    var trimmed := Trim(artifact.text);
    if trimmed == "" then Some(Reject(IncompleteOutput))
    else if "VALIDATION_ERROR:" <= trimmed then Some(Reject(BadOutput))
    else if artifact.change.None? then None
    else
      var change := artifact.change.value;
      if !node.allowWrite && (change.changedPaths != [] || change.sideEffects != []) then
        Some(Reject(UnsafeSideEffect))
      else if exists i :: 0 <= i < |change.sideEffects| && "conflict:" <= change.sideEffects[i] then
        Some(Reject(MergeConflict))
      else if node.allowWrite
           && exists i :: 0 <= i < |change.changedPaths|
                       && !PathAllowed(node.workspace.writeScope, change.changedPaths[i]) then
        Some(Reject(UnsafeSideEffect))
      else None
  }

  /** A read-only producer changed nothing; any other producer stayed inside its write scope. */
  predicate PathsSafe(producer: ProblemNode, artifact: Artifact)
  {
    artifact.change.None?
    || (if producer.allowWrite
        then forall i :: 0 <= i < |artifact.change.value.changedPaths| ==>
               PathAllowed(producer.workspace.writeScope, artifact.change.value.changedPaths[i])
        else artifact.change.value.changedPaths == [])
  }

  /** The deterministic checks never accept; they pass an artifact on to the agent only if it is safe,
      and what they reject as unsafe really is outside the node's permissions. */
  lemma DeterministicChecks(node: ProblemNode, artifact: Artifact)
    ensures DeterministicVerdict(node, artifact).None? ==> PathsSafe(node, artifact)
    ensures DeterministicVerdict(node, artifact).Some? ==> DeterministicVerdict(node, artifact).value.Reject?
    ensures DeterministicVerdict(node, artifact) == Some(Reject(UnsafeSideEffect)) ==>
              !PathsSafe(node, artifact) || (!node.allowWrite && artifact.change.value.sideEffects != [])
  {
  }

  // ---- What the checks mean ----

  predicate Blank(text: string)
  {
    forall k :: 0 <= k < |text| ==> IsWhitespace(text[k])
  }

  const VALIDATION_ERROR := "VALIDATION_ERROR:"

  /** Whitespace, then the marker of a validation error. */
  predicate ComplainsAfter(text: string, n: nat)
  {
    n <= |text| && Blank(text[..n]) && VALIDATION_ERROR <= text[n..]
  }

  ghost predicate Complains(text: string)
  {
    exists n :: ComplainsAfter(text, n)
  }

  lemma NotBlank(text: string, n: nat)
    requires 0 < n <= |text| && Blank(text[..n])
    ensures IsWhitespace(text[0])
  {
    assert text[..n][0] == text[0];
  }

  lemma {:induction false} TrimStartIs(text: string)
    ensures TrimStart(text) == "" <==> Blank(text)
    ensures TrimStart(text) != "" ==> !IsWhitespace(TrimStart(text)[0])
    ensures VALIDATION_ERROR <= TrimStart(text) <==> Complains(text)
  {
    assert text == text[0..] && Blank(text[..0]);
    if text != "" && IsWhitespace(text[0]) {
      TrimStartIs(text[1..]);
      assert text == [text[0]] + text[1..];
      forall n: nat | ComplainsAfter(text[1..], n) ensures ComplainsAfter(text, n + 1) {
        assert text[..n + 1] == [text[0]] + text[1..][..n] && text[n + 1..] == text[1..][n..];
      }
      forall n: nat | ComplainsAfter(text, n) ensures n > 0 && ComplainsAfter(text[1..], n - 1) {
        assert text[n..][0] == 'V';
        assert text[..n][1..] == text[1..][..n - 1] && text[n..] == text[1..][n - 1..];
      }
    } else {
      assert VALIDATION_ERROR <= text ==> ComplainsAfter(text, 0);
      forall n: nat | ComplainsAfter(text, n) ensures n == 0 {
        if n > 0 {
          NotBlank(text, n);
        }
      }
    }
  }

  lemma {:induction false} TrimEndIs(text: string)
    requires text != "" ==> !IsWhitespace(text[0])
    ensures TrimEnd(text) == "" <==> text == ""
    ensures VALIDATION_ERROR <= TrimEnd(text) <==> VALIDATION_ERROR <= text
    decreases |text|
  {
    if text != "" && IsWhitespace(text[|text| - 1]) {
      var shorter := text[..|text| - 1];
      TrimEndIs(shorter);
      if VALIDATION_ERROR <= text {
        assert text[|VALIDATION_ERROR| - 1] == ':';
        assert |text| > |VALIDATION_ERROR|;
        assert shorter[..|VALIDATION_ERROR|] == text[..|VALIDATION_ERROR|];
      }
    }
  }

  ghost predicate Conflicts(change: Change)
  {
    exists i :: 0 <= i < |change.sideEffects| && "conflict:" <= change.sideEffects[i]
  }

  /** The checks, verdict by verdict: an artifact without text is incomplete; one that reports a
      validation error is bad; of the others, a read-only node's is unsafe if it did anything, and a
      writing node's conflicts if it names a conflict and is otherwise unsafe exactly if a path leaves
      the write scope. Everything else is for the agent to judge. */
  lemma VerdictTable(node: ProblemNode, artifact: Artifact)
    ensures DeterministicVerdict(node, artifact) == Some(Reject(IncompleteOutput)) <==> Blank(artifact.text)
    ensures DeterministicVerdict(node, artifact) == Some(Reject(BadOutput)) <==> Complains(artifact.text)
    ensures DeterministicVerdict(node, artifact) == Some(Reject(MergeConflict)) <==>
              && !Blank(artifact.text) && !Complains(artifact.text)
              && node.allowWrite && artifact.change.Some? && Conflicts(artifact.change.value)
    ensures DeterministicVerdict(node, artifact) == Some(Reject(UnsafeSideEffect)) <==>
              && !Blank(artifact.text) && !Complains(artifact.text)
              && artifact.change.Some?
              && if node.allowWrite then !Conflicts(artifact.change.value) && !PathsSafe(node, artifact)
                 else artifact.change.value.changedPaths != [] || artifact.change.value.sideEffects != []
    ensures DeterministicVerdict(node, artifact) == None <==>
              && !Blank(artifact.text) && !Complains(artifact.text)
              && (artifact.change.Some? ==>
                    && PathsSafe(node, artifact)
                    && if node.allowWrite then !Conflicts(artifact.change.value)
                       else artifact.change.value.sideEffects == [])
  {
    TrimStartIs(artifact.text);
    TrimEndIs(TrimStart(artifact.text));
    assert !(Blank(artifact.text) && Complains(artifact.text)) by {
      assert !(VALIDATION_ERROR <= "");
    }
    hide PathAllowed, Blank, Complains, TrimStart, TrimEnd;
  }

  /** Which sizes are executed as they are: up to Small for exploiting, up to Medium for every other
      purpose. A larger node is planned: with the plan it already has if that is a group. */
  lemma RouteTable(purpose: TaskType, size: WorkSize, current: NodePlan, allow: bool)
    ensures
      var plan := PlanFromScopeAssessment(size, current, purpose.DefaultPolicyPack(), allow);
      if size == Tiny || size == Small || (size == Medium && purpose != Exploit) then plan == ExecutePlan
      else if current.Group? then plan == current
      else plan == NeedsPlanning
  {
    match purpose
    case Explore =>
    case Exploit =>
    case Refine =>
    case VerifyTask =>
  }
}
