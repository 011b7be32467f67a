/** Identifiers, enumerations and records shared by the workspace and the task engine. Free text that
    only reaches prompts (intents, reports, reasons, notes) is not modelled. */
module Types {
  type NodeId = nat
  type ArtifactId = nat
  type ResourceId = nat
  datatype ProblemKey = ProblemKey(text: string)

  datatype Option<+T> = None | Some(value: T)

  datatype EngineError =
    | MissingNode(node: NodeId)
    | MissingArtifact(artifact: ArtifactId)
    | NoCandidate(node: NodeId)
    | Cancelled
    | AgentProtocol
    | WorkspaceFailure
  {
    /** Errors that only the world outside the engine can cause. */
    predicate External() { Cancelled? || AgentProtocol? || WorkspaceFailure? }
  }

  datatype Outcome<+T> = Ok(value: T) | Err(error: EngineError)

  datatype WorkSize = Tiny | Small | Medium | Large | XLarge
  {
    function Rank(): nat {
      match this case Tiny => 0 case Small => 1 case Medium => 2 case Large => 3 case XLarge => 4
    }
  }

  datatype TaskType = Explore | Exploit | Refine | VerifyTask
  {
    function DefaultPolicyPack(): PolicyPack {
      match this
      case Explore => PolicyPack(true, Large)
      case Exploit => PolicyPack(true, Medium)
      case Refine => PolicyPack(false, Large)
      case VerifyTask => PolicyPack(false, Large)
    }
  }

  datatype PolicyPack = PolicyPack(decompose: bool, autoPlanThreshold: WorkSize)

  datatype NodePolicy = ExplorePolicy | ImplementPolicy | ReviewPolicy | VerifyPolicy | DecomposePolicy

  datatype NodeOperation = Specify | Plan | Execute | Combine | Verify | Commit

  datatype NodeStatus =
    | New | Specified | WaitingForInfo | Planned | Running | Combining
    | Verifying | Accepted | Rejected | Pruned | Committed

  datatype FailureClass =
    | MissingInfo | SpecAmbiguity | IncompleteOutput | BadOutput
    | UnsafeSideEffect | MergeConflict | BudgetExhausted

  datatype Verdict = Accept | Reject(failure: FailureClass) | Uncertain

  // ---- Workspace ----

  datatype Provider = Memory | FileSystem | GitFileSystem

  datatype Requirement = Requirement(provider: Provider, readScope: seq<string>, writeScope: seq<string>)

  datatype ResourceState = Active | Released | FailedCleanup

  datatype ResourceRef =
    | RunningNode(node: NodeId)
    | CandidateArtifact(artifact: ArtifactId)
    | ChildInputForCombine(node: NodeId)
    | MergeSurface(node: NodeId)
    | DebugRetain

  datatype Resource = Resource(id: ResourceId, state: ResourceState, refs: seq<ResourceRef>)

  datatype Surface = Surface(resources: seq<Resource>)

  datatype Change = Change(
    resources: seq<Resource>,
    resourceIds: seq<ResourceId>,
    changedPaths: seq<string>,
    sideEffects: seq<string>)
}
