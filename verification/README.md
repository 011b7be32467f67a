# Verified model of the task engine and its surroundings

The system runs a coding task as a tree of problem nodes. A node is specified, then either executed or
planned into children that run in stages or in parallel; children are combined, candidates are verified,
and accepted artifacts are committed and memoised under their problem key. Around this engine sit a
reference-counted registry of workspace resources, a scope language that limits what a node may write, a
board that runs a bounded number of tasks at a time, a cancellation token, the line protocol of the agent
host, and the cursor with which a client pages through a task's log.

## How the model is laid out

- `Splitting`, `Glob`, `Covering`, `ScopeGate`, `Containment`, `ScopeGateGaps`: the glob language, what a match
  means, when one pattern covers another, and when the gate that compares a child's scope with its parent's
  decides containment of the matched paths.
- `Types`, `Nodes`, `Resources`, `ResourceSafety`, `Environment`: records, the pure rules, the registry, and
  the outside world. What the workspace and the agent will answer is an arbitrary list, fixed in advance. A
  workspace promises that the resources it hands out have new ids in ascending order, are active and carry
  exactly the references asked for, and that a captured change names only resources of its surface or of its
  own; an agent promises only that a decoded result fits its operation. Both count their failures, so that the
  engine's contracts can say that it fails exactly when one of them does; a plan that widens a scope counts as a
  failure of the agent.
- `EngineState`, `EngineSteps`, `EngineProgress`: the engine's data as a value, its invariant, and what
  each elementary update keeps. Ids are handed out without gaps, so an engine whose first node is `lo` owns
  `lo..nextNode`; a branch engine starts at its child's id, which is why the ids of branches overlap.
- `TaskEngine`: the engine as a class whose methods follow the code step by step.
- `Renaming`, `Merge`, `MergeKeeps`, `MergeLoops`, `MergeOrder`, `MergeSweeps`, `MergeConflicts`: renumbering a
  branch, merging it, the independence of the merge order, without and with the cleanups between merges, and
  exactly when it fails.
- `BranchConcurrency`: branches at work at the same time.
- `TaskRuns`: what a whole run guarantees, read off the invariant.
- `AssistantTasks`, `TaskBoard` (module `TaskBoards`), `CancellationToken`: the board with its workers and the
  token, each as a class and as a step system over all interleavings.
- `TaskOutcomes`: how the tasks of a board end, told from the steps of its run.
- `RuntimeHost`, `RunScheduler`, `EventCursor`: framing, response reading, paging.

`Good` in the engine's contracts is the whole invariant together with the permission to work on one node;
`Moved` says what such work may change. A method that ends in an error keeps both.

## Where the code differs from what it says about itself

- The comment at src/task_run/engine.rs:33-42 says that decomposition stops at a configured depth. Both
  branches below it test the same condition, so the depth has no influence (`Nodes.DepthLimitIsInert`).
- The comment at src/task_board/board.rs:451-452 says a failure event is sent if the worker is dropped. The
  guard is created on the worker's first poll, so a worker dropped before it sends nothing, and a dropped
  worker reports if and only if it had been polled (`TaskBoards.DroppedReportsIfPolled`). Nothing in the
  program aborts a worker (src/task_board/board.rs:450 discards its handle), so this takes a shutdown of the
  runtime; what remains is a store that says Running, or Cancelled (`TaskBoards.VanishedKeepsItsSlot`).
- The scope gate matches the child pattern as if it were a path. That is containment if what it accepts is
  covered (`ScopeGate.GateExact`), and only then for parents without `?` or without `**`
  (`Containment.GateRightExactlyUnderGuard`). `ScopeGateGaps` shows three families of parents that accept
  children wider than themselves, each with the exact condition.
- An accepted artifact does not make a node committed. It does for every node that is not tiny or has a budget
  of at most one attempt (`TaskRuns.AcceptedMeansCommitted`), and with a larger budget there is always a run
  that ends otherwise (`TaskRuns.AcceptedNeedNotBeCommitted`).
- Parallel branches may finish in any order, and the result depends on it, however ids are renumbered, if and
  only if two of them recorded a memo entry or an attempt under the same problem key
  (`MergeConflicts.OrderFreeIfOwnKeys`, `MergeConflicts.LoopFreeIfOwnKeys`); a shared memo entry is the later
  branch's (`MergeConflicts.SharedKeyLaterWins`).
- A client that pages through agent events sees each exactly once only while every new report extends what it
  has already seen (`EventCursor.DeliveredIfReportsExtend`, `EventCursor.ExactAtPolls`).

## Model

| member | source | states |
|---|---|---|
| Glob.GlobMatchesMeaning | src/workspace/mod.rs:331-335 | a path matches a pattern exactly when its segments split into runs absorbed by `**` and segments matched one for one |
| Glob.PathAllowedMeaning | src/workspace/mod.rs:321-329 | a path is allowed by a list of patterns exactly if one of them matches it, in the same declarative sense; an empty list allows nothing |
| Glob.SegmentsMatchMeaning | src/workspace/mod.rs:337-363 | the same for every position of the backtracking search, so skipping with `**` neither loses nor adds a match |
| Glob.OnlyDoubleStarsMatchNothing | src/workspace/mod.rs:343-346 | the early exit for an exhausted path agrees with the general rule |
| Glob.SegmentMatchMeaning | src/workspace/mod.rs:365-369 | a segment matches exactly when it splits into runs absorbed by `*` and characters taken one for one (`?` takes any) |
| Glob.SegmentCharsMatchMeaning | src/workspace/mod.rs:371-403 | the same for every position of the character search, early exits included |
| Splitting.SplitsCompose | src/workspace/mod.rs:331-403 | matching composes: if an outer pattern splits the text of an inner one without putting a one-letter symbol on a wildcard, it matches every word the inner one matches |
| ScopeGate.RejectedChildEscapes | src/task_run/engine.rs:1638-1651 | completeness for every pair of patterns: a child pattern the gate rejects really matches a path the parent does not; the path is given, with a character foreign to the parent in place of each wildcard |
| ScopeGate.AcceptedChildContained | src/task_run/engine.rs:1638-1651 | soundness under the guard that what the gate accepts is covered: an accepted child pattern matches only paths its parent matches |
| Covering.SpreadSound | src/workspace/mod.rs:331-403 | putting a `**` (or `*`) around each single-segment (or single-character) wildcard of a run that already holds one adds no match |
| Covering.SpreadAccepts | src/workspace/mod.rs:331-403 | and loses none |
| Covering.Exchange | src/workspace/mod.rs:331-403 | a spread pattern that covers two texts side by side, and also with many foreign letters between them, covers them with a wildcard between them |
| Covering.Complete | src/workspace/mod.rs:331-403 | if every word of one pattern is a word of another, the other, spread out, splits the first pattern itself, wildcards going to wildcards |
| Containment.SegmentWithinCovers | src/workspace/mod.rs:365-403 | within one segment containment of the matched texts always means covering |
| Containment.ContainmentIsCovering | src/task_run/engine.rs:1638-1651 | for a parent without `?` or without `**`, a child pattern is contained if and only if the parent covers it, which is decided from the two patterns alone |
| Containment.GateDecidesContainment | src/task_run/engine.rs:1638-1651 | under the guard the gate accepts exactly the contained patterns, for every pair of patterns |
| Containment.GateRightExactlyUnderGuard | src/task_run/engine.rs:1638-1651 | for a parent without `?` or without `**`, the gate is right about a child if and only if the guard holds |
| Containment.PlainIsExact | src/task_run/engine.rs:1638-1651 | the guard holds whenever no `?` of the parent can meet a `*` of the child and no one-segment pattern of the parent matches the text `**`, and for what the gate accepts unseen |
| ScopeGate.CoversContains | src/task_run/engine.rs:1644-1651 | any alignment of two patterns that never puts a one-letter symbol on a wildcard proves containment |
| ScopeGate.EverythingMatches | src/task_run/engine.rs:1644-1646 | the pattern treated as everything matches every path, the empty one too |
| ScopeGate.NarrowedScopesAllowLess | src/task_run/engine.rs:1618-1636 | for whole scope lists: a child list inherited unchanged, or with one accepting parent pattern under the guard for each of its patterns, allows no path its parent list forbids |
| ScopeGateGaps.StarAcceptsDoubleStar | src/task_run/engine.rs:1644-1651 | a gap of the gate: `dir/*` accepts `dir/**`, which matches deeper paths |
| ScopeGateGaps.QuestionAcceptsStar | src/task_run/engine.rs:1644-1651 | a gap of the gate: `dir/?` accepts `dir/*`, which matches names of any other length |
| ScopeGateGaps.BelowAcceptsBareDirectory | src/task_run/engine.rs:1644-1651 | a gap of the gate: `dir/**/*` accepts `dir/**`, which also matches the bare directory |
| ScopeGateGaps.StarGap | src/task_run/engine.rs:1644-1651 | `dir/*` accepts patterns of one segment below the directory only, and an accepted one is contained if and only if that segment is not `**` |
| ScopeGateGaps.QuestionGap | src/task_run/engine.rs:1644-1651 | `dir/?` accepts patterns of one character below the directory only, and an accepted one is contained if and only if that character is not `*` |
| ScopeGateGaps.BelowGap | src/task_run/engine.rs:1644-1651 | `dir/**/*` accepts patterns below the directory only, and an accepted one is contained if and only if some segment after the directory is not `**` |
| ScopeGateGaps.BelowGuard | src/task_run/engine.rs:1644-1651 | for such a parent the guard is that same condition, so a nested pattern such as `src/a/**` passes it under `src/**/*` |
| ScopeGateGaps.ContainedBeyondGuard | src/task_run/engine.rs:1644-1651 | with `?` and `**` in one parent the guard is sufficient only: an accepted pair beyond it that is contained |
| Nodes.DepthLimitIsInert | src/task_run/engine.rs:27-60 | the route depends on the size against the threshold alone; neither the policy's wish to decompose nor the depth limit changes it |
| Nodes.InheritedChild | src/task_run/engine.rs:1586-1636 | inheritance fails exactly when some scope pattern is rejected by the gate against every pattern of its parent; a child has its parent's permission, budget and provider; for reading and for writing it has the scope its item names, or its parent's where the item names none; a child planned for exploring takes over the parent's policy and task type, any other keeps its own |
| Nodes.DeterministicChecks | src/task_run/engine.rs:773-840 | what passes the deterministic checks stayed inside the node's permissions; the checks only reject, and an unsafe verdict is justified |
| Nodes.VerdictTable | src/task_run/engine.rs:773-840 | verdict by verdict, exactly when it is given: blank text is incomplete, text that starts with the validation marker after whitespace is bad output; of the others a read-only node that did anything is unsafe, a writing node conflicts if it names a conflict and else is unsafe exactly if a path leaves its scope; everything else goes to the agent |
| Nodes.RouteTable | src/task_run/node.rs:105-124 | which sizes are executed: up to Small when exploiting, up to Medium for every other task type; a larger node keeps its group or is planned |
| Resources.WorkspaceResourceRegistry.TrackAll | src/task_run/resources.rs:13-17 | later entries replace earlier ones with the same id |
| Resources.WorkspaceResourceRegistry.Retain | src/task_run/resources.rs:19-26 | a reference is added once; unknown ids are ignored |
| Resources.WorkspaceResourceRegistry.Release | src/task_run/resources.rs:28-32 | every occurrence of the reference goes, nothing else |
| Resources.WorkspaceResourceRegistry.ReleaseAllRefs | src/task_run/resources.rs:34-38 | every resource loses all references and nothing else |
| Resources.WorkspaceResourceRegistry.ReleasableIds | src/task_run/resources.rs:40-48 | exactly the active resources without references, each once |
| Resources.WorkspaceResourceRegistry.MarkReleased | src/task_run/resources.rs:54-58 | the state changes, unknown ids are ignored |
| Resources.WorkspaceResourceRegistry.MarkFailedCleanup | src/task_run/resources.rs:60-64 | the state changes, unknown ids are ignored |
| Resources.WorkspaceResourceRegistry.DrainAll | src/task_run/resources.rs:66-71 | the registry ends empty and every tracked resource was handed out exactly once |
| ResourceSafety.ReleaseUndoesRetain | src/task_run/resources.rs:19-32 | releasing undoes exactly the retaining that added the reference; retaining twice is retaining once |
| ResourceSafety.TrackFresh | src/task_run/resources.rs:13-17 | tracking newly issued resources keeps every hold, every reference resolvable and the cleanup account balanced |
| ResourceSafety.RetainAll | src/task_run/engine.rs:1197-1205 | retaining keeps every hold and adds the reference to every named resource |
| ResourceSafety.DropAll | src/task_run/engine.rs:1207-1225 | releasing references that belong to no artifact never costs an artifact its hold |
| ResourceSafety.MarkCleaned | src/task_run/engine.rs:1279-1294 | one cleanup call moves exactly one releasable resource out of the active state; the account still balances |
| ResourceSafety.TidyReleasable | src/task_run/resources.rs:40-48 | once the temporary references are gone, an active resource is releasable exactly if no artifact holds it |
| TaskEngine.MergedTidy | src/task_run/engine.rs:507-512 | a merge brings in no temporary reference |
| EngineSteps.StoreKept | src/task_run/engine.rs:203-272 | a step that touches one node in turn and otherwise only adds keeps the whole engine in order: ids, tree, inheritance, stage order, memo, accepted artifacts, logs |
| EngineSteps.CommitNode | src/task_run/engine.rs:884-892 | committing an acceptable artifact keeps the engine in order |
| EngineSteps.PushArtifact | src/task_run/engine.rs:924-946 | storing an artifact keeps the engine in order |
| EngineSteps.InsertChild | src/task_run/engine.rs:894-922 | inserting an inheriting child keeps the engine in order |
| EngineSteps.AdoptChildren | src/task_run/engine.rs:373-421 | linking freshly inserted children to their parent keeps the engine in order |
| EngineProgress.CaptureGood | src/task_run/engine.rs:592-607 | storing a captured change holds every resource it names for the new artifact |
| EngineProgress.ChildMoved | src/task_run/engine.rs:238-255 | work on a child leaves its parent ready and unchanged |
| EngineProgress.BranchGood | src/task_run/engine.rs:423-470 | a private branch engine starts in order wherever its child sits |
| TaskEngine.ContextComplete | src/task_run/engine.rs:1154-1180 | every artifact the context of an agent run looks up exists |
| TaskEngine.Engine.Commit | src/task_run/engine.rs:884-892 | memo, accepted artifact, status and event are set together, nothing else changes |
| TaskEngine.Engine.CleanupReleasableResources | src/task_run/engine.rs:1279-1294 | on success exactly the releasable resources are Released, each after exactly one call, and nothing is left releasable; every hold survives; a failed call leaves some of them Released, that one FailedCleanup and the rest as they were |
| TaskEngine.Engine.RunAgent | src/task_run/engine.rs:1041-1152 | the outcome is what the token and the next reply call for: cancelled, undecodable or the agent's output; a finished run is recorded once with its event, a cancelled one not at all |
| TaskEngine.Engine.Specify | src/task_run/engine.rs:274-303 | one run; the node gets the size the agent answered and the route and status that follow from it |
| TaskEngine.Engine.OpenRunningSurface | src/task_run/engine.rs:573-578 | the surface's resources are tracked, active and held for the running node |
| TaskEngine.Engine.CaptureArtifact | src/task_run/engine.rs:592-607 | one new artifact of this node that carries exactly what the workspace captured: its paths, its side effects, and only resources of the surface or of its own, each active and held for the artifact |
| TaskEngine.Engine.Attempt | src/task_run/engine.rs:573-607 | the first half of an execution: one run on a fresh surface, and one artifact with the text the agent answered and the paths and side effects the workspace captured |
| TaskEngine.Engine.ExecuteNode | src/task_run/engine.rs:567-623 | one run and one more attempt, whose artifact has the agent's text and the captured change; a tiny node without changed paths is committed directly, the old candidate staying in place; any other gets the new artifact as candidate; no temporary reference and nothing releasable is left behind |
| TaskEngine.Engine.GatherChildren | src/task_run/engine.rs:636-648 | the accepted artifacts of the children in order, and exactly the changes they carry |
| TaskEngine.Engine.HoldChildInputs | src/task_run/engine.rs:649-652 | every child input is held while the parent combines |
| TaskEngine.Engine.CombineChildren | src/task_run/engine.rs:631-695 | entered only with every child accepted; the workspace merges exactly the changes of the children's accepted artifacts, once and in order, and the candidate combines those artifacts, with the text the agent answered and the change captured on the merge surface; no temporary reference and nothing releasable is left behind |
| TaskEngine.Engine.VerifyArtifact | src/task_run/engine.rs:745-771 | a deterministic verdict stands without an agent run and with nothing changed; otherwise one run decides, and the verdict is the one the agent answered |
| TaskEngine.Engine.VerifyAndMaybeCommit | src/task_run/engine.rs:697-743 | the judgement, deterministic or the agent's, is recorded under the node's key and followed: acceptance commits the candidate without a retry, a request for information waits, a final rejection ends Rejected or Pruned, anything else executes again; in the end the node stands as the last recorded verdict says; at most one run plus two per remaining retry |
| TaskEngine.Engine.ActOnVerdict | src/task_run/engine.rs:697-743 | acceptance commits the judged candidate; uncertainty, missing information and ambiguity end in WaitingForInfo with nothing else changed; other rejections go to the retry rule |
| TaskEngine.Engine.HandleReject | src/task_run/engine.rs:843-882 | unsafe, conflicting or out of budget is final (Rejected if and only if the budget is spent, else Pruned) without another run, with nothing but the status changed; anything else executes again and ends by a later verdict |
| TaskEngine.Engine.Retry | src/task_run/engine.rs:870-882 | one more attempt and another verification, by whose last verdict the node ends; the mutual recursion ends because the remaining budget shrinks; when every retry says nothing and changes nothing the node ends Rejected with an accepted artifact |
| TaskEngine.Engine.PlanChildren | src/task_run/engine.rs:373-421 | it succeeds exactly if the agent answers with a plan whose items may all inherit; then the node has that plan, its mode and items, and one untouched child per item, in order, exactly as inherited |
| TaskEngine.Engine.AdoptPlan | src/task_run/engine.rs:404-421 | exactly the given group is adopted, with one inheriting child per item; it fails exactly if some item widens a scope |
| TaskEngine.Engine.MarkParentBlocked | src/task_run/engine.rs:328-371 | the parent waits if and only if some child waits, and is pruned otherwise |
| TaskEngine.Engine.AllChildrenAccepted | src/task_run/engine.rs:319-326 | gating looks at accepted artifacts, not at status |
| TaskEngine.Engine.ResolveStageChildren | src/task_run/engine.rs:247-259 | stage children run one at a time in order; the first that does not deliver blocks the parent; it reports success exactly if every child is committed |
| TaskEngine.Engine.ResolveParallelChildren | src/task_run/engine.rs:423-483 | branches may finish and merge in any order; on success every child's branch was joined and has ended; the invariant, the holds and the run bound survive every one; branches running at the same time are the subject of `BranchConcurrency` |
| TaskEngine.Engine.JoinBranch | src/task_run/engine.rs:474-479 | the engine is exactly the merge with the branch, swept of what became releasable; the siblings are untouched and the child has ended |
| TaskEngine.Engine.RunPrivate | src/task_run/engine.rs:440-471 | a branch that ends well has its child ended and can be merged; one that fails is abandoned, its registry emptied, with its parent undisturbed |
| TaskEngine.Engine.Abandon | src/task_run/engine.rs:1451-1469 | every resource of an abandoned branch still active gets exactly one cleanup call, the others none |
| TaskEngine.Engine.NumberBranch | src/task_run/engine.rs:490-505 | new ids are handed out in ascending order of the old ones, the branch root keeping its own |
| TaskEngine.Engine.MergeParallelBranch | src/task_run/engine.rs:485-565 | merging a well-formed branch never fails and yields exactly the merged engine |
| TaskEngine.Engine.ResolvePlanned | src/task_run/engine.rs:230-261 | the children are the items of the plan the agent answered; verification is reached exactly if they delivered (all committed in a stage, all accepted in a parallel group), and then with a candidate that combines every child's accepted artifact; otherwise the parent is blocked |
| TaskEngine.Engine.ResolveSpecified | src/task_run/engine.rs:217-272 | a node routed to execution is committed with its first attempt if it is tiny and that attempt changed no path, and otherwise ends by the last verdict on it; a node routed to planning has the agent's plan, and ends blocked if its children did not deliver and by the last verdict on their combination if they did |
| TaskEngine.Engine.WorkOn | src/task_run/engine.rs:217-261 | the way to a candidate: by execution with the artifact of one attempt, by planning with the agent's plan; it ends the node early exactly if that attempt of a tiny node changed no path, or the children did not deliver |
| TaskEngine.Engine.Resolve | src/task_run/engine.rs:203-272 | cancelled at its start it changes nothing; a memo hit commits the memoised artifact at once and changes nothing else; otherwise the node gets the size the agent answered and ends as that route says; it succeeds exactly if nothing outside the engine failed; Ok(Some(a)) means committed with a, Ok(None) waiting, rejected or pruned; a run that ends Ok leaves no temporary reference behind; the invariant holds on every path |
| TaskEngine.Engine.InsertRoot | src/task_run/engine.rs:132-134 | a root starts untouched in an engine in order |
| TaskEngine.Engine.ReleaseEverything | src/task_run/engine.rs:146-148 | no reference is left and nothing stays active unless a cleanup failed; without failure every tracked resource was cleaned up exactly once |
| TaskEngine.Engine.RunWithCancel | src/task_run/engine.rs:140-164 | it ends Ok exactly if the root exists and nothing outside the engine failed; it then reports how the root settled, as the memo or the agent's answers call for, and leaves every tracked resource Released after exactly one cleanup call; however it ends no reference is left; runs are bounded by the quota times the nodes; only an unknown root fails internally |
| TaskEngine.CommittedIfAccepted | src/task_run/engine.rs:697-743 | a candidate is committed without a retry if and only if the deterministic checks pass and the agent's verification accepts, and the verdict is on record under the node's key |
| TaskEngine.CommittedByLastVerdict | src/task_run/engine.rs:697-743 | a node that ends by a verdict is committed if and only if the last record under its key accepts, and then with its candidate |
| TaskEngine.ChangesInOrder | src/task_run/engine.rs:636-648 | the changes handed to the workspace are those of the inputs that have one, every one, in the order of the inputs |
| Merge.IdMapsEmbed | src/task_run/engine.rs:490-505 | the id maps are total on the branch, strictly increasing, and send every id but the root's beyond the parent's |
| Merge.MergedNodeAt | src/task_run/engine.rs:519-522 | after a merge exactly the parent's nodes and the renamed branch nodes exist; every other parent node is as before |
| Merge.MergedArtifactAt | src/task_run/engine.rs:514-517 | the same for artifacts |
| Merge.MergedMemoAt | src/task_run/engine.rs:559-562 | memo entries of the branch arrive renamed, the parent's others stay |
| Merge.MergedLogsAt | src/task_run/engine.rs:524-557 | events, runs and attempts of the branch are appended in order, each once, renamed |
| MergeKeeps.MergeKeepsStore | src/task_run/engine.rs:485-565 | the merged engine is in order: ids equal keys, children, parents, candidates, accepted artifacts and memo entries resolve, parents precede children, stage order and permissions hold |
| MergeKeeps.MergedResourcesOk | src/task_run/engine.rs:507-512 | every artifact of parent and branch still holds its resources, every reference resolves, the cleanup account balances |
| MergeKeeps.MergeKeepsResources | src/task_run/engine.rs:507-512 | the same when the branch worked since the parent's account was taken |
| Renaming.RemapNodeTotal | src/task_run/engine.rs:1477-1500 | renumbering a node whose ids are all mapped succeeds and renames every id |
| Renaming.RemapArtifactTotal | src/task_run/engine.rs:1502-1519 | the same for artifacts |
| Renaming.RemapRefsTotal | src/task_run/engine.rs:1534-1567 | no reference is dropped when every referenced id is mapped |
| MergeLoops.SortIds | src/task_run/engine.rs:490-500 | the ids in ascending order |
| MergeLoops.InsertRemapped | src/task_run/engine.rs:514-522 | every entry ends under its own new id whatever the order of insertion; fails exactly if some entry cannot be renumbered |
| MergeLoops.AppendRemapped | src/task_run/engine.rs:524-543 | entries are appended in order or the first unmapped one fails the merge |
| MergeLoops.ExtendAttempts | src/task_run/engine.rs:545-557 | attempt lists are extended key by key |
| MergeLoops.MergeMemo | src/task_run/engine.rs:559-562 | the branch's entries are renumbered over the parent's |
| MergeLoops.TrackBranch | src/task_run/engine.rs:507-512 | the branch registry is drained and every resource tracked once with renamed references |
| MergeOrder.MergesCommute | src/task_run/engine.rs:474-565 | two finished branches on different keys may trade places: the merged engines are equal up to an explicit renumbering of the new ids |
| MergeOrder.JoinedAlike | src/task_run/engine.rs:485-565 | merging the same branch into engines equal up to renumbering keeps them equal under that renumbering |
| MergeOrder.AnyOrder | src/task_run/engine.rs:474-565 | merging finished branches that share no problem key in any order gives the same engine up to a bijective renumbering that fixes all earlier ids: nodes, artifacts, memo, attempts and resources correspond one to one, events and runs as multisets |
| MergeSweeps.LoopedIs | src/task_run/engine.rs:474-483 | when every cleanup call succeeds, cleaning up after each merge and at the end leaves the same engine, with the same cleanup calls, as merging everything and cleaning up once |
| MergeSweeps.AnyOrderCleaned | src/task_run/engine.rs:474-483 | when every cleanup call succeeds and no key is shared, the loop as it runs leaves the same engine up to renumbering and makes the same cleanup calls in any order of finishing |
| MergeConflicts.SharedKeyLaterWins | src/task_run/engine.rs:559-562 | a key both branches memoised ends up with the later branch's artifact, and then no renumbering whatever makes the two orders equal |
| MergeConflicts.SharedKeyShows | src/task_run/engine.rs:545-562 | the same for a key under which both branches recorded an attempt, memoised or not: no renumbering makes the two orders equal |
| MergeConflicts.OrderShowsIfShared | src/task_run/engine.rs:474-565 | for two branches of different children the order of the merges does not show, up to renumbering, if and only if they share no key, neither in the memo nor in the attempts |
| MergeConflicts.OrderFreeIfOwnKeys | src/task_run/engine.rs:474-565 | for any number of branches of different children all orders of finishing agree up to renumbering if and only if no two branches share a key |
| MergeConflicts.LoopFreeIfOwnKeys | src/task_run/engine.rs:474-483 | the same condition, if and only if, for the loop with its cleanups, in terms of the engine it leaves and the cleanup calls |
| BranchConcurrency.OthersUndisturbed | src/task_run/engine.rs:432-471 | work on the resources of one engine leaves every other engine on the same workspace in order |
| BranchConcurrency.EveryInterleaving | src/task_run/engine.rs:423-483 | in every interleaving of branch work, merges, cleanups and abandoned branches the parent and all running branches are in order, with resources of their own; a branch may work from an account that lags behind, so ids issued to overlapping stretches of work may interleave in any way |
| BranchConcurrency.ConcurrentLoop | src/task_run/engine.rs:423-483 | a loop whose branches ran at the same time ends as the contract of the loop says: parent in order and tidy, its node as before, nothing else changed that was there before, agent runs within the same bound |
| TaskRuns.DescendantBound | src/task_run/engine.rs:1586-1636 | permission and budget never change along the tree; when every scope is inherited unchanged or has an exact accepting parent pattern for each of its own, no descendant may write a path its root may not |
| TaskRuns.ChildFollowsPlan | src/task_run/engine.rs:404-421 | in the whole tree the children of a node are the items of its plan, in its order; each has the scopes its item names and the parent's where it names none, so a child whose item leaves the write scope out may write exactly the paths its parent may |
| TaskRuns.WriteSafety | src/task_run/engine.rs:773-840 | a memoised or accepted artifact, wherever it came from, changed nothing if its task is read-only, else only paths in its producer's write scope and, under the same condition on the scopes, in the root's |
| TaskRuns.MemoAgreement | src/task_run/engine.rs:209-214 | memo entries are artifacts produced under their key; committed keys are memoised; an accepted artifact was produced under the accepting node's key |
| TaskRuns.StageBlocks | src/task_run/engine.rs:247-259 | a stage is always a block of committed children, then at most one other, then only new ones |
| TaskRuns.AttemptsBounded | src/task_run/engine.rs:843-856 | no descendant executes more often than the root's budget allows, counting at least one |
| TaskRuns.InputsStillHeld | src/task_run/engine.rs:1227-1277 | whatever verification or combination looks at has never been cleaned up and is held for its artifact |
| TaskRuns.AcceptedMeansCommitted | src/task_run/engine.rs:613-618 | a node that is not tiny, or has a budget of at most one attempt, has an accepted artifact if and only if it is committed |
| TaskRuns.OneAttemptAgrees | src/task_run/engine.rs:843-856 | under a root with a budget of at most one attempt this holds for the whole tree |
| TaskRuns.AcceptedNeedNotBeCommitted | src/task_run/engine.rs:203-272 | for every template with a budget of two or more a run of the engine, from inserting the root on, ends with the root Rejected although it has an accepted artifact |
| TaskRuns.CombineGated | src/task_run/engine.rs:319-326 | a combination is entered with every child committed but for tiny ones with a budget of two or more |
| TaskRuns.RunTask | src/task_board/board.rs:105-121 | one whole task: it ends Ok exactly if nothing outside the engine failed; then the root ended as the agent's answers call for, in a final status, committed exactly if an artifact is delivered, all resources released once; agent runs at most (4 + 2 max(1, budget)) per node |
| AssistantTasks.FinishedIsNotRunning | src/task_board/mod.rs:133-140 | a report puts its task back to Running exactly if its status is not final; Committed, WaitingForInfo, and Rejected or Pruned lead to Completed, WaitingForInput and Failed and nothing else does |
| AssistantTasks.AssistantTask.RecordEvent | src/task_board/mod.rs:94-99 | the log only grows and every event carries its position |
| AssistantTasks.AssistantTask.ApplyReport | src/task_board/mod.rs:88-92 | a final report ends in Completed, WaitingForInput or Failed |
| TaskBoards.TaskBoard.EnqueueWithRoot | src/task_board/board.rs:294-336 | afterwards nothing waits while a slot is free, and never more run than there are slots |
| TaskBoards.TaskBoard.StartReady | src/task_board/board.rs:408-437 | starts waiting tasks in order until the slots are full or the queue is empty |
| TaskBoards.TaskBoard.ApplyEvent | src/task_board/board.rs:523-574 | a terminal event frees the slot and fixes the status; progress does neither |
| TaskBoards.TaskBoard.Drain | src/task_board/board.rs:338-344 | applies every event in the order sent, interleaved with working workers, then fills the slots; it is a run of the step system |
| TaskBoards.TaskBoard.CancelTask | src/task_board/board.rs:346-377 | a waiting task is dropped for good, a running one gets its token set, anything else is unknown and changes nothing |
| TaskBoards.TaskBoard.CancelFirstActive | src/task_board/board.rs:379-388 | cancels some running task or, without one, the first that waits |
| TaskBoards.ReachableSound | src/task_board/board.rs:294-574 | the board invariant holds in every interleaving of board operations and worker steps |
| TaskBoards.EachTaskInOnePlace | src/task_board/board.rs:294-574 | each task is in exactly one of waiting, running, over, cancelled while waiting, and the store agrees: over is never Created, Queued or Running |
| TaskBoards.StartOrder | src/task_board/board.rs:408-437 | tasks start in enqueue order, skipping exactly those cancelled while waiting, which never start |
| TaskBoards.OneTerminalEvent | src/task_board/board.rs:450-519 | a worker has sent one terminal event if it is done and none otherwise |
| TaskOutcomes.EndedInRun | src/task_board/board.rs:450-521 | in every run of a board a task has ended with an event if and only if some step of the run called for it: a report, a noticed cancellation, a failure or a torn down worker, judged by whether the task was cancelled before |
| TaskOutcomes.ReportCompletes | src/task_board/board.rs:502-508 | a report taken with the token clear is what the task ends with: the terminal event is its completion with that status, and once applied the store says Completed, WaitingForInput or Failed accordingly |
| TaskOutcomes.OtherEnds | src/task_board/board.rs:499-520 | a run that breaks ends Failed; one that notices the cancellation, or reports after it, ends Cancelled; the store agrees once the event is applied |
| TaskOutcomes.LoggedForAReason | src/task_board/board.rs:450-521 | conversely a completion is logged only with a status reported before any cancellation, a cancellation only if the task was cancelled or its run said so, a failure only if the run broke or its worker was torn down at work |
| TaskOutcomes.NotCancelledUnasked | src/task_board/board.rs:499-520 | without a cancellation of the task and without a run that says so no cancellation of it is ever logged |
| TaskOutcomes.TokenInRun | src/task_board/board.rs:346-377 | a running task's token is set if and only if the task was cancelled after it was handed to the board |
| TaskOutcomes.ParallelBound | src/task_board/board.rs:248-251 | never more tasks run than the board was set up for, at least one; and while a task waits, exactly that many |
| TaskBoards.NothingForgotten | src/task_board/board.rs:338-344 | when all workers are done and drained, nothing waits and nothing runs |
| TaskBoards.CancelledInTime | src/task_board/board.rs:484-520 | a token set before the worker's last look at it rules out completion in every continuation |
| TaskBoards.VanishedKeepsItsSlot | src/task_board/board.rs:450-482 | the guard covers a worker only from its first poll on: one dropped earlier never sends a terminal event and keeps its slot in every continuation, and its task stays Running or Cancelled in the store |
| TaskBoards.AllSlotsVanished | src/task_board/board.rs:408-437 | with as many such workers as slots nothing is ever started again |
| TaskBoards.DroppedReportsIfPolled | src/task_board/board.rs:450-482 | in every run of a board a dropped worker has a terminal event if and only if it had been polled before |
| TaskBoards.CanVanish | src/task_board/board.rs:439-450 | a worker can be dropped before its first poll (the program does so only when its runtime shuts down): no event, and the store is left saying Running |
| CancellationToken.SharedToken.Cancel | src/agent_run/run.rs:38-42 | the flag is set; only the call that set it notifies |
| CancellationToken.UndisturbedCancel | src/agent_run/run.rs:38-42 | a canceller no other thread interrupts has exactly the effect of the method |
| CancellationToken.ReachableSound | src/agent_run/run.rs:38-62 | in every interleaving of cancellers and waiters at most one canceller is between setting the flag and notifying, and the one notification follows it |
| CancellationToken.NoLostWakeUp | src/agent_run/run.rs:48-62 | with the flag set a suspended waiter can go on or the notification is still to come; nobody returns before the flag is set |
| CancellationToken.Quiescent | src/agent_run/run.rs:38-62 | when nothing can move, with a canceller everyone has returned, without one everyone still waits |
| CancellationToken.SchedulesEnd | src/agent_run/run.rs:48-62 | no waiter goes round its loop twice: two steps per canceller and five per waiter bound every schedule |
| RuntimeHost.LinesTerminated | packages/agent-host/src/runtime-host.ts:148-160 | framing and unframing are inverse |
| RuntimeHost.SocketState.HandleSocketData | packages/agent-host/src/runtime-host.ts:139-161 | one chunk: the completed lines are handled up to the first that stops the host; otherwise the unterminated tail stays in the buffer |
| RuntimeHost.SocketState.RunNext | packages/agent-host/src/runtime-host.ts:61-91 | chunks are handled in arrival order; after shutdown they are ignored |
| RuntimeHost.ChunkingIndependent | packages/agent-host/src/runtime-host.ts:139-161 | the lines handled are the newline split of the whole input cut after the first shutdown line, however it was chunked |
| RuntimeHost.UpToStopIs | packages/agent-host/src/runtime-host.ts:152-158 | what is handled is all lines if none stops the host, and otherwise the lines up to and including the first that does |
| RuntimeHost.FramedMessagesHandled | packages/agent-host/src/runtime-host.ts:139-161 | a peer's newline-framed messages are handled exactly, up to the first shutdown |
| RuntimeHost.ArrivalOrder | packages/agent-host/src/runtime-host.ts:61-91 | in every interleaving of arrivals and turns the session has handled a prefix of the arrived chunks, in order |
| RuntimeHost.ReadLines | packages/agent-host/src/runtime-host.ts:227-245 | standard input yields the same lines and then a non-empty unterminated tail |
| RuntimeHost.TransportsAgree | packages/agent-host/src/runtime-host.ts:45-52 | socket and standard input handle the same lines except for an unterminated last one |
| RunScheduler.MergeStreamedEvents | src/agent_run/run_scheduler.rs:686-693 | the streamed events stay first; new ones follow once, at their first occurrence |
| RunScheduler.NewEventsAre | src/agent_run/run_scheduler.rs:686-693 | what is appended is exactly what was not streamed, without repeats |
| RunScheduler.NewEventsInOrder | src/agent_run/run_scheduler.rs:686-693 | position by position the appended events are the first occurrences of what was not streamed, all of them, in the order of the result |
| RunScheduler.MergeIdempotent | src/agent_run/run_scheduler.rs:686-693 | merging a list into itself, or the same result twice, changes nothing |
| RunScheduler.HostConnection.ReadResponseOrCancel | src/agent_run/run_scheduler.rs:406-453 | the first decisive message for the id decides; everything up to it is consumed and nothing after; own events reach the sink in order |
| RunScheduler.ReadsUniquely | src/agent_run/run_scheduler.rs:406-453 | the stream determines the outcome and how much is read |
| RunScheduler.EndsAs | src/agent_run/run_scheduler.rs:419-453 | a response is delivered if and only if the first decisive turn is a result for the run; an error for the run is passed on with its message; cancellation, a failed read, undecodable text and the end of the stream each have their own error |
| RunScheduler.StreamedInOrder | src/agent_run/run_scheduler.rs:430-438 | the streamed events are those of the run, all of them, in the order they came in |
| RunScheduler.OthersDoNotMatter | src/agent_run/run_scheduler.rs:443-448 | messages of other runs never change the outcome, wherever they are interleaved |
| RunScheduler.DeliversRun | src/agent_run/run_scheduler.rs:430-442 | a result delivers the streamed events of its id in order and then exactly the others it carries |
| EventCursor.FlattenedExactly | src/task_board/view.rs:260-290 | the agent events are those of all runs, each once, ordered by run and position |
| EventCursor.AgentEventsExactly | src/task_board/view.rs:260-290 | the same for the events of a report; without a report there are none |
| EventCursor.AgentPage | src/task_board/view.rs:188-197 | the agent events of a page are those with the ordinals beyond the cursor, one by one |
| EventCursor.InspectTaskView | src/task_board/view.rs:175-220 | a page holds the task events and agent events beyond the cursor with their ordinals, and the cursor of the whole; the timeline drops agent events that have durable copies |
| EventCursor.TaskEventsExactlyOnce | src/task_board/view.rs:175-220 | for every interleaving of appends, reports and polls the watcher has seen a prefix of the log without gap or repeat, and all of it after a poll |
| EventCursor.AgentEventsExactlyOnce | src/task_board/view.rs:260-290 | agent events are delivered exactly once as long as a single report is applied |
| EventCursor.DeliveredIfReportsExtend | src/task_board/view.rs:188-197 | for any history of appends, reports and polls, what was delivered is at every moment a beginning of the report in force, up to the cursor, if and only if every report applied extends what was delivered before it |
| EventCursor.ExactAtPolls | src/task_board/view.rs:188-197 | what the watcher has is exact after every poll if and only if at every poll the report in force extends what was delivered |
| EventCursor.ReplacedReportRepeats | src/task_board/view.rs:188-197 | a second report that changes a delivered event breaks it |

## Left out

- Prompt text, intents, reasons, notes, titles and timestamps: they reach prompts and logs only.
- Git, file system and process work behind the workspace, including the commit hook at src/task_run/engine.rs:1315-1370: the workspace is an oracle for fresh ids, changed paths, success and failure.
- `stop_after_route_depth`, progress events of the engine and run metadata (tools, durations, usage).
- JSON schemas, decoding and the validation of tool payloads: a decoded result fits its operation or is a protocol error.
- A second run of the same root: after the end-of-run release the artifacts' resources are gone, so the statements cover the first run of a root in an engine.
- What happens to finished but not yet joined branches after a sibling fails: the code drops them, and completeness of cleanup is stated for runs that end Ok only.
- TaskEngine.Engine.ResolveParallelChildren: runs each branch right before its merge; `BranchConcurrency.ConcurrentLoop` gives the same promises for branches that interleave. Its steps are stretches of work an engine contract describes, but the ids issued during overlapping stretches may interleave.
- Unbounded agents: an agent replies a finite, arbitrary number of times and a workspace answers likewise; every run that ends is covered.
- Containment.GateRightExactlyUnderGuard: for a parent that has both a `?` and a `**` covering is sufficient and not necessary (`ScopeGateGaps.ContainedBeyondGuard`), so there only one direction is stated. Completeness needs a character the parent pattern does not mention.
- MergeSweeps.AnyOrderCleaned: a cleanup call that fails ends the loop with an error (src/task_run/engine.rs:480) and is outside the statements about the order of merges; `TaskEngine.Engine.CleanupReleasableResources` says what such a call leaves.
- TaskBoards.TaskBoard.Drain: a drain that never finds the channel empty because workers keep sending is not covered; every drain that ends is.
- Task ids are enqueued once each, as task creation guarantees; a second enqueue of the same id is not modelled.
- The event records the board writes to a task's log, `wait_for_all` and the default root of the board.
- Machine widths: ids, sequence numbers and counters are unbounded.
- The streaming text decoder: the host model starts from the pieces of text it yields. What a line means (blank, malformed, run, shutdown) is a parameter that says whether it stops the host.
- Socket errors, persistence of the task store, the command line, the terminal interface, the daemon and the backends.
- Filtering of agent events and rendering of timeline items.
