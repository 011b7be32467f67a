/** What holds between any two steps of the engine, and what a stretch of steps for one node changes. */
module EngineProgress {
  import opened Types
  import opened Nodes
  import opened Resources
  import opened ResourceSafety
  import opened EngineState
  import opened EngineSteps

  /** The engine is in order and may work on node `n`. */
  ghost predicate Good(s: State, ledger: Ledger, lo: nat, n: NodeId)
  {
    StoreOk(s, lo) && ResourcesOk(s, ledger, lo) && n in s.nodes && InTurn(s, n)
  }

  /** What working on node `n` may change. */
  ghost predicate Moved(s: State, from: Ledger, t: State, to: Ledger, n: NodeId)
  {
    Kept(s, t, n) && TableStep(s.resources, from, t.resources, to)
  }

  lemma MovedNowhere(s: State, ledger: Ledger, n: NodeId)
    ensures Moved(s, ledger, s, ledger, n)
  {
  }

  lemma MovedOn(s: State, ls: Ledger, t: State, lt: Ledger, u: State, lu: Ledger, n: NodeId)
    requires Moved(s, ls, t, lt, n) && Moved(t, lt, u, lu, n)
    ensures Moved(s, ls, u, lu, n)
  {
    hide Kept, TableStep;
    KeptTransitive(s, t, u, n, n);
    TableStepTransitive(s.resources, ls, t.resources, lt, u.resources, lu);
  }

  lemma KeptIsHeld(s: State, lo: nat, t: State, ledger: Ledger, to: Ledger)
    requires ResourcesOk(s, ledger, lo)
    requires s.artifacts == t.artifacts && Keeps(s.resources, t.resources)
    requires s.nextNode <= t.nextNode && s.nextArtifact == t.nextArtifact
    requires TableOk(t.resources, to, lo, s.nextNode, s.nextArtifact)
    ensures ResourcesOk(t, to, lo)
  {
    TableOkMore(t.resources, to, lo, s.nextNode, s.nextArtifact, t.nextNode, t.nextArtifact);
    hide TableOk;
    forall a | a in t.artifacts ensures Held(t, a) { assert Held(s, a); }
  }

  /** A step that leaves resources and artifacts alone. */
  lemma SameResources(s: State, ledger: Ledger, lo: nat, t: State, n: NodeId)
    requires Good(s, ledger, lo, n)
    requires StoreOk(t, lo) && Kept(s, t, n) && InTurn(t, n)
    requires t.resources == s.resources && t.artifacts == s.artifacts && t.nextArtifact == s.nextArtifact
    ensures Good(t, ledger, lo, n) && Moved(s, ledger, t, ledger, n)
  {
    hide StoreOk, InTurn;
    KeptIsHeld(s, lo, t, ledger, ledger);
  }

  lemma EventGood(s: State, ledger: Ledger, lo: nat, n: NodeId, operation: NodeOperation)
    requires Good(s, ledger, lo, n)
    ensures Good(Recorded(s, n, operation), ledger, lo, n) && Moved(s, ledger, Recorded(s, n, operation), ledger, n)
  {
    hide StoreOk, ResourcesOk, Kept, InTurn;
    RecordEvent(s, lo, n, operation);
    SameResources(s, ledger, lo, Recorded(s, n, operation), n);
  }

  lemma RunGood(s: State, ledger: Ledger, lo: nat, n: NodeId, operation: NodeOperation)
    requires Good(s, ledger, lo, n)
    ensures Good(RunRecorded(s, n, operation), ledger, lo, n)
    ensures Moved(s, ledger, RunRecorded(s, n, operation), ledger, n)
  {
    hide StoreOk, ResourcesOk, Kept, InTurn;
    RecordRun(s, lo, n, operation);
    SameResources(s, ledger, lo, RunRecorded(s, n, operation), n);
  }

  lemma AttemptGood(s: State, ledger: Ledger, lo: nat, n: NodeId, key: ProblemKey, attempt: AttemptRecord)
    requires Good(s, ledger, lo, n) && attempt.node == n
    ensures var t := AttemptRecorded(s, key, attempt); Good(t, ledger, lo, n) && Moved(s, ledger, t, ledger, n)
  {
    hide StoreOk, ResourcesOk, Kept, InTurn;
    RecordAttempt(s, lo, n, key, attempt);
    SameResources(s, ledger, lo, AttemptRecorded(s, key, attempt), n);
  }

  lemma UpdateGood(s: State, ledger: Ledger, lo: nat, n: NodeId, node: ProblemNode)
    requires Good(s, ledger, lo, n)
    requires SameIdentity(s.nodes[n], node) && node.children == s.nodes[n].children
    requires node.plan == s.nodes[n].plan || node.children == []
    requires Produced(NodeSet(s, n, node), n)
    ensures Good(NodeSet(s, n, node), ledger, lo, n) && Moved(s, ledger, NodeSet(s, n, node), ledger, n)
  {
    hide StoreOk, ResourcesOk, Kept, InTurn, Produced, SameIdentity;
    UpdateNode(s, lo, n, node);
    SameResources(s, ledger, lo, NodeSet(s, n, node), n);
  }

  lemma CommitGood(s: State, ledger: Ledger, lo: nat, n: NodeId, a: ArtifactId)
    requires Good(s, ledger, lo, n) && Acceptable(s, a, s.nodes[n].key)
    ensures Good(CommittedTo(s, n, a), ledger, lo, n) && Moved(s, ledger, CommittedTo(s, n, a), ledger, n)
  {
    hide StoreOk, ResourcesOk, Kept, InTurn, Acceptable;
    CommitNode(s, lo, n, a);
    SameResources(s, ledger, lo, CommittedTo(s, n, a), n);
  }

  lemma InsertGood(s: State, ledger: Ledger, lo: nat, n: NodeId, template: NodeTemplate)
    requires Good(s, ledger, lo, n)
    requires Inherits(NewNode(s.nextNode + 1, Some(n), template), s.nodes[n])
    ensures var t := NodeInserted(s, Some(n), template); Good(t, ledger, lo, n) && Moved(s, ledger, t, ledger, n)
  {
    InsertChild(s, lo, n, template);
    var t := NodeInserted(s, Some(n), template);
    hide StoreOk, ResourcesOk, Kept, InTurn, Inherits;
    SameResources(s, ledger, lo, t, n);
  }

  lemma AdoptGood(s: State, ledger: Ledger, lo: nat, n: NodeId, first: NodeId)
    requires Good(s, ledger, lo, n) && first <= s.nextNode + 1 && FreshChildren(s, n, first)
    requires s.nodes[n].status != NodeStatus.Committed && Grouped(Adopted(s, n, first), n)
    ensures var t := Adopted(s, n, first); Good(t, ledger, lo, n) && Moved(s, ledger, t, ledger, n)
  {
    hide StoreOk, ResourcesOk, Kept, InTurn, FreshChildren, Grouped;
    AdoptChildren(s, lo, n, first);
    SameResources(s, ledger, lo, Adopted(s, n, first), n);
  }

  /** A step of the registry alone. */
  lemma TableGood(s: State, ledger: Ledger, lo: nat, n: NodeId, table: Table, to: Ledger)
    requires Good(s, ledger, lo, n)
    requires TableOk(table, to, lo, s.nextNode, s.nextArtifact) && TableStep(s.resources, ledger, table, to)
    ensures var t := s.(resources := table); Good(t, to, lo, n) && Moved(s, ledger, t, to, n)
  {
    var t := s.(resources := table);
    UpdateResources(s, lo, n, table);
    hide StoreOk, Kept, InTurn, TableOk;
    KeptIsHeld(s, lo, t, ledger, to);
  }

  lemma CapturedStore(s: State, lo: nat, n: NodeId, text: string, change: Change, children: seq<ArtifactId>)
    requires StoreOk(s, lo) && n in s.nodes && InTurn(s, n)
    requires forall k :: 0 <= k < |children| ==> children[k] in s.artifacts
    requires Bare(Some(change))
    ensures var t := Captured(s, n, text, change, children);
      && StoreOk(t, lo) && Kept(s, t, n) && InTurn(t, n) && n in t.nodes
      && t.nextArtifact in t.artifacts && t.artifacts[t.nextArtifact].node == n
  {
    hide StoreOk, InTurn, RetainedAll, Kept;
    var pushed := ArtifactPushed(s, n, text, Some(change), children);
    PushArtifact(s, lo, n, text, Some(change), children);
    UpdateResources(pushed, lo, n, Captured(s, n, text, change, children).resources);
    KeptTransitive(s, pushed, Captured(s, n, text, change, children), n, n);
  }

  /** Storing a captured change as an artifact and holding its resources for it. */
  lemma CaptureGood(s: State, ledger: Ledger, lo: nat, n: NodeId, text: string, change: Change,
                    children: seq<ArtifactId>, extra: set<Hold>)
    requires Good(s, ledger, lo, n)
    requires forall k :: 0 <= k < |children| ==> children[k] in s.artifacts
    requires forall id :: id in change.resourceIds ==> id in s.resources && s.resources[id].state == Active
    requires Bare(Some(change))
    ensures
      var t := Captured(s, n, text, change, children);
      && Good(t, ledger, lo, n) && Moved(s, ledger, t, ledger, n)
      && t.nextArtifact in t.artifacts && t.artifacts[t.nextArtifact].node == n
      && (TidyBut(s.resources, extra) ==> TidyBut(t.resources, extra))
  {
    assert Numbered(s, lo);
    CapturedTidy(s, n, text, change, children, extra);
    hide ResourcesOk, Kept, StoreOk, InTurn, Captured, NoFailures, TidyBut, TableStep;
    CapturedResources(s, ledger, lo, n, text, change, children);
    CapturedStore(s, lo, n, text, change, children);
  }

  lemma CapturedTidy(s: State, n: NodeId, text: string, change: Change, children: seq<ArtifactId>, extra: set<Hold>)
    ensures TidyBut(s.resources, extra) ==> TidyBut(Captured(s, n, text, change, children).resources, extra)
  {
    hide TidyBut;
    if TidyBut(s.resources, extra) {
      TidyRetain(s.resources, change.resourceIds, CandidateArtifact(s.nextArtifact + 1), extra);
    }
  }

  function Captured(s: State, n: NodeId, text: string, change: Change, children: seq<ArtifactId>): State
  {
    ArtifactPushed(s, n, text, Some(change), children).(
      resources := RetainedAll(s.resources, change.resourceIds, CandidateArtifact(s.nextArtifact + 1)))
  }

  lemma CapturedResources(s: State, ledger: Ledger, lo: nat, n: NodeId, text: string, change: Change,
                          children: seq<ArtifactId>)
    requires Numbered(s, lo) && ResourcesOk(s, ledger, lo)
    requires forall id :: id in change.resourceIds ==> id in s.resources && s.resources[id].state == Active
    ensures
      var t := Captured(s, n, text, change, children);
      && ResourcesOk(t, ledger, lo) && TableStep(s.resources, ledger, t.resources, ledger)
      && (NoFailures(s.resources) ==> NoFailures(t.resources))
  {
    var a := s.nextArtifact + 1;
    var t := Captured(s, n, text, change, children);
    TableOkMore(s.resources, ledger, lo, s.nextNode, s.nextArtifact, s.nextNode, a);
    RetainAll(s.resources, ledger, change.resourceIds, CandidateArtifact(a), lo, s.nextNode, a);
    hide RetainedAll, RefsKnown, Accounted, LedgerStep;
    forall o | o in t.artifacts ensures Held(t, o) {
      if o in s.artifacts {
        assert Held(s, o);
      }
    }
  }

  lemma InTurnBesides(s: State, t: State, n: NodeId, c: NodeId)
    requires Kept(s, t, c) && n in s.nodes && n != c && InTurn(s, n)
    requires forall i :: i in t.nodes && i !in s.nodes ==> i > n
    requires s.nodes[n].parent.Some? ==> s.nodes[n].parent.value < n && s.nodes[n].parent.value != c
    requires s.nodes[n].parent.Some? && s.nodes[n].parent.value in s.nodes ==>
      Linked(s, s.nodes[n].parent.value) && c !in s.nodes[s.nodes[n].parent.value].children
    ensures InTurn(t, n)
  {
    var parent := s.nodes[n].parent;
    if parent.Some? && parent.value in t.nodes {
      var p := parent.value;
      assert p in s.nodes && t.nodes[p] == s.nodes[p];
      forall k | 0 <= k < |s.nodes[p].children|
        ensures s.nodes[p].children[k] in s.nodes
        ensures t.nodes[s.nodes[p].children[k]] == s.nodes[s.nodes[p].children[k]]
      {
        assert s.nodes[p].children[k] in s.nodes[p].children;
      }
    }
  }

  /** Working on a child of `n` leaves `n` itself ready. */
  lemma ChildMoved(s: State, ledger: Ledger, lo: nat, n: NodeId, t: State, to: Ledger, c: NodeId)
    requires Good(s, ledger, lo, n) && Good(t, to, lo, c)
    requires Kept(s, t, c) && c in s.nodes && s.nodes[c].parent == Some(n)
    ensures Good(t, to, lo, n) && t.nodes[n] == s.nodes[n]
  {
    hide ResourcesOk, InTurn, Produced, Staged, Grouped, ArtifactOk, MemoOk, LogsOk;
    assert Linked(s, c) && Linked(s, n);
    var parent := s.nodes[n].parent;
    if parent.Some? && parent.value in s.nodes {
      assert Linked(s, parent.value);
    }
    InTurnBesides(s, t, n, c);
  }

  function BranchState(child: ProblemNode): State
  {
    State(child.id, 0, map[child.id := child], map[], map[], map[], [], [], map[])
  }

  /** A branch engine starts in order, wherever its child sits in the parent engine. */
  lemma BranchGood(s: State, ledger: Ledger, lo: nat, c: NodeId)
    requires Good(s, ledger, lo, c) && Untouched(s.nodes[c])
    ensures Good(BranchState(s.nodes[c]), ledger, c, c)
  {
    assert Linked(s, c) && Produced(s, c);
    var b := BranchState(s.nodes[c]);
    assert Linked(b, c) && Produced(b, c) && Staged(b, c) && Grouped(b, c);
  }
}
