/** Parallel branches at work at the same time. The engine runs a branch right before its merge; here the
    branches, the parent's merges and its cleanups interleave freely, sharing one workspace, and what the
    engine promises of the whole loop holds all the same. */
module BranchConcurrency {
  import opened Types
  import opened Nodes
  import opened Resources
  import opened ResourceSafety
  import opened EngineState
  import opened EngineSteps
  import opened EngineProgress
  import opened Merge
  import opened MergeKeeps
  import opened TaskEngine

  /** The parent's engine, the workspace's account, what it had issued when the loop began, the ids that
      have been taken, the children still to be started, the private engine of every running branch, and
      how many branches were merged. */
  datatype World = World(
    parent: State,
    ledger: Ledger,
    since: nat,
    taken: set<ResourceId>,
    waiting: set<NodeId>,
    running: map<NodeId, State>,
    joined: nat)

  /** What can happen next. `Work` is any stretch of a branch's work that an engine contract allows, from the
      account as the branch last saw it. That may lag behind what others were issued meanwhile, so the ids
      two branches take in overlapping stretches may interleave; the workspace only sees to it that no id
      is handed out twice. */
  datatype Action =
    | Begin(child: NodeId)
    | Work(child: NodeId, seen: Ledger, after: State, local: Ledger, to: Ledger)
    | Join(child: NodeId)
    | Clean(after: State, to: Ledger)
    | Abandon(child: NodeId, to: Ledger)

  /** What is known of a branch that ended well: no temporary reference is left, and it stayed within the
      quota of agent runs for its nodes. */
  ghost predicate Done(parent: State, n: NodeId, c: NodeId, b: State)
  {
    && Tidy(b.resources)
    && n in parent.nodes && |b.runs| <= Times(Quota(parent.nodes[n]), 1 + b.nextNode - c)
  }

  /** The common account after one registry was worked on: its own resources as the worker saw them, all
      others as before. */
  ghost predicate Accounts(ledger: Ledger, after: Table, local: Ledger, to: Ledger)
  {
    && ledger.issued <= to.issued && local.issued <= to.issued
    && forall id :: to.cleaned[id] == if id in after then local.cleaned[id] else ledger.cleaned[id]
  }

  ghost predicate Can(w: World, lo: nat, n: NodeId, action: Action)
  {
    match action
    case Begin(c) => c in w.waiting
    case Work(c, seen, after, local, to) =>
      && c in w.running && Good(w.running[c], seen, c, c) && w.since <= seen.issued
      && Good(after, local, c, c) && Moved(w.running[c], seen, after, local, c)
      && (forall id :: id in after.resources && id !in w.running[c].resources ==> id !in w.taken)
      && Accounts(w.ledger, after.resources, local, to)
    case Join(c) => c in w.running && Done(w.parent, n, c, w.running[c])
    case Clean(after, to) =>
      && Good(after, to, lo, n) && Moved(w.parent, w.ledger, after, to, n)
      && after == w.parent.(resources := after.resources) && Tidy(after.resources)
      && after.resources.Keys == w.parent.resources.Keys && Accounts(w.ledger, after.resources, to, to)
    case Abandon(c, to) =>
      && c in w.running && to.issued == w.ledger.issued
      && (forall id ::
            to.cleaned[id] == w.ledger.cleaned[id]
              + (if id in w.running[c].resources && w.running[c].resources[id].state == Active then 1 else 0))
  }

  ghost function Do(w: World, lo: nat, n: NodeId, action: Action): World
    requires Can(w, lo, n, action)
  {
    match action
    case Begin(c) =>
      if c !in w.parent.nodes then w
      else w.(waiting := w.waiting - {c}, running := w.running[c := BranchState(w.parent.nodes[c])])
    case Work(c, seen, after, local, to) =>
      w.(ledger := to, taken := w.taken + after.resources.Keys, running := w.running[c := after])
    case Join(c) =>
      var b := w.running[c];
      if c > w.parent.nextNode || c > b.nextNode then w
      else w.(parent := Merged(w.parent, c, b), running := w.running - {c}, joined := w.joined + 1)
    case Clean(after, to) => w.(parent := after, ledger := to)
    case Abandon(c, to) => w.(ledger := to, running := w.running - {c})
  }

  /** A running branch is in order at the common account and can be merged; everything it has was issued
      to it since the loop began. */
  ghost predicate BranchOk(parent: State, ledger: Ledger, l0: Ledger, n: NodeId, c: NodeId, b: State)
  {
    && Good(b, ledger, c, c)
    && c in parent.nodes && parent.nodes[c].parent == Some(n) && SameIdentity(parent.nodes[c], b.nodes[c])
    && b.resources.Keys !! parent.resources.Keys
    && forall id :: id in b.resources ==> id > l0.issued
  }

  /** The parent is in order, and so far the loop did what the contract of the whole loop allows. */
  ghost predicate ParentOk(parent: State, ledger: Ledger, s0: State, l0: Ledger, lo: nat, n: NodeId)
  {
    && Good(parent, ledger, lo, n) && Tidy(parent.resources) && Moved(s0, l0, parent, ledger, n)
    && parent.nodes[n].plan.Group? && parent.nodes[n].plan.group.mode == Parallel
    && forall c :: c in parent.nodes[n].children ==> c !in s0.nodes && c in parent.nodes
  }

  /** A child that was not started yet. */
  predicate Waits(parent: State, n: NodeId, c: NodeId)
  {
    n in parent.nodes && c in parent.nodes[n].children && c in parent.nodes && Untouched(parent.nodes[c])
  }

  /** Children waiting, running and merged. */
  function Places(w: World): nat
  {
    w.joined + |w.waiting| + |w.running.Keys|
  }

  ghost predicate RunsWithin(p: State, n: NodeId, joined: nat, t: State)
  {
    && n in p.nodes && n in t.nodes && t.nodes[n] == p.nodes[n] && p.nextNode <= t.nextNode
    && |t.runs| <= |p.runs| + Times(Quota(p.nodes[n]), joined + t.nextNode - p.nextNode)
  }

  /** No child runs twice, and the agent runs of the merged branches stay within the quota. */
  ghost predicate Counted(w: World, p: State, n: NodeId)
  {
    RunsWithin(p, n, w.joined, w.parent) && Places(w) <= |p.nodes[n].children|
  }

  /** Every id in use is counted as taken. */
  ghost predicate Known(w: World)
  {
    w.parent.resources.Keys <= w.taken && forall c :: c in w.running ==> w.running[c].resources.Keys <= w.taken
  }

  /** No resource is in two branches. */
  ghost predicate AllApart(running: map<NodeId, State>)
  {
    forall c, d :: c in running && d in running && c != d ==> running[c].resources.Keys !! running[d].resources.Keys
  }

  ghost predicate Sound(w: World, s0: State, l0: Ledger, lo: nat, n: NodeId)
  {
    && ParentOk(w.parent, w.ledger, s0, l0, lo, n)
    && l0.issued <= w.since && Known(w) && AllApart(w.running)
    && (forall c :: c in w.running ==>
          BranchOk(w.parent, w.ledger, l0, n, c, w.running[c]) && c in w.parent.nodes[n].children)
    && (forall c :: c in w.waiting ==> Waits(w.parent, n, c) && c !in w.running)
  }

  // ---- Work of one does not disturb the others ----

  /** Work on one registry as the common account sees it. */
  ghost predicate SharedStep(w: World, worked: Table, after: Table, to: Ledger)
  {
    && w.ledger.issued <= to.issued && worked.Keys <= after.Keys && Accounted(after, to)
    && (forall id :: id in after && id !in worked ==> w.since < id && id !in w.taken)
    && (forall id :: id !in after ==> to.cleaned[id] == w.ledger.cleaned[id])
  }

  /** Such work leaves every other registry on the same workspace in order, with resources of its own. */
  lemma OthersUndisturbed(w: World, q: State, lo: nat, n: NodeId, worked: Table, after: Table, to: Ledger)
    requires Good(q, w.ledger, lo, n) && q.resources.Keys !! worked.Keys && q.resources.Keys <= w.taken
    requires SharedStep(w, worked, after, to)
    ensures Good(q, to, lo, n) && q.resources.Keys !! after.Keys
  {
    hide StoreOk, InTurn, RefsKnown, Held;
  }

  /** The loop as a whole has touched nothing that was there before, whoever worked. */
  lemma OutsideUntouched(w: World, s0: Table, l0: Ledger, worked: Table, after: Table, to: Ledger)
    requires TableStep(s0, l0, w.parent.resources, w.ledger) && SharedStep(w, worked, after, to)
    requires l0.issued <= w.since && forall id :: id in worked ==> id > l0.issued
    ensures TableStep(s0, l0, w.parent.resources, to)
    ensures forall id :: id in after ==> id > l0.issued
  {
    hide Keeps;
  }

  lemma ParentUndisturbed(w: World, s0: State, l0: Ledger, lo: nat, n: NodeId, worked: Table, after: Table, to: Ledger)
    requires ParentOk(w.parent, w.ledger, s0, l0, lo, n) && w.parent.resources.Keys !! worked.Keys
    requires w.parent.resources.Keys <= w.taken && l0.issued <= w.since
    requires forall id :: id in worked ==> id > l0.issued
    requires SharedStep(w, worked, after, to)
    ensures ParentOk(w.parent, to, s0, l0, lo, n)
    ensures w.parent.resources.Keys !! after.Keys && forall id :: id in after ==> id > l0.issued
  {
    OthersUndisturbed(w, w.parent, lo, n, worked, after, to);
    OutsideUntouched(w, s0.resources, l0, worked, after, to);
    hide Good, TidyBut, Kept, TableStep, SharedStep;
  }

  lemma BranchUndisturbed(w: World, l0: Ledger, n: NodeId, c: NodeId, b: State, worked: Table, after: Table, to: Ledger)
    requires BranchOk(w.parent, w.ledger, l0, n, c, b) && b.resources.Keys !! worked.Keys
    requires b.resources.Keys <= w.taken && SharedStep(w, worked, after, to)
    ensures BranchOk(w.parent, to, l0, n, c, b) && b.resources.Keys !! after.Keys
  {
    OthersUndisturbed(w, b, c, c, worked, after, to);
    GoodHas(b, to, c, c);
    hide Good, SharedStep;
  }

  lemma GoodAccount(s: State, ledger: Ledger, lo: nat, n: NodeId)
    requires Good(s, ledger, lo, n)
    ensures Accounted(s.resources, ledger) && n in s.nodes
  {
  }

  // ---- Action by action ----

  lemma BranchParts(parent: State, ledger: Ledger, l0: Ledger, n: NodeId, c: NodeId, b: State)
    requires BranchOk(parent, ledger, l0, n, c, b)
    ensures Good(b, ledger, c, c) && c in b.nodes && b.resources.Keys !! parent.resources.Keys
    ensures forall id :: id in b.resources ==> l0.issued < id <= ledger.issued
    ensures Accounted(b.resources, ledger)
    ensures c in parent.nodes && parent.nodes[c].parent == Some(n) && SameIdentity(parent.nodes[c], b.nodes[c])
  {
  }

  lemma ParentParts(parent: State, ledger: Ledger, s0: State, l0: Ledger, lo: nat, n: NodeId)
    requires ParentOk(parent, ledger, s0, l0, lo, n)
    ensures Good(parent, ledger, lo, n) && n in parent.nodes && Tidy(parent.resources)
    ensures Moved(s0, l0, parent, ledger, n)
    ensures parent.nodes[n].plan.Group? && parent.nodes[n].plan.group.mode == Parallel
    ensures forall c :: c in parent.nodes[n].children ==> c !in s0.nodes && c in parent.nodes
  {
  }

  /** A stretch of work seen from a lagging account is sound for the common one. */
  lemma WorkShared(w: World, lo: nat, n: NodeId, c: NodeId, b: State, seen: Ledger, after: State, local: Ledger,
                   to: Ledger)
    requires Accounted(w.parent.resources, w.ledger) && w.since <= seen.issued
    requires Good(after, local, c, c) && Moved(b, seen, after, local, c)
    requires forall id :: id in after.resources && id !in b.resources ==> id !in w.taken
    requires Accounts(w.ledger, after.resources, local, to)
    ensures SharedStep(w, b.resources, after.resources, to) && Good(after, to, c, c)
  {
    hide StoreOk, InTurn, RefsKnown, Held, Kept, Keeps;
  }

  lemma BranchWorked(parent: State, ledger: Ledger, l0: Ledger, n: NodeId, c: NodeId, b: State, seen: Ledger,
                     after: State, local: Ledger, to: Ledger)
    requires BranchOk(parent, ledger, l0, n, c, b)
    requires Good(after, to, c, c) && Moved(b, seen, after, local, c)
    requires after.resources.Keys !! parent.resources.Keys
    requires forall id :: id in after.resources ==> id > l0.issued
    ensures BranchOk(parent, to, l0, n, c, after)
  {
    BranchParts(parent, ledger, l0, n, c, b);
    MovedParts(b, seen, after, local, c);
    hide Good, Moved, TableStep;
  }

  lemma WorkFacts(w: World, s0: State, l0: Ledger, lo: nat, n: NodeId, c: NodeId, seen: Ledger, after: State,
                  local: Ledger, to: Ledger)
    requires Sound(w, s0, l0, lo, n) && Can(w, lo, n, Work(c, seen, after, local, to))
    ensures c in w.running && SharedStep(w, w.running[c].resources, after.resources, to)
    ensures ParentOk(w.parent, to, s0, l0, lo, n) && BranchOk(w.parent, to, l0, n, c, after)
  {
    hide Good, Moved, ParentOk, BranchOk, Accounted, TidyBut, Accounts, SharedStep;
    var b := w.running[c];
    BranchParts(w.parent, w.ledger, l0, n, c, b);
    ParentParts(w.parent, w.ledger, s0, l0, lo, n);
    GoodAccount(w.parent, w.ledger, lo, n);
    WorkShared(w, lo, n, c, b, seen, after, local, to);
    ParentUndisturbed(w, s0, l0, lo, n, b.resources, after.resources, to);
    BranchWorked(w.parent, w.ledger, l0, n, c, b, seen, after, local, to);
  }

  lemma WorkStep(w: World, s0: State, l0: Ledger, lo: nat, n: NodeId, c: NodeId, seen: Ledger, after: State,
                 local: Ledger, to: Ledger)
    requires Sound(w, s0, l0, lo, n) && Can(w, lo, n, Work(c, seen, after, local, to))
    ensures Sound(Do(w, lo, n, Work(c, seen, after, local, to)), s0, l0, lo, n)
  {
    hide Can, Good, ParentOk, BranchOk, SharedStep, Known, AllApart, Waits;
    WorkFacts(w, s0, l0, lo, n, c, seen, after, local, to);
    WorkKnown(w, c, after, to);
    forall d | d in w.running && d != c
      ensures BranchOk(w.parent, to, l0, n, d, w.running[d])
      ensures w.running[d].resources.Keys !! after.resources.Keys
    {
      KnownApart(w, c, d);
      BranchUndisturbed(w, l0, n, d, w.running[d], w.running[c].resources, after.resources, to);
    }
    WorkApart(w.running, c, after);
  }

  lemma KnownApart(w: World, c: NodeId, d: NodeId)
    requires Known(w) && AllApart(w.running) && c in w.running && d in w.running && c != d
    ensures w.running[d].resources.Keys <= w.taken && w.running[d].resources.Keys !! w.running[c].resources.Keys
  {
  }

  lemma WorkKnown(w: World, c: NodeId, after: State, to: Ledger)
    requires Known(w)
    ensures w.parent.resources.Keys <= w.taken
    ensures Known(w.(ledger := to, taken := w.taken + after.resources.Keys, running := w.running[c := after]))
  {
  }

  lemma WorkApart(running: map<NodeId, State>, c: NodeId, after: State)
    requires AllApart(running)
    requires forall d :: d in running && d != c ==> running[d].resources.Keys !! after.resources.Keys
    ensures AllApart(running[c := after])
  {
  }

  lemma ParentCleaned(parent: State, ledger: Ledger, s0: State, l0: Ledger, lo: nat, n: NodeId,
                      after: State, to: Ledger)
    requires ParentOk(parent, ledger, s0, l0, lo, n)
    requires Good(after, to, lo, n) && Moved(parent, ledger, after, to, n)
    requires after == parent.(resources := after.resources) && Tidy(after.resources)
    ensures ParentOk(after, to, s0, l0, lo, n)
  {
    ParentParts(parent, ledger, s0, l0, lo, n);
    hide Good, Moved, TidyBut;
    MovedOn(s0, l0, parent, ledger, after, to, n);
  }

  lemma BranchOkMoved(parent: State, after: State, ledger: Ledger, l0: Ledger, n: NodeId, c: NodeId, b: State)
    requires BranchOk(parent, ledger, l0, n, c, b) && c in after.nodes && after.nodes[c] == parent.nodes[c]
    requires b.resources.Keys !! after.resources.Keys
    ensures BranchOk(after, ledger, l0, n, c, b)
  {
    BranchParts(parent, ledger, l0, n, c, b);
    hide Good;
  }

  lemma CleanShared(w: World, lo: nat, n: NodeId, after: State, to: Ledger)
    requires Good(after, to, lo, n) && after.resources.Keys == w.parent.resources.Keys
    requires Accounts(w.ledger, after.resources, to, to)
    ensures SharedStep(w, w.parent.resources, after.resources, to)
  {
    hide StoreOk, InTurn, RefsKnown, Held;
  }

  lemma CleanStep(w: World, s0: State, l0: Ledger, lo: nat, n: NodeId, after: State, to: Ledger)
    requires Sound(w, s0, l0, lo, n) && Can(w, lo, n, Clean(after, to))
    ensures Sound(Do(w, lo, n, Clean(after, to)), s0, l0, lo, n)
  {
    hide Good, Moved, ParentOk, BranchOk, Accounted, TidyBut, Accounts, SharedStep;
    ParentParts(w.parent, w.ledger, s0, l0, lo, n);
    CleanShared(w, lo, n, after, to);
    ParentCleaned(w.parent, w.ledger, s0, l0, lo, n, after, to);
    forall d | d in w.running
      ensures BranchOk(after, to, l0, n, d, w.running[d])
    {
      BranchParts(w.parent, w.ledger, l0, n, d, w.running[d]);
      BranchUndisturbed(w, l0, n, d, w.running[d], w.parent.resources, after.resources, to);
      BranchOkMoved(w.parent, after, to, l0, n, d, w.running[d]);
    }
  }

  lemma BranchBegun(parent: State, ledger: Ledger, l0: Ledger, lo: nat, n: NodeId, c: NodeId)
    requires Good(parent, ledger, lo, n) && c in parent.nodes[n].children && c in parent.nodes
    requires parent.nodes[n].plan.Group? && parent.nodes[n].plan.group.mode == Parallel
    requires Untouched(parent.nodes[c])
    ensures BranchOk(parent, ledger, l0, n, c, BranchState(parent.nodes[c]))
    ensures BranchState(parent.nodes[c]).resources == map[]
  {
    BranchOpens(parent, ledger, lo, n, c);
    hide Good, BranchState;
  }

  lemma BeginStep(w: World, s0: State, l0: Ledger, lo: nat, n: NodeId, c: NodeId)
    requires Sound(w, s0, l0, lo, n) && Can(w, lo, n, Begin(c))
    ensures Sound(Do(w, lo, n, Begin(c)), s0, l0, lo, n)
  {
    hide Good, Moved, ParentOk, BranchOk, TidyBut, BranchState;
    ParentParts(w.parent, w.ledger, s0, l0, lo, n);
    assert Waits(w.parent, n, c);
    BranchBegun(w.parent, w.ledger, l0, lo, n, c);
  }

  lemma BranchOpens(parent: State, ledger: Ledger, lo: nat, n: NodeId, c: NodeId)
    requires Good(parent, ledger, lo, n) && c in parent.nodes[n].children && c in parent.nodes
    requires parent.nodes[n].plan.Group? && parent.nodes[n].plan.group.mode == Parallel
    requires Untouched(parent.nodes[c])
    ensures parent.nodes[c].parent == Some(n) && parent.nodes[c].id == c
    ensures Good(BranchState(parent.nodes[c]), ledger, c, c)
    ensures BranchState(parent.nodes[c]).resources == map[] && c in BranchState(parent.nodes[c]).nodes
    ensures BranchState(parent.nodes[c]).nodes[c] == parent.nodes[c]
  {
    hide Produced, Staged, Grouped, ArtifactOk, MemoOk, LogsOk, ResourcesOk;
    assert Linked(parent, n);
    var k :| 0 <= k < |parent.nodes[n].children| && parent.nodes[n].children[k] == c;
    BranchGood(parent, ledger, lo, c);
  }

  /** Abandoning a branch is work on its registry: what was active is released. */
  lemma AbandonStep(w: World, s0: State, l0: Ledger, lo: nat, n: NodeId, c: NodeId, to: Ledger)
    requires Sound(w, s0, l0, lo, n) && Can(w, lo, n, Abandon(c, to))
    ensures Sound(Do(w, lo, n, Abandon(c, to)), s0, l0, lo, n)
  {
    hide Good, Moved, ParentOk, BranchOk, Accounted, TidyBut, SharedStep;
    var b := w.running[c];
    BranchParts(w.parent, w.ledger, l0, n, c, b);
    var gone := map id | id in b.resources ::
      if b.resources[id].state == Active then b.resources[id].(state := Released) else b.resources[id];
    AbandonShared(w, b.resources, gone, to);
    ParentUndisturbed(w, s0, l0, lo, n, b.resources, gone, to);
    forall d | d in w.running && d != c
      ensures BranchOk(w.parent, to, l0, n, d, w.running[d])
    {
      BranchUndisturbed(w, l0, n, d, w.running[d], b.resources, gone, to);
    }
  }

  lemma AbandonShared(w: World, before: Table, after: Table, to: Ledger)
    requires Accounted(before, w.ledger) && to.issued == w.ledger.issued && after.Keys == before.Keys
    requires forall id :: id in before ==>
      after[id] == if before[id].state == Active then before[id].(state := Released) else before[id]
    requires forall id ::
      to.cleaned[id] == w.ledger.cleaned[id] + (if id in before && before[id].state == Active then 1 else 0)
    ensures SharedStep(w, before, after, to)
  {
  }

  /** A merge at the common account. */
  lemma JoinedGood(parent: State, ledger: Ledger, lo: nat, n: NodeId, c: NodeId, b: State)
    requires Good(parent, ledger, lo, n) && c in parent.nodes && parent.nodes[c].parent == Some(n)
    requires parent.nodes[n].plan.Group? && parent.nodes[n].plan.group.mode == Parallel
    requires Good(b, ledger, c, c) && SameIdentity(parent.nodes[c], b.nodes[c])
    requires b.resources.Keys !! parent.resources.Keys && Tidy(parent.resources) && Tidy(b.resources)
    ensures c <= parent.nextNode && c <= b.nextNode
    ensures var f := Merged(parent, c, b);
      && Good(f, ledger, lo, n) && Kept(parent, f, c) && Tidy(f.resources)
      && n in f.nodes && f.nodes[n] == parent.nodes[n]
      && f.resources.Keys == parent.resources.Keys + b.resources.Keys && Keeps(parent.resources, f.resources)
  {
    GoodRange(b, ledger, c, c);
    ParentReady(parent, ledger, lo, n, c);
    assert Mergeable(parent, lo, c, b);
    hide Mergeable, StoreOk, ResourcesOk, InTurn, Merged, TidyBut, SameIdentity, Keeps, Kept;
    MergeKeepsStore(parent, lo, c, b);
    MergedResourcesOk(parent, lo, c, b, ledger);
    MergedTidy(parent, lo, c, b);
    var f := Merged(parent, c, b);
    JoinedHas(parent, f, c);
    ChildMoved(parent, ledger, lo, n, f, ledger, c);
  }

  lemma ParentReady(parent: State, ledger: Ledger, lo: nat, n: NodeId, c: NodeId)
    requires Good(parent, ledger, lo, n) && c in parent.nodes && parent.nodes[c].parent == Some(n)
    requires parent.nodes[n].plan.Group? && parent.nodes[n].plan.group.mode == Parallel
    ensures c <= parent.nextNode && InTurn(parent, c)
  {
    hide Linked, Produced, Staged, Grouped, ArtifactOk, MemoOk, LogsOk, ResourcesOk;
  }

  lemma JoinedHas(parent: State, f: State, c: NodeId)
    requires Kept(parent, f, c) && c in parent.nodes
    ensures c in f.nodes
  {
  }

  lemma JoinStep(w: World, s0: State, l0: Ledger, lo: nat, n: NodeId, c: NodeId)
    requires Sound(w, s0, l0, lo, n) && Can(w, lo, n, Join(c))
    ensures Sound(Do(w, lo, n, Join(c)), s0, l0, lo, n)
  {
    hide Good, Moved, Kept, ParentOk, BranchOk, TidyBut, Merged, Keeps, SameIdentity, Accounted;
    var parent, b := w.parent, w.running[c];
    BranchParts(parent, w.ledger, l0, n, c, b);
    ParentParts(parent, w.ledger, s0, l0, lo, n);
    JoinedGood(parent, w.ledger, lo, n, c, b);
    var f := Merged(parent, c, b);
    JoinedParent(s0, l0, parent, f, w.ledger, n, c, b.resources);
    ParentJoined(parent, f, w.ledger, s0, l0, lo, n, c);
    forall d | d in w.running && d != c
      ensures BranchOk(f, w.ledger, l0, n, d, w.running[d])
    {
      BranchParts(parent, w.ledger, l0, n, d, w.running[d]);
      KeptOther(parent, f, c, d);
      BranchOkMoved(parent, f, w.ledger, l0, n, d, w.running[d]);
    }
    forall d | d in w.waiting
      ensures Waits(f, n, d)
    {
      assert Waits(parent, n, d);
      KeptOther(parent, f, c, d);
    }
  }

  lemma KeptOther(parent: State, f: State, c: NodeId, d: NodeId)
    requires Kept(parent, f, c) && d in parent.nodes && d != c
    ensures d in f.nodes && f.nodes[d] == parent.nodes[d]
  {
  }

  lemma ParentJoined(parent: State, f: State, ledger: Ledger, s0: State, l0: Ledger, lo: nat, n: NodeId, c: NodeId)
    requires ParentOk(parent, ledger, s0, l0, lo, n) && Good(f, ledger, lo, n) && Tidy(f.resources)
    requires Moved(s0, l0, f, ledger, n) && Kept(parent, f, c) && n in f.nodes && f.nodes[n] == parent.nodes[n]
    ensures ParentOk(f, ledger, s0, l0, lo, n)
  {
    ParentParts(parent, ledger, s0, l0, lo, n);
    hide Good, Moved, TidyBut;
  }

  lemma JoinedParent(s0: State, l0: Ledger, parent: State, f: State, ledger: Ledger, n: NodeId, c: NodeId,
                     branch: Table)
    requires Moved(s0, l0, parent, ledger, n) && Kept(parent, f, c) && c !in s0.nodes
    requires f.resources.Keys == parent.resources.Keys + branch.Keys && Keeps(parent.resources, f.resources)
    requires forall id :: id in branch ==> l0.issued < id <= ledger.issued
    ensures Moved(s0, l0, f, ledger, n)
  {
    KeptTransitive(s0, parent, f, n, c);
    hide Kept;
  }

  lemma SoundStep(w: World, s0: State, l0: Ledger, lo: nat, n: NodeId, action: Action)
    requires Sound(w, s0, l0, lo, n) && Can(w, lo, n, action)
    ensures Sound(Do(w, lo, n, action), s0, l0, lo, n)
  {
    hide Sound, Can, Do;
    match action
    case Begin(c) => BeginStep(w, s0, l0, lo, n, c);
    case Work(c, seen, after, local, to) => WorkStep(w, s0, l0, lo, n, c, seen, after, local, to);
    case Join(c) => JoinStep(w, s0, l0, lo, n, c);
    case Clean(after, to) => CleanStep(w, s0, l0, lo, n, after, to);
    case Abandon(c, to) => AbandonStep(w, s0, l0, lo, n, c, to);
  }

  // ---- Counting agent runs ----

  lemma JoinFacts(w: World, s0: State, l0: Ledger, lo: nat, n: NodeId, c: NodeId)
    requires Sound(w, s0, l0, lo, n) && Can(w, lo, n, Join(c))
    ensures c <= w.parent.nextNode && c in w.running && c <= w.running[c].nextNode
    ensures var f, b := Merged(w.parent, c, w.running[c]), w.running[c];
      && n in w.parent.nodes && n in f.nodes && f.nodes[n] == w.parent.nodes[n]
      && f.nextNode == w.parent.nextNode + b.nextNode - c && |f.runs| == |w.parent.runs| + |b.runs|
  {
    hide Good, Moved, Kept, ParentOk, BranchOk, TidyBut, Merged, Keeps, SameIdentity, Accounted;
    BranchParts(w.parent, w.ledger, l0, n, c, w.running[c]);
    ParentParts(w.parent, w.ledger, s0, l0, lo, n);
    JoinedGood(w.parent, w.ledger, lo, n, c, w.running[c]);
    MergedNextNode(w.parent, c, w.running[c]);
    MergedLogsAt(w.parent, c, w.running[c]);
  }

  lemma JoinDoes(w: World, lo: nat, n: NodeId, c: NodeId)
    requires Can(w, lo, n, Join(c)) && c <= w.parent.nextNode && c in w.running && c <= w.running[c].nextNode
    requires n in w.parent.nodes
    ensures Do(w, lo, n, Join(c)).parent == Merged(w.parent, c, w.running[c])
    ensures Do(w, lo, n, Join(c)).joined == w.joined + 1
    ensures |w.running[c].runs| <= Times(Quota(w.parent.nodes[n]), 1 + w.running[c].nextNode - c)
  {
    hide TidyBut, Merged, Times, Quota;
  }

  lemma MoreRuns(p: State, n: NodeId, joined: nat, t: State, u: State, b: State, c: NodeId)
    requires RunsWithin(p, n, joined, t) && c <= b.nextNode
    requires n in u.nodes && u.nodes[n] == t.nodes[n] && u.nextNode == t.nextNode + b.nextNode - c
    requires |u.runs| == |t.runs| + |b.runs| && |b.runs| <= Times(Quota(t.nodes[n]), 1 + b.nextNode - c)
    ensures RunsWithin(p, n, joined + 1, u)
  {
    hide Times, Quota;
    TimesMore(Quota(p.nodes[n]), joined + t.nextNode - p.nextNode, 1 + b.nextNode - c);
  }

  lemma JoinCounted(w: World, s0: State, l0: Ledger, lo: nat, n: NodeId, c: NodeId, p: State)
    requires Sound(w, s0, l0, lo, n) && Counted(w, p, n) && Can(w, lo, n, Join(c))
    ensures Counted(Do(w, lo, n, Join(c)), p, n)
  {
    hide Sound, Can, Do, Merged, Times, Quota, RunsWithin, Places;
    JoinFacts(w, s0, l0, lo, n, c);
    JoinDoes(w, lo, n, c);
    MoreRuns(p, n, w.joined, w.parent, Merged(w.parent, c, w.running[c]), w.running[c], c);
    PlacesStay(w, lo, n, Join(c));
  }

  lemma PlacesStay(w: World, lo: nat, n: NodeId, action: Action)
    requires Can(w, lo, n, action)
    ensures Places(Do(w, lo, n, action)) <= Places(w)
  {
    hide Good, Moved, TidyBut, BranchState, Merged, Times, Quota;
    match action
    case Begin(c) =>
      if c in w.parent.nodes {
        OneMoreRuns(w.running, c, BranchState(w.parent.nodes[c]));
      }
    case Work(c, seen, after, local, to) => assert w.running[c := after].Keys == w.running.Keys;
    case Join(c) => assert (w.running - {c}).Keys == w.running.Keys - {c};
    case Clean(after, to) =>
    case Abandon(c, to) => assert (w.running - {c}).Keys == w.running.Keys - {c};
  }

  lemma OneMoreRuns(running: map<NodeId, State>, c: NodeId, b: State)
    ensures |running[c := b].Keys| <= |running.Keys| + 1
  {
    assert running[c := b].Keys == running.Keys + {c};
  }

  lemma ParentSame(w: World, lo: nat, n: NodeId, action: Action)
    requires Can(w, lo, n, action) && !action.Join?
    ensures Do(w, lo, n, action).joined == w.joined && Do(w, lo, n, action).parent.nodes == w.parent.nodes
    ensures Do(w, lo, n, action).parent.nextNode == w.parent.nextNode
    ensures Do(w, lo, n, action).parent.runs == w.parent.runs
  {
    hide Good, Moved, TidyBut, BranchState, Accounts;
  }

  lemma RunningCounted(w: World, lo: nat, n: NodeId, action: Action, p: State)
    requires Counted(w, p, n) && Can(w, lo, n, action) && !action.Join?
    ensures Counted(Do(w, lo, n, action), p, n)
  {
    hide Can, Do, Times, Quota, Places;
    PlacesStay(w, lo, n, action);
    ParentSame(w, lo, n, action);
  }

  lemma CountedStep(w: World, s0: State, l0: Ledger, lo: nat, n: NodeId, action: Action, p: State)
    requires Sound(w, s0, l0, lo, n) && Counted(w, p, n) && Can(w, lo, n, action)
    ensures Counted(Do(w, lo, n, action), p, n)
  {
    hide Sound, Counted, Can, Do;
    if action.Join? {
      JoinCounted(w, s0, l0, lo, n, action.child, p);
    } else {
      RunningCounted(w, lo, n, action, p);
    }
  }

  // ---- Whole loops ----

  ghost predicate Runs(from: World, lo: nat, n: NodeId, actions: seq<Action>, to: World)
    decreases |actions|
  {
    if actions == [] then to == from
    else Can(from, lo, n, actions[0]) && Runs(Do(from, lo, n, actions[0]), lo, n, actions[1..], to)
  }

  /** However branches, merges and cleanups interleave, the invariant holds at every moment, for the parent
      and for every branch still running, and so does the bound on agent runs. */
  lemma {:induction false} EveryInterleaving(from: World, s0: State, l0: Ledger, lo: nat, n: NodeId,
                                             actions: seq<Action>, to: World, p: State)
    requires Sound(from, s0, l0, lo, n) && Counted(from, p, n) && Runs(from, lo, n, actions, to)
    ensures Sound(to, s0, l0, lo, n) && Counted(to, p, n)
    decreases |actions|
  {
    hide Sound, Counted, Can, Do;
    if actions != [] {
      SoundStep(from, s0, l0, lo, n, actions[0]);
      CountedStep(from, s0, l0, lo, n, actions[0], p);
      EveryInterleaving(Do(from, lo, n, actions[0]), s0, l0, lo, n, actions[1..], to, p);
    }
  }

  /** Before the first branch starts. */
  function LoopStart(p: State, ledger: Ledger, n: NodeId): World
    requires n in p.nodes
  {
    World(p, ledger, ledger.issued, p.resources.Keys, SetOf(p.nodes[n].children), map[], 0)
  }

  lemma IssuedSince(s0: State, l0: Ledger, p: State, ledger: Ledger, n: NodeId)
    requires Moved(s0, l0, p, ledger, n)
    ensures l0.issued <= ledger.issued
  {
    hide Kept;
  }

  lemma LoopStarts(p: State, ledger: Ledger, s0: State, l0: Ledger, lo: nat, n: NodeId) returns (w: World)
    requires Good(p, ledger, lo, n) && Tidy(p.resources) && Moved(s0, l0, p, ledger, n)
    requires p.nodes[n].plan.Group? && p.nodes[n].plan.group.mode == Parallel
    requires Unstarted(s0, p, n, SetOf(p.nodes[n].children))
    ensures w == LoopStart(p, ledger, n)
    ensures Sound(w, s0, l0, lo, n) && Counted(w, p, n)
  {
    hide Good, Moved, TidyBut, Times, Quota, Untouched;
    w := LoopStart(p, ledger, n);
    IssuedSince(s0, l0, p, ledger, n);
    SetOfSeq(p.nodes[n].children);
    TimesNothing(Quota(p.nodes[n]));
  }

  /** So a loop whose branches ran at the same time ends as the engine's contract of the loop says: the
      parent in order and tidy, its node untouched, nothing else changed that was there before, the agent
      runs within the quota. */
  lemma ConcurrentLoop(p: State, ledger: Ledger, s0: State, l0: Ledger, lo: nat, n: NodeId, actions: seq<Action>,
                       to: World)
    requires Good(p, ledger, lo, n) && Tidy(p.resources) && Moved(s0, l0, p, ledger, n)
    requires p.nodes[n].plan.Group? && p.nodes[n].plan.group.mode == Parallel
    requires Unstarted(s0, p, n, SetOf(p.nodes[n].children))
    requires Runs(LoopStart(p, ledger, n), lo, n, actions, to)
    ensures Good(to.parent, to.ledger, lo, n) && Tidy(to.parent.resources)
    ensures Moved(s0, l0, to.parent, to.ledger, n)
    ensures n in to.parent.nodes && to.parent.nodes[n] == p.nodes[n] && Unstarted(s0, to.parent, n, to.waiting)
    ensures |to.parent.runs| <=
            |p.runs| + Times(Quota(p.nodes[n]), |p.nodes[n].children| + to.parent.nextNode - p.nextNode)
  {
    hide Good, Moved, TidyBut, Runs, Times, Quota, Untouched, Sound, Counted;
    var from := LoopStarts(p, ledger, s0, l0, lo, n);
    EveryInterleaving(from, s0, l0, lo, n, actions, to, p);
    LoopEnds(to, s0, l0, lo, n, p);
  }

  lemma LoopEnds(w: World, s0: State, l0: Ledger, lo: nat, n: NodeId, p: State)
    requires Sound(w, s0, l0, lo, n) && Counted(w, p, n)
    ensures Good(w.parent, w.ledger, lo, n) && Tidy(w.parent.resources) && Moved(s0, l0, w.parent, w.ledger, n)
    ensures n in p.nodes && n in w.parent.nodes && w.parent.nodes[n] == p.nodes[n]
    ensures Unstarted(s0, w.parent, n, w.waiting)
    ensures |w.parent.runs| <=
            |p.runs| + Times(Quota(p.nodes[n]), |p.nodes[n].children| + w.parent.nextNode - p.nextNode)
  {
    hide Good, Moved, TidyBut, ParentOk, BranchOk, RunsWithin, Times, Quota, Untouched;
    ParentParts(w.parent, w.ledger, s0, l0, lo, n);
    AllRuns(p, n, w.joined, w.parent);
  }

  lemma AllRuns(p: State, n: NodeId, joined: nat, t: State)
    requires RunsWithin(p, n, joined, t) && joined <= |p.nodes[n].children|
    ensures n in p.nodes && n in t.nodes && t.nodes[n] == p.nodes[n]
    ensures |t.runs| <= |p.runs| + Times(Quota(p.nodes[n]), |p.nodes[n].children| + t.nextNode - p.nextNode)
  {
    hide Times, Quota;
    TimesGrows(Quota(p.nodes[n]), joined + t.nextNode - p.nextNode, |p.nodes[n].children| + t.nextNode - p.nextNode);
  }
}
