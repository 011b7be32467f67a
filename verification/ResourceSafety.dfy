/** What the registry operations keep: references held for candidate artifacts, the references'
    targets, and the account of cleanup calls kept by the workspace. */
module ResourceSafety {
  import opened Types
  import opened Resources

  /** What the workspace has handed out and been asked to clean up so far: every resource id up to
      `issued` may be in use, and `cleaned` counts the cleanup calls per id. */
  datatype Ledger = Ledger(issued: nat, cleaned: multiset<ResourceId>)

  predicate Holds(table: Table, id: ResourceId, artifact: ArtifactId)
  {
    id in table && table[id].state == Active && CandidateArtifact(artifact) in table[id].refs
  }

  /** No resource goes away and none stops being held for a candidate artifact. */
  ghost predicate Keeps(before: Table, after: Table)
  {
    && before.Keys <= after.Keys
    && forall id, artifact :: Holds(before, id, artifact) ==> Holds(after, id, artifact)
  }

  predicate RefKnown(ref: ResourceRef, lo: nat, nodes: nat, artifacts: nat)
  {
    match ref
    case RunningNode(n) => lo <= n <= nodes
    case ChildInputForCombine(n) => lo <= n <= nodes
    case MergeSurface(n) => lo <= n <= nodes
    case CandidateArtifact(a) => 1 <= a <= artifacts
    case DebugRetain => true
  }

  ghost predicate RefsKnown(table: Table, lo: nat, nodes: nat, artifacts: nat)
  {
    forall id, ref :: id in table && ref in table[id].refs ==> RefKnown(ref, lo, nodes, artifacts)
  }

  /** Every tracked resource was issued; an active one was never cleaned up, any other exactly once;
      nothing that was not issued yet was cleaned up. */
  ghost predicate Accounted(table: Table, ledger: Ledger)
  {
    && (forall id :: id in table ==>
          && table[id].id == id
          && id <= ledger.issued
          && ledger.cleaned[id] == if table[id].state == Active then 0 else 1)
    && (forall id :: id > ledger.issued ==> ledger.cleaned[id] == 0)
  }

  ghost predicate NoFailures(table: Table)
  {
    forall id :: id in table ==> table[id].state != FailedCleanup
  }

  /** References that outlive the operation that added them. */
  predicate Lasting(ref: ResourceRef) { ref.CandidateArtifact? || ref.DebugRetain? }

  type Hold = (ResourceId, ResourceRef)

  function HoldsFor(ids: seq<ResourceId>, refs: seq<ResourceRef>): set<Hold>
  {
    set id, ref | id in ids && ref in refs :: (id, ref)
  }

  /** No cleanup failed, and every temporary reference is one of `extra`. */
  ghost predicate TidyBut(table: Table, extra: set<Hold>)
  {
    && NoFailures(table)
    && forall id, ref :: id in table && ref in table[id].refs && !Lasting(ref) ==> (id, ref) in extra
  }

  ghost predicate Tidy(table: Table) { TidyBut(table, {}) }

  /** The rest of the world is left alone: new entries are newly issued ids, and nothing issued
      before to someone else is cleaned up. */
  ghost predicate LedgerStep(before: Table, from: Ledger, after: Table, to: Ledger)
  {
    && from.issued <= to.issued
    && before.Keys <= after.Keys
    && (forall id :: id in after && id !in before ==> from.issued < id <= to.issued)
    && (forall id :: id !in before && id <= from.issued ==> to.cleaned[id] == from.cleaned[id])
  }

  /** The standing invariant of a registry next to its ledger. */
  ghost predicate TableOk(table: Table, ledger: Ledger, lo: nat, nodes: nat, artifacts: nat)
  {
    Accounted(table, ledger) && RefsKnown(table, lo, nodes, artifacts)
  }

  ghost predicate TableStep(before: Table, from: Ledger, after: Table, to: Ledger)
  {
    Keeps(before, after) && LedgerStep(before, from, after, to)
  }

  predicate Fresh(resources: seq<Resource>, lo: nat, hi: nat, refs: seq<ResourceRef>)
  {
    && (forall k :: 0 <= k < |resources| ==>
          lo < resources[k].id <= hi && resources[k].state == Active && resources[k].refs == refs)
    && (forall j, k :: 0 <= j < k < |resources| ==> resources[j].id < resources[k].id)
  }

  // ---- Operation by operation ----

  lemma {:induction false} TrackedEffect(table: Table, resources: seq<Resource>)
    requires forall j, k :: 0 <= j < k < |resources| ==> resources[j].id < resources[k].id
    ensures forall id :: id in Tracked(table, resources) <==> id in table || id in Ids(resources)
    ensures forall id :: id in table && id !in Ids(resources) ==> Tracked(table, resources)[id] == table[id]
    ensures forall k :: 0 <= k < |resources| ==>
              resources[k].id in Tracked(table, resources) && Tracked(table, resources)[resources[k].id] == resources[k]
    decreases |resources|
  {
    if resources != [] {
      var first := resources[0];
      var rest := resources[1..];
      TrackedEffect(table[first.id := first], rest);
      assert Ids(resources) == [first.id] + Ids(rest);
      assert first.id !in Ids(rest);
      assert forall k :: 0 < k < |resources| ==> resources[k] == rest[k - 1];
    }
  }

  lemma TrackFresh(table: Table, ledger: Ledger, resources: seq<Resource>, hi: nat, refs: seq<ResourceRef>,
                   lo: nat, nodes: nat, artifacts: nat)
    requires TableOk(table, ledger, lo, nodes, artifacts)
    requires ledger.issued <= hi && Fresh(resources, ledger.issued, hi, refs)
    requires forall ref :: ref in refs ==> RefKnown(ref, lo, nodes, artifacts)
    ensures var after, to := Tracked(table, resources), Ledger(hi, ledger.cleaned);
            && TableOk(after, to, lo, nodes, artifacts) && TableStep(table, ledger, after, to)
            && (NoFailures(table) ==> NoFailures(after))
    ensures forall id :: id in table ==> Tracked(table, resources)[id] == table[id]
    ensures forall k :: 0 <= k < |resources| ==>
              resources[k].id in Tracked(table, resources) && Tracked(table, resources)[resources[k].id] == resources[k]
  {
    TrackedEffect(table, resources);
    forall id | id in Ids(resources)
      ensures id > ledger.issued && id !in table
    {
      var k :| 0 <= k < |resources| && Ids(resources)[k] == id;
    }
  }

  lemma {:induction false} WithoutNothing(refs: seq<ResourceRef>, ref: ResourceRef)
    requires ref !in refs
    ensures Without(refs, ref) == refs && Without(refs + [ref], ref) == refs
    decreases |refs|
  {
    if refs == [] {
      assert Without([ref], ref) == [] + Without([ref][1..], ref);
    } else {
      WithoutNothing(refs[1..], ref);
      assert (refs + [ref])[1..] == refs[1..] + [ref];
      assert refs == [refs[0]] + refs[1..];
    }
  }

  /** Releasing undoes exactly the retaining that added the reference; retaining twice is retaining once;
      a released reference is gone whatever it was. */
  lemma ReleaseUndoesRetain(table: Table, id: ResourceId, ref: ResourceRef)
    ensures id in table && ref !in table[id].refs ==> Dropped(Retained(table, id, ref), id, ref) == table
    ensures Retained(Retained(table, id, ref), id, ref) == Retained(table, id, ref)
    ensures id in table ==> ref in Retained(table, id, ref)[id].refs && ref !in Dropped(table, id, ref)[id].refs
    ensures id !in table ==> Retained(table, id, ref) == table && Dropped(table, id, ref) == table
  {
    if id in table && ref !in table[id].refs {
      WithoutNothing(table[id].refs, ref);
    }
  }

  lemma {:induction false} RetainedAllEffect(table: Table, ids: seq<ResourceId>, ref: ResourceRef)
    ensures RetainedAll(table, ids, ref).Keys == table.Keys
    ensures forall id :: id in table ==>
              var after := RetainedAll(table, ids, ref)[id];
              && after.id == table[id].id && after.state == table[id].state
              && (forall other :: other in after.refs <==> other in table[id].refs || (id in ids && other == ref))
    decreases |ids|
  {
    if ids != [] {
      RetainedAllEffect(Retained(table, ids[0], ref), ids[1..], ref);
      assert ids == [ids[0]] + ids[1..];
    }
  }

  lemma {:induction false} DroppedAllEffect(table: Table, ids: seq<ResourceId>, ref: ResourceRef)
    ensures DroppedAll(table, ids, ref).Keys == table.Keys
    ensures forall id :: id in table ==>
              var after := DroppedAll(table, ids, ref)[id];
              && after.id == table[id].id && after.state == table[id].state
              && (forall other :: other in after.refs <==> other in table[id].refs && !(id in ids && other == ref))
    decreases |ids|
  {
    if ids != [] {
      DroppedAllEffect(Dropped(table, ids[0], ref), ids[1..], ref);
      assert ids == [ids[0]] + ids[1..];
    }
  }

  /** Tables that differ in references only. */
  ghost predicate SameButRefs(before: Table, after: Table)
  {
    && after.Keys == before.Keys
    && forall id :: id in before ==> after[id].id == before[id].id && after[id].state == before[id].state
  }

  lemma SameButRefsKeepsAccount(before: Table, after: Table, ledger: Ledger)
    requires SameButRefs(before, after)
    ensures Accounted(before, ledger) ==> Accounted(after, ledger)
    ensures NoFailures(before) ==> NoFailures(after)
    ensures LedgerStep(before, ledger, after, ledger)
  {
  }

  lemma RetainAll(table: Table, ledger: Ledger, ids: seq<ResourceId>, ref: ResourceRef,
                  lo: nat, nodes: nat, artifacts: nat)
    requires TableOk(table, ledger, lo, nodes, artifacts)
    requires RefKnown(ref, lo, nodes, artifacts)
    ensures var after := RetainedAll(table, ids, ref);
            && TableOk(after, ledger, lo, nodes, artifacts) && TableStep(table, ledger, after, ledger)
            && (NoFailures(table) ==> NoFailures(after))
            && (forall id :: id in ids && id in table ==> ref in after[id].refs && after[id].state == table[id].state)
  {
    RetainedAllEffect(table, ids, ref);
    SameButRefsKeepsAccount(table, RetainedAll(table, ids, ref), ledger);
  }

  lemma DropAll(table: Table, ledger: Ledger, ids: seq<ResourceId>, ref: ResourceRef,
                lo: nat, nodes: nat, artifacts: nat)
    requires TableOk(table, ledger, lo, nodes, artifacts)
    requires !ref.CandidateArtifact?
    ensures var after := DroppedAll(table, ids, ref);
            && TableOk(after, ledger, lo, nodes, artifacts) && TableStep(table, ledger, after, ledger)
            && (NoFailures(table) ==> NoFailures(after))
  {
    DroppedAllEffect(table, ids, ref);
    SameButRefsKeepsAccount(table, DroppedAll(table, ids, ref), ledger);
  }

  /** One cleanup call on a releasable resource. */
  lemma MarkCleaned(table: Table, ledger: Ledger, id: ResourceId, state: ResourceState, lo: nat, nodes: nat,
                    artifacts: nat)
    requires TableOk(table, ledger, lo, nodes, artifacts)
    requires Releasable(table, id) && state != Active
    ensures var after, to := Marked(table, id, state), Ledger(ledger.issued, ledger.cleaned + multiset{id});
            && TableOk(after, to, lo, nodes, artifacts) && TableStep(table, ledger, after, to)
            && (NoFailures(table) && state == Released ==> NoFailures(after))
            && (forall other :: Releasable(after, other) <==> Releasable(table, other) && other != id)
            && (forall other :: other in table && other != id ==> after[other] == table[other])
  {
  }

  // ---- Temporary references come and go ----

  /** In a tidy registry an active resource is releasable exactly if no artifact holds it, short of a debug
      hold: nothing an operation held for itself is left behind. */
  lemma TidyReleasable(table: Table, id: ResourceId)
    requires Tidy(table) && id in table && table[id].state == Active && DebugRetain !in table[id].refs
    ensures Releasable(table, id) <==> forall a :: !Holds(table, id, a)
  {
    if table[id].refs != [] {
      var ref := table[id].refs[0];
      assert ref in table[id].refs && Lasting(ref);
      assert Holds(table, id, ref.artifact);
    }
  }

  lemma TidyTrack(table: Table, resources: seq<Resource>, refs: seq<ResourceRef>, lo: nat, hi: nat, extra: set<Hold>)
    requires TidyBut(table, extra) && Fresh(resources, lo, hi, refs)
    ensures TidyBut(Tracked(table, resources), extra + HoldsFor(Ids(resources), refs))
  {
    TrackedEffect(table, resources);
    var after := Tracked(table, resources);
    forall id | id in Ids(resources)
      ensures id in after && after[id].refs == refs && after[id].state == Active
    {
      var k :| 0 <= k < |resources| && Ids(resources)[k] == id;
    }
  }

  lemma TidyRetain(table: Table, ids: seq<ResourceId>, ref: ResourceRef, extra: set<Hold>)
    requires TidyBut(table, extra)
    ensures TidyBut(RetainedAll(table, ids, ref), extra + HoldsFor(ids, [ref]))
    ensures Lasting(ref) ==> TidyBut(RetainedAll(table, ids, ref), extra)
  {
    RetainedAllEffect(table, ids, ref);
  }

  lemma TidyDrop(table: Table, ids: seq<ResourceId>, ref: ResourceRef, extra: set<Hold>)
    requires TidyBut(table, extra)
    ensures TidyBut(DroppedAll(table, ids, ref), extra - HoldsFor(ids, [ref]))
  {
    DroppedAllEffect(table, ids, ref);
  }

  lemma TidySameRefs(before: Table, after: Table, extra: set<Hold>)
    requires TidyBut(before, extra) && NoFailures(after) && after.Keys == before.Keys
    requires forall id :: id in after ==> after[id].refs == before[id].refs
    ensures TidyBut(after, extra)
  {
  }

  lemma TidyIs(table: Table, extra: set<Hold>)
    requires TidyBut(table, extra)
    ensures NoFailures(table)
    ensures forall more :: extra <= more ==> TidyBut(table, more)
  {
  }

  lemma TableOkMore(table: Table, ledger: Ledger, lo: nat, nodes: nat, artifacts: nat, nodes': nat, artifacts': nat)
    requires TableOk(table, ledger, lo, nodes, artifacts) && nodes <= nodes' && artifacts <= artifacts'
    ensures TableOk(table, ledger, lo, nodes', artifacts')
  {
    forall id, ref | id in table && ref in table[id].refs
      ensures RefKnown(ref, lo, nodes', artifacts')
    {
      assert RefKnown(ref, lo, nodes, artifacts);
    }
  }

  lemma TableStepTransitive(a: Table, la: Ledger, b: Table, lb: Ledger, c: Table, lc: Ledger)
    requires TableStep(a, la, b, lb) && TableStep(b, lb, c, lc)
    ensures TableStep(a, la, c, lc)
  {
  }
}
