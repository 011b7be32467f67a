/** The reference-counted registry of workspace resources. */
module Resources {
  import opened Types

  type Table = map<ResourceId, Resource>

  // ---- What each operation does to the table ----

  function Tracked(table: Table, resources: seq<Resource>): Table
    decreases |resources|
  {
    if resources == [] then table else Tracked(table[resources[0].id := resources[0]], resources[1..])
  }

  function Retained(table: Table, id: ResourceId, ref: ResourceRef): Table
  {
    if id !in table || ref in table[id].refs then table
    else table[id := table[id].(refs := table[id].refs + [ref])]
  }

  function Without(refs: seq<ResourceRef>, ref: ResourceRef): (rest: seq<ResourceRef>)
    ensures forall other :: other in rest <==> other in refs && other != ref
  {
    if refs == [] then [] else (if refs[0] == ref then [] else [refs[0]]) + Without(refs[1..], ref)
  }

  function Dropped(table: Table, id: ResourceId, ref: ResourceRef): Table
  {
    if id !in table then table
    else table[id := table[id].(refs := Without(table[id].refs, ref))]
  }

  function RetainedAll(table: Table, ids: seq<ResourceId>, ref: ResourceRef): Table
  {
    if ids == [] then table else RetainedAll(Retained(table, ids[0], ref), ids[1..], ref)
  }

  function DroppedAll(table: Table, ids: seq<ResourceId>, ref: ResourceRef): Table
  {
    if ids == [] then table else DroppedAll(Dropped(table, ids[0], ref), ids[1..], ref)
  }

  function Unreferenced(table: Table): Table
  {
    map id | id in table :: table[id].(refs := [])
  }

  predicate Releasable(table: Table, id: ResourceId)
  {
    id in table && table[id].refs == [] && table[id].state == Active
  }

  function Marked(table: Table, id: ResourceId, state: ResourceState): Table
  {
    if id in table then table[id := table[id].(state := state)] else table
  }

  function ReleasableSet(table: Table): set<ResourceId>
  {
    set id | id in table && Releasable(table, id)
  }

  /** The table once the given releasable resources have been cleaned up. */
  function SweptOn(table: Table, ids: set<ResourceId>): Table
  {
    map id | id in table ::
      if id in ids && Releasable(table, id) then table[id].(state := Released) else table[id]
  }

  function Ids(resources: seq<Resource>): (ids: seq<ResourceId>)
    ensures |ids| == |resources| && forall k :: 0 <= k < |ids| ==> ids[k] == resources[k].id
  {
    seq(|resources|, k requires 0 <= k < |resources| => resources[k].id)
  }

  class WorkspaceResourceRegistry {
    var resources: Table

    constructor ()
      ensures resources == map[]
    {
      resources := map[];
    }

    method TrackAll(tracked: seq<Resource>)
      modifies this
      ensures resources == Tracked(old(resources), tracked)
    {
      for i := 0 to |tracked|
        invariant Tracked(resources, tracked[i..]) == Tracked(old(resources), tracked)
      {
        assert tracked[i..][1..] == tracked[i + 1..];
        resources := resources[tracked[i].id := tracked[i]];
      }
    }

    method Retain(id: ResourceId, ref: ResourceRef)
      modifies this
      ensures resources == Retained(old(resources), id, ref)
    {
      if id in resources {
        var resource := resources[id];
        if ref !in resource.refs {
          resources := resources[id := resource.(refs := resource.refs + [ref])];
        }
      }
    }

    method Release(id: ResourceId, ref: ResourceRef)
      modifies this
      ensures resources == Dropped(old(resources), id, ref)
    {
      if id in resources {
        resources := resources[id := resources[id].(refs := Without(resources[id].refs, ref))];
      }
    }

    method ReleaseAllRefs()
      modifies this
      ensures resources == Unreferenced(old(resources))
    {
      var pending := resources.Keys;
      while pending != {}
        invariant pending <= resources.Keys == old(resources).Keys
        invariant forall id :: id in resources ==>
          resources[id] == if id in pending then old(resources)[id] else old(resources)[id].(refs := [])
        decreases |pending|
      {
        var id :| id in pending;
        resources := resources[id := resources[id].(refs := [])];
        pending := pending - {id};
      }
    }

    /** The releasable ids, each once, in no particular order. */
    method ReleasableIds() returns (ids: seq<ResourceId>)
      ensures forall id :: id in ids <==> Releasable(resources, id)
      ensures forall j, k :: 0 <= j < k < |ids| ==> ids[j] != ids[k]
    {
      ids := [];
      var pending := resources.Keys;
      while pending != {}
        invariant pending <= resources.Keys
        invariant forall id :: id in ids <==> Releasable(resources, id) && id !in pending
        invariant forall j, k :: 0 <= j < k < |ids| ==> ids[j] != ids[k]
        decreases |pending|
      {
        var id :| id in pending;
        if resources[id].refs == [] && resources[id].state == Active {
          ids := ids + [id];
        }
        pending := pending - {id};
      }
    }

    method MarkReleased(id: ResourceId)
      modifies this
      ensures resources == Marked(old(resources), id, Released)
    {
      if id in resources {
        resources := resources[id := resources[id].(state := Released)];
      }
    }

    method MarkFailedCleanup(id: ResourceId)
      modifies this
      ensures resources == Marked(old(resources), id, FailedCleanup)
    {
      if id in resources {
        resources := resources[id := resources[id].(state := FailedCleanup)];
      }
    }

    /** Empties the registry; every tracked resource is handed out exactly once. */
    method DrainAll() returns (drained: seq<Resource>, ghost ids: seq<ResourceId>)
      modifies this
      ensures resources == map[]
      ensures |ids| == |drained|
      ensures forall id :: id in ids <==> id in old(resources)
      ensures forall j, k :: 0 <= j < k < |ids| ==> ids[j] != ids[k]
      ensures forall k :: 0 <= k < |ids| ==> drained[k] == old(resources)[ids[k]]
    {
      drained, ids := [], [];
      while resources != map[]
        invariant |ids| == |drained|
        invariant resources.Keys <= old(resources).Keys
        invariant forall id :: id in resources ==> resources[id] == old(resources)[id]
        invariant forall id :: id in ids <==> id in old(resources) && id !in resources
        invariant forall j, k :: 0 <= j < k < |ids| ==> ids[j] != ids[k]
        invariant forall k :: 0 <= k < |ids| ==> drained[k] == old(resources)[ids[k]]
        decreases |resources|
      {
        var id :| id in resources;
        drained, ids := drained + [resources[id]], ids + [id];
        resources := resources - {id};
      }
    }
  }
}
