/** The world outside the engine. What the workspace will do and what the agent will reply is fixed in
    advance, call by call, but arbitrary: the contracts hold for every list of answers, and only what
    every workspace provider guarantees and what a decoded agent result must look like is promised. */
module Environment {
  import opened Types
  import opened Nodes
  import opened Resources
  import opened ResourceSafety

  function First<T>(xs: seq<T>): Option<T> { if xs == [] then None else Some(xs[0]) }

  function Rest<T>(xs: seq<T>): seq<T> { if xs == [] then [] else xs[1..] }

  /** What the workspace does at one call. Each entry of `gaps` allocates one resource after leaving out
      that many ids; `keeps` says which of the resources at hand a captured change names. */
  datatype Served =
    | Fails
    | Opens(gaps: seq<nat>)
    | Captures(gaps: seq<nat>, keeps: seq<bool>, paths: seq<string>, effects: seq<string>)
    | Cleans

  /** A workspace shares its id counter with all its clones, so any id it hands out is new. A gap
      before an allocation stands for the allocations of branches running at the same time. A call takes
      the next answer and fails when that is not of its kind; every finite behaviour is some `answers`. */
  class Workspace {
    var issued: nat
    var cleaned: multiset<ResourceId>
    /** The change lists it was asked to merge, in order. */
    var merges: seq<seq<Change>>
    var answers: seq<Served>
    /** How many calls failed. */
    var failures: nat

    constructor (answers: seq<Served>)
      ensures issued == 0 && cleaned == multiset{} && merges == [] && this.answers == answers && failures == 0
    {
      issued, cleaned, merges, this.answers, failures := 0, multiset{}, [], answers, 0;
    }

    ghost function Account(): Ledger
      reads this
    {
      Ledger(issued, cleaned)
    }

    method Allocate(gaps: seq<nat>, refs: seq<ResourceRef>) returns (resources: seq<Resource>)
      modifies this`issued
      ensures old(issued) <= issued
      ensures Fresh(resources, old(issued), issued, refs) && |resources| == |gaps|
    {
      resources := [];
      for i := 0 to |gaps|
        invariant old(issued) <= issued
        invariant Fresh(resources, old(issued), issued, refs) && |resources| == i
      {
        issued := issued + gaps[i] + 1;
        resources := resources + [Resource(issued, Active, refs)];
      }
    }

    /** A surface carries only newly issued active resources, each holding the given references. */
    method OpenSurface(refs: seq<ResourceRef>) returns (r: Outcome<Surface>)
      modifies this`issued, this`answers, this`failures
      ensures old(issued) <= issued && answers == Rest(old(answers))
      ensures r.Ok? <==> First(old(answers)).Some? && First(old(answers)).value.Opens?
      ensures failures == old(failures) + (if r.Ok? then 0 else 1)
      ensures r.Ok? ==> |r.value.resources| == |First(old(answers)).value.gaps|
      ensures r.Ok? ==> Fresh(r.value.resources, old(issued), issued, refs)
      ensures r.Err? ==> r.error.External()
    {
      var answer := First(answers);
      answers := Rest(answers);
      if answer.None? || !answer.value.Opens? {
        failures := failures + 1;
        return Err(WorkspaceFailure);
      }
      var resources := Allocate(answer.value.gaps, refs);
      return Ok(Surface(resources));
    }

    method MergeChanges(changes: seq<Change>, refs: seq<ResourceRef>) returns (r: Outcome<Surface>)
      modifies this`issued, this`answers, this`merges, this`failures
      ensures old(issued) <= issued && merges == old(merges) + [changes] && answers == Rest(old(answers))
      ensures failures == old(failures) + (if r.Ok? then 0 else 1)
      ensures r.Ok? ==> Fresh(r.value.resources, old(issued), issued, refs)
      ensures r.Err? ==> r.error.External()
    {
      merges := merges + [changes];
      r := OpenSurface(refs);
    }

    /** A captured change names resources of its surface and resources of its own, which are newly
        issued and still unreferenced; paths and side effects are arbitrary. */
    method CaptureChanges(surface: Surface) returns (r: Outcome<Change>)
      modifies this`issued, this`answers, this`failures
      ensures old(issued) <= issued && answers == Rest(old(answers))
      ensures r.Ok? <==> First(old(answers)).Some? && First(old(answers)).value.Captures?
      ensures failures == old(failures) + (if r.Ok? then 0 else 1)
      ensures r.Ok? ==>
        && Fresh(r.value.resources, old(issued), issued, [])
        && |r.value.resources| == |First(old(answers)).value.gaps|
        && r.value.changedPaths == First(old(answers)).value.paths
        && r.value.sideEffects == First(old(answers)).value.effects
        && forall id :: id in r.value.resourceIds ==> id in Ids(surface.resources) || id in Ids(r.value.resources)
      ensures r.Err? ==> r.error.External()
    {
      var answer := First(answers);
      answers := Rest(answers);
      if answer.None? || !answer.value.Captures? {
        failures := failures + 1;
        return Err(WorkspaceFailure);
      }
      var resources := Allocate(answer.value.gaps, []);
      var ids: seq<ResourceId> := [];
      var named := Ids(surface.resources) + Ids(resources);
      var keeps := answer.value.keeps;
      for k := 0 to |named|
        invariant forall id :: id in ids ==> id in named
      {
        ids := if k < |keeps| && keeps[k] then ids + [named[k]] else ids;
      }
      return Ok(Change(resources, ids, answer.value.paths, answer.value.effects));
    }

    /** Every call counts, whether it succeeds or not. */
    method Cleanup(id: ResourceId) returns (works: bool)
      modifies this`cleaned, this`answers, this`failures
      ensures cleaned == old(cleaned) + multiset{id}
      ensures works <==> First(old(answers)) == Some(Cleans)
      ensures failures == old(failures) + (if works then 0 else 1)
    {
      works := First(answers) == Some(Cleans);
      answers := Rest(answers);
      cleaned := cleaned + multiset{id};
      failures := if works then failures else failures + 1;
    }
  }

  /** The workspace next captures a change without resources. */
  predicate CapturesNoResource(answers: seq<Served>)
  {
    answers != [] && answers[0].Captures? && answers[0].gaps == []
  }

  /** The workspace next serves an execution without handing out a resource. */
  predicate ServesBare(answers: seq<Served>)
  {
    |answers| >= 2 && answers[0] == Opens([]) && CapturesNoResource(answers[1..])
  }

  datatype Output =
    | SpecifiedAs(size: WorkSize)
    | PlannedAs(group: PlanGroup)
    | InvalidPlan
    | Executed(text: string)
    | Combined(text: string)
    | Verified(verdict: Verdict)

  /** Decoding admits only the terminal tools of the operation. */
  predicate Fits(operation: NodeOperation, output: Output)
  {
    match operation
    case Specify => output.SpecifiedAs?
    case Plan => output.PlannedAs? || output.InvalidPlan?
    case Execute => output.Executed?
    case Combine => output.Combined?
    case Verify => output.Verified?
    case Commit => false
  }

  datatype Reply = Interrupted | Undecodable | Answer(output: Output)

  /** What the engine makes of the next reply. */
  function Heard(operation: NodeOperation, replies: seq<Reply>): (reply: Reply)
    ensures reply.Answer? ==> Fits(operation, reply.output)
  {
    if replies == [] then Interrupted
    else if replies[0].Answer? && !Fits(operation, replies[0].output) then Undecodable
    else replies[0]
  }

  /** How an agent run ends. */
  function RunOutcome(operation: NodeOperation, checks: nat, replies: seq<Reply>): (r: Outcome<Output>)
    ensures r.Ok? ==> Fits(operation, r.value)
    ensures r.Err? ==> r.error.External()
  {
    if checks == 0 then Err(Cancelled)
    else
      match Heard(operation, replies)
      case Interrupted => Err(Cancelled)
      case Undecodable => Err(AgentProtocol)
      case Answer(output) => Ok(output)
  }

  /** Every planned item may inherit from the node it is planned for. */
  predicate Inheritable(parent: ProblemNode, items: seq<NodeTemplate>)
  {
    forall k :: 0 <= k < |items| ==> InheritChildDefaults(parent, items[k]).Ok?
  }

  /** An agent replies finitely often; after that, runs are interrupted. The task's cancellation token
      is found clear a given number of times and is set from then on. */
  class Agent {
    var replies: seq<Reply>
    var checks: nat
    /** How often the token was found set, a run gave no usable result, or its plan had to be refused. */
    var failures: nat

    constructor (replies: seq<Reply>, checks: nat)
      ensures this.replies == replies && this.checks == checks && failures == 0
    {
      this.replies, this.checks, failures := replies, checks, 0;
    }

    method Ask(operation: NodeOperation) returns (reply: Reply)
      modifies this`replies, this`failures
      ensures reply == Heard(operation, old(replies)) && replies == Rest(old(replies))
      ensures failures == old(failures) + (if reply.Answer? && !reply.output.InvalidPlan? then 0 else 1)
    {
      reply := Heard(operation, replies);
      replies := Rest(replies);
      failures := if reply.Answer? && !reply.output.InvalidPlan? then failures else failures + 1;
    }

    method Cancelled() returns (cancelled: bool)
      modifies this`checks, this`failures
      ensures cancelled <==> old(checks) == 0
      ensures checks == if cancelled then 0 else old(checks) - 1
      ensures failures == old(failures) + (if cancelled then 1 else 0)
    {
      cancelled := checks == 0;
      checks := if cancelled then 0 else checks - 1;
      failures := if cancelled then failures + 1 else failures;
    }

    /** Only a plan with an item that widens a scope can be refused. */
    method Refuse(parent: ProblemNode, group: PlanGroup)
      requires !Inheritable(parent, group.items)
      modifies this`failures
      ensures failures == old(failures) + 1
    {
      failures := failures + 1;
    }
  }
}
