/** The cancellation token: an atomic flag next to a notifier. Any number of threads cancel and wait;
    each atomic action of each thread is one step, and steps interleave arbitrarily. */
module CancellationToken {

  /** The flag, and how often waiters were notified. A waiter's future is ready as soon as a
      notification comes after its creation, polled or not. */
  datatype Token = Token(flag: bool, notified: nat)

  class SharedToken {
    var flag: bool
    var notified: nat

    function Snapshot(): Token
      reads this
    {
      Token(flag, notified)
    }

    constructor ()
      ensures Snapshot() == Token(false, 0)
    {
      flag, notified := false, 0;
    }

    method Swap() returns (before: bool)
      modifies this
      ensures before == old(flag) && Snapshot() == Token(true, old(notified))
    {
      before := flag;
      flag := true;
    }

    method NotifyWaiters()
      modifies this
      ensures Snapshot() == Token(old(flag), old(notified) + 1)
    {
      notified := notified + 1;
    }

    /** Only the call that sets the flag notifies. */
    method Cancel()
      modifies this
      ensures Snapshot() == Cancelled(old(Snapshot()))
    {
      var before := Swap();
      if !before {
        NotifyWaiters();
      }
    }
  }

  /** Undisturbed, the two atomic actions of a canceller have this effect. */
  function Cancelled(token: Token): Token
  {
    if token.flag then token else Token(true, token.notified + 1)
  }

  // ---- The threads ----

  datatype Canceller = Idle | Notifying | Finished

  /** Where a waiter stands: before the first check; about to create its future; holding a future and
      about to check again; suspended on it; woken and about to check once more; returned. A future
      remembers how many notifications preceded it. */
  datatype Waiter =
    | Entering
    | Creating
    | Checking(born: nat)
    | Suspended(born: nat)
    | Woken
    | Returned

  datatype Machine = Machine(token: Token, cancellers: seq<Canceller>, waiters: seq<Waiter>)

  datatype Step = CancellerStep(index: nat) | WaiterStep(index: nat)

  predicate Enabled(m: Machine, step: Step)
  {
    match step
    case CancellerStep(i) => i < |m.cancellers| && m.cancellers[i] != Finished
    case WaiterStep(i) =>
      && i < |m.waiters| && m.waiters[i] != Returned
      && (m.waiters[i].Suspended? ==> m.waiters[i].born < m.token.notified)
  }

  function Take(m: Machine, step: Step): Machine
    requires Enabled(m, step)
  {
    match step
    case CancellerStep(i) =>
      if m.cancellers[i] == Idle then
        m.(token := m.token.(flag := true),
           cancellers := m.cancellers[i := if m.token.flag then Finished else Notifying])
      else
        m.(token := m.token.(notified := m.token.notified + 1), cancellers := m.cancellers[i := Finished])
    case WaiterStep(i) =>
      m.(waiters := m.waiters[i := Advanced(m.waiters[i], m.token)])
  }

  function Advanced(waiter: Waiter, token: Token): Waiter
    requires waiter != Returned
  {
    match waiter
    case Entering => if token.flag then Returned else Creating
    case Creating => Checking(token.notified)
    case Checking(born) => if token.flag then Returned else Suspended(born)
    case Suspended(_) => Woken
    case Woken => if token.flag then Returned else Creating
  }

  /** A canceller that no other thread interrupts has the effect of the method: if the flag was set it is
      finished at once, and otherwise after setting the flag and notifying. */
  lemma UndisturbedCancel(m: Machine, i: nat)
    requires i < |m.cancellers| && m.cancellers[i] == Idle
    ensures var once := Take(m, CancellerStep(i));
      if m.token.flag then once.cancellers[i] == Finished && once.token == Cancelled(m.token)
      else
        && once.token.flag && Enabled(once, CancellerStep(i))
        && var twice := Take(once, CancellerStep(i));
           twice.cancellers[i] == Finished && twice.token == Cancelled(m.token)
  {
    var once := Take(m, CancellerStep(i));
    assert once.cancellers[i] == if m.token.flag then Finished else Notifying;
  }

  function Start(cancellers: nat, waiters: nat): Machine
  {
    Machine(Token(false, 0), seq(cancellers, _ => Idle), seq(waiters, _ => Entering))
  }

  /** `m` is reached from the start by some interleaving of enabled steps. */
  ghost predicate Reaches(cancellers: nat, waiters: nat, steps: seq<Step>, m: Machine)
    decreases |steps|
  {
    if steps == [] then m == Start(cancellers, waiters)
    else
      var rest, last := steps[..|steps| - 1], steps[|steps| - 1];
      exists before :: Reaches(cancellers, waiters, rest, before) && Enabled(before, last) && m == Take(before, last)
  }

  // ---- The invariant ----

  /** One canceller at most is between setting the flag and notifying; nobody notifies before the flag
      is set, and the one notification follows it. */
  ghost predicate CancellersOk(m: Machine)
  {
    && (!m.token.flag ==> m.token.notified == 0 && forall i :: 0 <= i < |m.cancellers| ==> m.cancellers[i] == Idle)
    && (m.token.flag && m.token.notified == 0 ==> exists i :: 0 <= i < |m.cancellers| && m.cancellers[i] == Notifying)
    && m.token.notified <= 1
    && (m.token.flag ==> m.cancellers != [])
    && (m.token.notified == 1 ==> forall i :: 0 <= i < |m.cancellers| ==> m.cancellers[i] != Notifying)
    && (forall i, j :: 0 <= i < j < |m.cancellers| && m.cancellers[i] == Notifying ==> m.cancellers[j] != Notifying)
  }

  predicate WaiterOk(waiter: Waiter, token: Token)
  {
    match waiter
    case Checking(born) => born <= token.notified
    case Suspended(born) => born == 0
    case Woken => token.flag
    case Returned => token.flag
    case _ => true
  }

  ghost predicate Sound(m: Machine)
  {
    CancellersOk(m) && forall i :: 0 <= i < |m.waiters| ==> WaiterOk(m.waiters[i], m.token)
  }

  lemma SoundStep(m: Machine, step: Step)
    requires Sound(m) && Enabled(m, step)
    ensures Sound(Take(m, step))
  {
    var t := Take(m, step);
    if step.CancellerStep? && m.cancellers[step.index] == Idle && !m.token.flag {
      assert t.cancellers[step.index] == Notifying;
    } else if step.CancellerStep? && m.cancellers[step.index] == Idle && m.token.notified == 0 {
      var i :| 0 <= i < |m.cancellers| && m.cancellers[i] == Notifying;
      assert t.cancellers[i] == Notifying;
    }
  }

  lemma {:induction false} ReachableSound(cancellers: nat, waiters: nat, steps: seq<Step>, m: Machine)
    requires Reaches(cancellers, waiters, steps, m)
    ensures Sound(m) && |m.cancellers| == cancellers && |m.waiters| == waiters
    decreases |steps|
  {
    if steps != [] {
      var rest, last := steps[..|steps| - 1], steps[|steps| - 1];
      var before :| Reaches(cancellers, waiters, rest, before) && Enabled(before, last) && m == Take(before, last);
      ReachableSound(cancellers, waiters, rest, before);
      SoundStep(before, last);
    }
  }

  // ---- What it buys ----

  /** No lost wake-up: whenever the flag is set, a suspended waiter either can go on or the canceller that
      set the flag has yet to notify. And nobody returns unless the flag is set. */
  lemma NoLostWakeUp(cancellers: nat, waiters: nat, steps: seq<Step>, m: Machine, w: nat)
    requires Reaches(cancellers, waiters, steps, m) && w < waiters
    ensures |m.waiters| == waiters && |m.cancellers| == cancellers
    ensures m.token.flag && m.waiters[w].Suspended? ==>
      Enabled(m, WaiterStep(w)) || exists i :: 0 <= i < |m.cancellers| && m.cancellers[i] == Notifying
    ensures m.waiters[w].Returned? ==> m.token.flag
  {
    ReachableSound(cancellers, waiters, steps, m);
    assert WaiterOk(m.waiters[w], m.token);
  }

  /** When nothing can move any more: with a canceller everyone has returned, without one every waiter
      is still suspended. */
  lemma Quiescent(cancellers: nat, waiters: nat, steps: seq<Step>, m: Machine)
    requires Reaches(cancellers, waiters, steps, m) && forall step :: !Enabled(m, step)
    ensures m.token.flag <==> cancellers > 0
    ensures forall w :: 0 <= w < |m.waiters| ==>
      if m.token.flag then m.waiters[w].Returned? else m.waiters[w].Suspended?
  {
    ReachableSound(cancellers, waiters, steps, m);
    forall i | 0 <= i < |m.cancellers| ensures m.cancellers[i] == Finished {
      assert !Enabled(m, CancellerStep(i));
    }
    assert cancellers > 0 ==> m.cancellers[0] == Finished;
    forall w | 0 <= w < |m.waiters|
      ensures if m.token.flag then m.waiters[w].Returned? else m.waiters[w].Suspended?
    {
      assert !Enabled(m, WaiterStep(w)) && WaiterOk(m.waiters[w], m.token);
    }
  }

  // ---- Every schedule comes to rest ----

  function CancellerWork(canceller: Canceller): nat
  {
    match canceller case Idle => 2 case Notifying => 1 case Finished => 0
  }

  function WaiterWork(waiter: Waiter): nat
  {
    match waiter
    case Entering => 5
    case Creating => 4
    case Checking(_) => 3
    case Suspended(_) => 2
    case Woken => 1
    case Returned => 0
  }

  function CancellersWork(cancellers: seq<Canceller>): nat
  {
    if cancellers == [] then 0 else CancellerWork(cancellers[0]) + CancellersWork(cancellers[1..])
  }

  function WaitersWork(waiters: seq<Waiter>): nat
  {
    if waiters == [] then 0 else WaiterWork(waiters[0]) + WaitersWork(waiters[1..])
  }

  lemma {:induction false} CancellersWorkAt(cancellers: seq<Canceller>, i: nat, canceller: Canceller)
    requires i < |cancellers|
    ensures CancellersWork(cancellers[i := canceller])
         == CancellersWork(cancellers) - CancellerWork(cancellers[i]) + CancellerWork(canceller)
    decreases i
  {
    if i > 0 {
      CancellersWorkAt(cancellers[1..], i - 1, canceller);
      assert cancellers[i := canceller][1..] == cancellers[1..][i - 1 := canceller];
    } else {
      assert cancellers[0 := canceller][1..] == cancellers[1..];
    }
  }

  lemma {:induction false} WaitersWorkAt(waiters: seq<Waiter>, i: nat, waiter: Waiter)
    requires i < |waiters|
    ensures WaitersWork(waiters[i := waiter]) == WaitersWork(waiters) - WaiterWork(waiters[i]) + WaiterWork(waiter)
    decreases i
  {
    if i > 0 {
      WaitersWorkAt(waiters[1..], i - 1, waiter);
      assert waiters[i := waiter][1..] == waiters[1..][i - 1 := waiter];
    } else {
      assert waiters[0 := waiter][1..] == waiters[1..];
    }
  }

  lemma {:induction false} FullCancellersWork(cancellers: seq<Canceller>)
    requires forall i :: 0 <= i < |cancellers| ==> cancellers[i] == Idle
    ensures CancellersWork(cancellers) == 2 * |cancellers|
  {
    if cancellers != [] { FullCancellersWork(cancellers[1..]); }
  }

  lemma {:induction false} FullWaitersWork(waiters: seq<Waiter>)
    requires forall i :: 0 <= i < |waiters| ==> waiters[i] == Entering
    ensures WaitersWork(waiters) == 5 * |waiters|
  {
    if waiters != [] { FullWaitersWork(waiters[1..]); }
  }

  lemma WorkDone(m: Machine, step: Step)
    requires Sound(m) && Enabled(m, step)
    ensures var t := Take(m, step);
      CancellersWork(t.cancellers) + WaitersWork(t.waiters) < CancellersWork(m.cancellers) + WaitersWork(m.waiters)
  {
    hide CancellersOk;
    var t := Take(m, step);
    match step
    case CancellerStep(i) =>
      CancellersWorkAt(m.cancellers, i, t.cancellers[i]);
    case WaiterStep(i) =>
      assert WaiterOk(m.waiters[i], m.token);
      WaitersWorkAt(m.waiters, i, t.waiters[i]);
  }

  /** A waiter never goes round its loop twice, so every schedule ends: two steps per canceller and five
      per waiter is the most there can be. */
  lemma {:induction false} SchedulesEnd(cancellers: nat, waiters: nat, steps: seq<Step>, m: Machine)
    requires Reaches(cancellers, waiters, steps, m)
    ensures |steps| + CancellersWork(m.cancellers) + WaitersWork(m.waiters) <= 2 * cancellers + 5 * waiters
    decreases |steps|
  {
    if steps == [] {
      FullCancellersWork(m.cancellers);
      FullWaitersWork(m.waiters);
    } else {
      var rest, last := steps[..|steps| - 1], steps[|steps| - 1];
      var before :| Reaches(cancellers, waiters, rest, before) && Enabled(before, last) && m == Take(before, last);
      SchedulesEnd(cancellers, waiters, rest, before);
      ReachableSound(cancellers, waiters, rest, before);
      hide Sound, Take, Enabled;
      WorkDone(before, last);
    }
  }

  /** A canceller left undisturbed does what the sequential call does. */
  lemma CancelIsTwoSteps(m: Machine, i: nat)
    requires i < |m.cancellers| && m.cancellers[i] == Idle
    ensures var flagged := Take(m, CancellerStep(i));
      Cancelled(m.token) == if m.token.flag then flagged.token else Take(flagged, CancellerStep(i)).token
  {
  }
}
