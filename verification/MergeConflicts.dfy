/** When the order of merges shows. Two branches that recorded something under a common problem key, a memo
    entry or an attempt, leave engines that no renumbering makes equal; so for branches of different
    children the order is free exactly when no two share a key. */
module MergeConflicts {
  import opened Types
  import opened Nodes
  import opened Resources
  import opened EngineState
  import opened EngineSteps
  import opened Renaming
  import opened Merge
  import opened MergeKeeps
  import opened MergeOrder
  import opened MergeSweeps

  /** The tables keyed by problem key agree under the renumbering. */
  ghost predicate SameEntries(s: State, t: State, r: Renumbering)
  {
    && s.memo.Keys == t.memo.Keys && s.attempts.Keys == t.attempts.Keys
    && (forall key :: key in s.memo ==> t.memo[key] == At(r.artifacts, s.memo[key]))
    && (forall key :: key in s.attempts ==> t.attempts[key] == RenameAttempts(s.attempts[key], r.nodes))
  }

  /** Equal up to renumbering as far as nodes, artifacts, memo and attempts go. */
  ghost predicate Matched(s: State, t: State, r: Renumbering, baseNode: NodeId)
  {
    && Permutes(r.nodes, r.nodesBack, baseNode, s.nextNode)
    && SameNodes(s, t, r) && SameArtifacts(s, t, r) && SameEntries(s, t, r)
  }

  lemma RenumberedMatches(s: State, t: State, r: Renumbering, baseNode: NodeId, baseArtifact: ArtifactId)
    requires Renumbered(s, t, r, baseNode, baseArtifact)
    ensures Matched(s, t, r, baseNode)
  {
    hide Permutes, SameNodes, SameArtifacts, SameLogs, RenameAttempts, At;
  }

  /** The ids the nodes of the branch merged last have. */
  predicate OfLast(q: State, x: Finished, j: NodeId)
  {
    j == x.child || q.nextNode < j <= q.nextNode + Grown(x)
  }

  /** A branch that can be merged into `q`, whatever keys it worked on. */
  ghost predicate Follows(q: State, lo: nat, x: Finished)
  {
    && Numbered(q, lo) && StoreOk(x.state, x.child) && 1 < x.child <= q.nextNode && x.child <= x.state.nextNode
    && x.child in q.nodes && x.child in x.state.nodes
  }

  /** Parent chains of a branch end at its child. */
  lemma ParentOfLast(q: State, lo: nat, x: Finished, j: NodeId)
    requires Follows(q, lo, x) && OfLast(q, x, j) && j != x.child
    ensures var f := Joined(q, x);
      && j in f.nodes && f.nodes[j].parent.Some? && f.nodes[j].parent.value < j
      && OfLast(q, x, f.nodes[j].parent.value)
  {
    hide Merged, NodesOf, ArtifactsOf, Produced, Staged, Grouped, ArtifactOk, MemoOk, LogsOk;
    var i := Unshift(q.nextNode, x.child, j);
    MergedNodeAt(q, lo, x.child, x.state, j);
    MergedNextNode(q, x.child, x.state);
    assert Linked(x.state, i);
    AtNode(q, x.child, x.state, x.state.nodes[i].parent.value);
  }

  /** The branch merged last has the last word on its keys. */
  lemma ProducerOfLast(q: State, lo: nat, x: Finished, key: ProblemKey)
    requires Follows(q, lo, x) && key in x.state.memo
    ensures var f := Joined(q, x);
      && key in f.memo && f.memo[key] == ShiftArtifact(q.nextArtifact, x.state.memo[key])
      && f.memo[key] in f.artifacts && OfLast(q, x, f.artifacts[f.memo[key]].node)
  {
    hide Merged, NodesOf, ArtifactsOf, Linked, Produced, Staged, Grouped, ArtifactOk, LogsOk;
    var a := x.state.memo[key];
    assert Acceptable(x.state, a, key);
    MergedMemoAt(q, x.child, x.state, key);
    MergedArtifactImage(q, lo, x.child, x.state, a);
    AtNode(q, x.child, x.state, x.state.artifacts[a].node);
  }

  /** No renumbering takes a node of the branch merged last on one side to one of the branch merged last
      on the other: the parent chains would have to meet, and both end at ids that stay put. */
  lemma {:induction false} LastStaysApart(p: State, q: State, q': State, lo: nat, x: Finished, y: Finished,
                                          r: Renumbering, j: NodeId)
    requires Follows(q, lo, y) && Follows(q', lo, x) && x.child != y.child
    requires x.child <= p.nextNode && y.child <= p.nextNode && p.nextNode <= q.nextNode && p.nextNode <= q'.nextNode
    requires Matched(Joined(q, y), Joined(q', x), r, p.nextNode)
    requires OfLast(q, y, j)
    ensures !OfLast(q', x, At(r.nodes, j))
    decreases j
  {
    hide Merged, SameArtifacts, SameEntries, Follows;
    FollowerChild(q, lo, y);
    FollowerChild(q', lo, x);
    var s, t, j' := Joined(q, y), Joined(q', x), At(r.nodes, j);
    if j != y.child && OfLast(q', x, j') {
      ParentOfLast(q, lo, y, j);
      var i := s.nodes[j].parent.value;
      LastStaysApart(p, q, q', lo, x, y, r, i);
      Moves(r.nodes, r.nodesBack, p.nextNode, s.nextNode, j);
      ParentOfLast(q', lo, x, j');
    }
  }

  lemma FollowerChild(q: State, lo: nat, x: Finished)
    requires Follows(q, lo, x)
    ensures x.child <= q.nextNode && x.child <= x.state.nextNode
  {
    hide StoreOk, Numbered;
  }

  lemma Moves(ids: IdMap, back: IdMap, base: nat, top: nat, i: nat)
    requires Permutes(ids, back, base, top) && i > base
    ensures At(ids, i) > base
  {
  }

  lemma FollowerJoinable(p: State, lo: nat, n: NodeId, x: Finished, y: Finished)
    requires Joinable(p, lo, n, x) && Joinable(p, lo, n, y) && x.child != y.child
    ensures x.child <= p.nextNode && x.child <= x.state.nextNode && p.nextNode <= Joined(p, x).nextNode
    ensures Follows(Joined(p, x), lo, y)
  {
    JoinableParts(p, lo, n, x);
    JoinableParts(p, lo, n, y);
    MergedNumbered(p, lo, x.child, x.state);
    MergedNodeAt(p, lo, x.child, x.state, y.child);
    MergedNextNode(p, x.child, x.state);
    hide Merged, Linked, Produced, Staged, Grouped, ArtifactOk, MemoOk, LogsOk, InTurn, Closed;
  }

  /** The last attempt under a key the branch merged last worked on was made by one of its nodes. */
  lemma RecordsOfLast(q: State, lo: nat, x: Finished, key: ProblemKey)
    requires Follows(q, lo, x) && key in x.state.attempts
    ensures var f := Joined(q, x);
      && key in f.attempts && f.attempts[key] != []
      && OfLast(q, x, f.attempts[key][|f.attempts[key]| - 1].node)
  {
    hide Merged, NodesOf, ArtifactsOf, Linked, Produced, Staged, Grouped, ArtifactOk, MemoOk;
    var more := x.state.attempts[key];
    MergedAttemptsAt(q, x.child, x.state, key);
    AtNode(q, x.child, x.state, more[|more| - 1].node);
  }

  /** Two branches recorded something under the same key. */
  predicate Shares(x: Finished, y: Finished, key: ProblemKey)
  {
    (key in x.state.memo && key in y.state.memo) || (key in x.state.attempts && key in y.state.attempts)
  }

  /** A shared key rules out every match: whichever branch was merged last has the last word on it, and no
      renumbering takes one branch to the other. */
  lemma SharedKeyClashes(p: State, q: State, q': State, lo: nat, x: Finished, y: Finished, r: Renumbering,
                         key: ProblemKey)
    requires Follows(q, lo, y) && Follows(q', lo, x) && x.child != y.child
    requires x.child <= p.nextNode && y.child <= p.nextNode && p.nextNode <= q.nextNode && p.nextNode <= q'.nextNode
    requires y.child <= q.nextNode && y.child <= y.state.nextNode
    requires x.child <= q'.nextNode && x.child <= x.state.nextNode
    requires Shares(x, y, key)
    ensures !Matched(Joined(q, y), Joined(q', x), r, p.nextNode)
  {
    hide Merged, Follows, OfLast, Matched;
    var s, t := Joined(q, y), Joined(q', x);
    if Matched(s, t, r, p.nextNode) {
      if key in x.state.memo && key in y.state.memo {
        ProducerOfLast(q, lo, y, key);
        ProducerOfLast(q', lo, x, key);
        LastStaysApart(p, q, q', lo, x, y, r, s.artifacts[s.memo[key]].node);
        ProducersAgree(s, t, r, p.nextNode, key);
      } else {
        RecordsOfLast(q, lo, y, key);
        RecordsOfLast(q', lo, x, key);
        LastStaysApart(p, q, q', lo, x, y, r, s.attempts[key][|s.attempts[key]| - 1].node);
        RecordsAgree(s, t, r, p.nextNode, key);
      }
    }
  }

  lemma ProducersAgree(s: State, t: State, r: Renumbering, baseNode: NodeId, key: ProblemKey)
    requires Matched(s, t, r, baseNode)
    requires key in s.memo && s.memo[key] in s.artifacts && key in t.memo && t.memo[key] in t.artifacts
    ensures t.artifacts[t.memo[key]].node == At(r.nodes, s.artifacts[s.memo[key]].node)
  {
    hide Permutes, SameNodes, RenameAttempts, At;
  }

  lemma RecordsAgree(s: State, t: State, r: Renumbering, baseNode: NodeId, key: ProblemKey)
    requires Matched(s, t, r, baseNode)
    requires key in s.attempts && s.attempts[key] != [] && key in t.attempts && t.attempts[key] != []
    ensures t.attempts[key][|t.attempts[key]| - 1].node == At(r.nodes, s.attempts[key][|s.attempts[key]| - 1].node)
  {
    hide Permutes, SameNodes, SameArtifacts, At;
  }

  // ---- Two branches ----

  function Memoised(s: State, key: ProblemKey): Option<ArtifactId>
  {
    if key in s.memo then Some(s.memo[key]) else None
  }

  /** Whichever branch comes second, the memo entry is the artifact it recorded. */
  ghost predicate LaterEntry(p: State, x: Finished, y: Finished, key: ProblemKey)
  {
    && Fits(p, x, y) && key in x.state.memo && key in y.state.memo
    && Memoised(Joined(Joined(p, x), y), key) == Some(ShiftArtifact(Joined(p, x).nextArtifact, y.state.memo[key]))
    && Memoised(Joined(Joined(p, y), x), key) == Some(ShiftArtifact(Joined(p, y).nextArtifact, x.state.memo[key]))
  }

  /** No renumbering makes the two orders of merging equal. */
  ghost predicate OrdersDiffer(p: State, x: Finished, y: Finished)
  {
    && Fits(p, x, y)
    && forall r :: !Renumbered(Joined(Joined(p, x), y), Joined(Joined(p, y), x), r, p.nextNode, p.nextArtifact)
  }

  /** The memo entry of a shared key is the later branch's. */
  lemma SharedKeyLaterWins(p: State, lo: nat, n: NodeId, x: Finished, y: Finished, key: ProblemKey)
    requires Joinable(p, lo, n, x) && Joinable(p, lo, n, y) && x.child != y.child
    requires key in x.state.memo && key in y.state.memo
    ensures LaterEntry(p, x, y, key) && OrdersDiffer(p, x, y)
  {
    hide Merged, Joinable, Follows, Renumbered;
    SharedKeyShows(p, lo, n, x, y, key);
    FollowerJoinable(p, lo, n, x, y);
    FollowerJoinable(p, lo, n, y, x);
    ProducerOfLast(Joined(p, x), lo, y, key);
    ProducerOfLast(Joined(p, y), lo, x, key);
  }

  /** A memo entry or an attempt under a common key makes the order of the two merges show, however ids are
      renumbered. */
  lemma SharedKeyShows(p: State, lo: nat, n: NodeId, x: Finished, y: Finished, key: ProblemKey)
    requires Joinable(p, lo, n, x) && Joinable(p, lo, n, y) && x.child != y.child && Shares(x, y, key)
    ensures OrdersDiffer(p, x, y)
  {
    hide Merged, Joinable, Follows, Renumbered, Matched, Shares;
    FollowerJoinable(p, lo, n, x, y);
    FollowerJoinable(p, lo, n, y, x);
    FollowerChild(Joined(p, x), lo, y);
    FollowerChild(Joined(p, y), lo, x);
    var s, t := Joined(Joined(p, x), y), Joined(Joined(p, y), x);
    forall r ensures !Renumbered(s, t, r, p.nextNode, p.nextArtifact) {
      SharedKeyClashes(p, Joined(p, x), Joined(p, y), lo, x, y, r, key);
      if Renumbered(s, t, r, p.nextNode, p.nextArtifact) {
        RenumberedMatches(s, t, r, p.nextNode, p.nextArtifact);
      }
    }
  }

  lemma KeysShared(x: Finished, y: Finished) returns (key: ProblemKey)
    requires !KeysApart(x, y)
    ensures Shares(x, y, key)
  {
    if key' :| key' in x.state.memo && key' in y.state.memo {
      key := key';
    } else {
      key :| key in x.state.attempts && key in y.state.attempts;
    }
  }

  /** The exact condition for two branches: the order does not show if and only if they share no key. */
  lemma OrderShowsIfShared(p: State, lo: nat, n: NodeId, x: Finished, y: Finished)
    requires Joinable(p, lo, n, x) && Joinable(p, lo, n, y) && Elsewhere(x, y)
    ensures Fits(p, x, y)
    ensures (exists r :: Renumbered(Joined(Joined(p, x), y), Joined(Joined(p, y), x), r, p.nextNode, p.nextArtifact))
       <==> KeysApart(x, y)
  {
    hide Merged, Joinable, Renumbered, Tradable, KeysApart, Shares;
    FollowerJoinable(p, lo, n, x, y);
    FollowerJoinable(p, lo, n, y, x);
    FollowerChild(Joined(p, x), lo, y);
    FollowerChild(Joined(p, y), lo, x);
    if KeysApart(x, y) {
      TradableJoinable(p, lo, n, x, y);
      MergesCommute(p, lo, x, y);
    } else {
      var key := KeysShared(x, y);
      SharedKeyShows(p, lo, n, x, y, key);
    }
  }

  // ---- Any number of branches ----

  lemma {:induction false} JoinedAllConcat(p: State, lo: nat, n: NodeId, xs: seq<Finished>, more: seq<Finished>)
    requires Whole(p, lo) && Ready(p, lo, n, xs + more)
    ensures Ready(p, lo, n, xs) && Ready(JoinedAll(p, lo, n, xs), lo, n, more)
    ensures JoinedAll(p, lo, n, xs + more) == JoinedAll(JoinedAll(p, lo, n, xs), lo, n, more)
    ensures Whole(JoinedAll(p, lo, n, xs), lo) && p.nextNode <= JoinedAll(p, lo, n, xs).nextNode
    decreases |xs|
  {
    hide Joinable, Elsewhere, Merged, Whole;
    ReadyPrefix(p, lo, n, xs, more);
    if xs == [] {
      assert xs + more == more;
    } else {
      hide Ready;
      var rest := xs[1..];
      assert xs + more == [xs[0]] + (rest + more) && xs == [xs[0]] + rest;
      JoinedFirst(p, lo, n, xs[0], rest + more);
      JoinedFirst(p, lo, n, xs[0], rest);
      WholeAfter(p, lo, n, xs[0]);
      JoinedAllConcat(Joined(p, xs[0]), lo, n, rest, more);
    }
  }

  lemma ReadyPrefix(p: State, lo: nat, n: NodeId, xs: seq<Finished>, more: seq<Finished>)
    requires Ready(p, lo, n, xs + more)
    ensures Ready(p, lo, n, xs)
  {
    hide Joinable, Elsewhere;
    forall x | x in xs
      ensures x in xs + more && multiset(xs)[x] == 1
    {
      assert multiset(xs + more) == multiset(xs) + multiset(more);
      assert x in multiset(xs);
    }
  }

  /** Two orders lead to engines equal up to renumbering. */
  ghost predicate Agree(p: State, lo: nat, n: NodeId, ys: seq<Finished>, zs: seq<Finished>)
  {
    && Ready(p, lo, n, ys) && Ready(p, lo, n, zs)
    && exists r :: Renumbered(JoinedAll(p, lo, n, ys), JoinedAll(p, lo, n, zs), r, p.nextNode, p.nextArtifact)
  }

  /** All orders of these branches do. */
  ghost predicate OrderFree(p: State, lo: nat, n: NodeId, xs: seq<Finished>)
  {
    forall ys: seq<Finished>, zs: seq<Finished> ::
      multiset(ys) == multiset(xs) && multiset(zs) == multiset(xs) ==> Agree(p, lo, n, ys, zs)
  }

  /** Two branches that share a key, merged last, in either order. */
  lemma LastTwoDisagree(p: State, lo: nat, n: NodeId, rest: seq<Finished>, x: Finished, y: Finished, key: ProblemKey)
    requires Whole(p, lo) && Ready(p, lo, n, rest + [x, y]) && Ready(p, lo, n, rest + [y, x]) && x != y
    requires Shares(x, y, key)
    ensures forall r :: !Matched(JoinedAll(p, lo, n, rest + [x, y]), JoinedAll(p, lo, n, rest + [y, x]), r, p.nextNode)
  {
    hide Whole, JoinedAll, Merged, Joinable, Follows, Matched, Shares;
    JoinedAllConcat(p, lo, n, rest, [x, y]);
    JoinedAllConcat(p, lo, n, rest, [y, x]);
    var q := JoinedAll(p, lo, n, rest);
    JoinedTwo(q, lo, n, x, y);
    JoinedTwo(q, lo, n, y, x);
    ReadyTwo(p, q, lo, n, rest, x, y);
    hide Ready;
    FollowerJoinable(q, lo, n, x, y);
    FollowerJoinable(q, lo, n, y, x);
    FollowerChild(Joined(q, x), lo, y);
    FollowerChild(Joined(q, y), lo, x);
    forall r
      ensures !Matched(JoinedAll(p, lo, n, rest + [x, y]), JoinedAll(p, lo, n, rest + [y, x]), r, p.nextNode)
    {
      SharedKeyClashes(p, Joined(q, x), Joined(q, y), lo, x, y, r, key);
    }
  }

  lemma ReadyTwo(p: State, q: State, lo: nat, n: NodeId, rest: seq<Finished>, x: Finished, y: Finished)
    requires Ready(p, lo, n, rest + [x, y]) && Ready(q, lo, n, [x, y]) && x != y
    ensures Joinable(q, lo, n, x) && Joinable(q, lo, n, y) && x.child != y.child
    ensures x.child <= p.nextNode && y.child <= p.nextNode
  {
    hide Joinable;
    assert x in [x, y] && y in [x, y];
    assert x in rest + [x, y] && y in rest + [x, y];
    ReadyChildren(p, lo, n, rest + [x, y]);
  }

  lemma JoinedTwo(q: State, lo: nat, n: NodeId, x: Finished, y: Finished)
    requires Ready(q, lo, n, [x, y])
    ensures x.child <= q.nextNode && x.child <= x.state.nextNode
    ensures y.child <= Joined(q, x).nextNode && y.child <= y.state.nextNode
    ensures JoinedAll(q, lo, n, [x, y]) == Joined(Joined(q, x), y)
  {
    hide Ready, Joinable, Merged;
    assert [x, y] == [x] + [y] && [y] == [y] + [];
    JoinedFirst(q, lo, n, x, [y]);
    JoinedFirst(Joined(q, x), lo, n, y, []);
  }

  lemma OneMovedLast(xs: seq<Finished>, x: Finished) returns (rest: seq<Finished>)
    requires x in xs
    ensures multiset(xs) == multiset(rest) + multiset{x}
  {
    hide Removed;
    var k :| 0 <= k < |xs| && xs[k] == x;
    TakenOut(xs, k);
    rest := Removed(xs, k);
  }

  lemma TwoMovedLast(xs: seq<Finished>, x: Finished, y: Finished) returns (rest: seq<Finished>)
    requires x in xs && y in xs && x != y
    ensures multiset(rest + [x, y]) == multiset(xs) && multiset(rest + [y, x]) == multiset(xs)
  {
    var less := OneMovedLast(xs, x);
    assert y in multiset(xs) && y in multiset(less);
    rest := OneMovedLast(less, y);
    assert multiset([x, y]) == multiset{x} + multiset{y} == multiset([y, x]);
  }

  /** The exact condition for any number of branches of different children: the order in which they finish
      is free if and only if no two of them recorded anything under a common key. */
  lemma OrderFreeIfOwnKeys(p: State, lo: nat, n: NodeId, xs: seq<Finished>)
    requires Whole(p, lo) && Ready(p, lo, n, xs)
    ensures OrderFree(p, lo, n, xs) <==> OwnKeys(xs)
  {
    hide Whole, Ready, JoinedAll, Renumbered, Matched, KeysApart, Shares;
    if OwnKeys(xs) {
      forall ys: seq<Finished>, zs: seq<Finished> | multiset(ys) == multiset(xs) && multiset(zs) == multiset(xs)
        ensures Agree(p, lo, n, ys, zs)
      {
        ReadyShuffled(p, lo, n, xs, ys);
        OwnKeysShuffled(xs, ys);
        var r := AnyOrder(p, lo, n, ys, zs);
      }
    } else {
      var x, y :| x in xs && y in xs && x != y && !KeysApart(x, y);
      var key := KeysShared(x, y);
      var rest := TwoMovedLast(xs, x, y);
      var ys, zs := rest + [x, y], rest + [y, x];
      ReadyShuffled(p, lo, n, xs, ys);
      ReadyShuffled(p, lo, n, xs, zs);
      LastTwoDisagree(p, lo, n, rest, x, y, key);
      if Agree(p, lo, n, ys, zs) {
        var r :| Renumbered(JoinedAll(p, lo, n, ys), JoinedAll(p, lo, n, zs), r, p.nextNode, p.nextArtifact);
        RenumberedMatches(JoinedAll(p, lo, n, ys), JoinedAll(p, lo, n, zs), r, p.nextNode, p.nextArtifact);
      }
    }
  }

  // ---- The loop with its cleanups ----

  ghost predicate LoopsAgree(p: State, lo: nat, n: NodeId, ys: seq<Finished>, zs: seq<Finished>)
  {
    && Ready(p, lo, n, ys) && Ready(p, lo, n, zs)
    && Looped(p, lo, n, ys).1 == Looped(p, lo, n, zs).1
    && exists r :: Renumbered(Looped(p, lo, n, ys).0, Looped(p, lo, n, zs).0, r, p.nextNode, p.nextArtifact)
  }

  ghost predicate LoopFree(p: State, lo: nat, n: NodeId, xs: seq<Finished>)
  {
    forall ys: seq<Finished>, zs: seq<Finished> ::
      multiset(ys) == multiset(xs) && multiset(zs) == multiset(xs) ==> LoopsAgree(p, lo, n, ys, zs)
  }

  lemma CleanedMatches(s: State, t: State, r: Renumbering, baseNode: NodeId)
    requires Matched(CleanedUp(s), CleanedUp(t), r, baseNode)
    ensures Matched(s, t, r, baseNode)
  {
    hide Permutes, RenameNode, RenameArtifact, RenameAttempts, At, SweptOn, ReleasableSet;
  }

  /** The same condition for the loop as it runs, in terms of the engine it leaves and the cleanup calls. */
  lemma LoopFreeIfOwnKeys(p: State, lo: nat, n: NodeId, xs: seq<Finished>)
    requires Whole(p, lo) && Ready(p, lo, n, xs)
    ensures LoopFree(p, lo, n, xs) <==> OwnKeys(xs)
  {
    hide Whole, Ready, JoinedAll, Looped, Renumbered, Matched, KeysApart, Shares, CleanedUp;
    if OwnKeys(xs) {
      forall ys: seq<Finished>, zs: seq<Finished> | multiset(ys) == multiset(xs) && multiset(zs) == multiset(xs)
        ensures LoopsAgree(p, lo, n, ys, zs)
      {
        ReadyShuffled(p, lo, n, xs, ys);
        OwnKeysShuffled(xs, ys);
        var r := AnyOrderCleaned(p, lo, n, ys, zs);
      }
    } else {
      var x, y :| x in xs && y in xs && x != y && !KeysApart(x, y);
      var key := KeysShared(x, y);
      var rest := TwoMovedLast(xs, x, y);
      var ys, zs := rest + [x, y], rest + [y, x];
      ReadyShuffled(p, lo, n, xs, ys);
      ReadyShuffled(p, lo, n, xs, zs);
      LastTwoDisagree(p, lo, n, rest, x, y, key);
      LoopedIs(p, lo, n, ys);
      LoopedIs(p, lo, n, zs);
      if LoopsAgree(p, lo, n, ys, zs) {
        var r :| Renumbered(Looped(p, lo, n, ys).0, Looped(p, lo, n, zs).0, r, p.nextNode, p.nextArtifact);
        RenumberedMatches(Looped(p, lo, n, ys).0, Looped(p, lo, n, zs).0, r, p.nextNode, p.nextArtifact);
        CleanedMatches(JoinedAll(p, lo, n, ys), JoinedAll(p, lo, n, zs), r, p.nextNode);
      }
    }
  }
}
