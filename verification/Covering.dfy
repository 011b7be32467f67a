/** When does one wildcard pattern cover another? A pattern of "many" symbols (any run of letters),
    "any" symbols (any single letter) and others is first spread out: wherever a run of wildcards
    holds a "many", every "any" of the run gets a "many" on both sides, which changes no meaning.
    After that, the words of a child pattern are all words of the parent exactly when the parent
    pattern splits the child pattern itself. */
module Covering {
  import opened Splitting

  /** The run of wildcards at the front of the pattern holds a "many". */
  predicate RunHasMany<T>(pattern: seq<T>, many: T -> bool, any: T -> bool)
    decreases |pattern|
  {
    pattern != [] && (many(pattern[0]) || (any(pattern[0]) && RunHasMany(pattern[1..], many, any)))
  }

  /** The pattern spread out; `after` says that a "many" stands right before it. */
  function Spread<T>(pattern: seq<T>, after: bool, star: T, many: T -> bool, any: T -> bool): (spread: seq<T>)
    decreases |pattern|
  {
    if pattern == [] then []
    else if many(pattern[0]) then [pattern[0]] + Spread(pattern[1..], true, star, many, any)
    else if any(pattern[0]) && (after || RunHasMany(pattern[1..], many, any)) then
      [star, pattern[0], star] + Spread(pattern[1..], true, star, many, any)
    else [pattern[0]] + Spread(pattern[1..], false, star, many, any)
  }

  /** Every "any" has a "many" on its left exactly when it has one on its right. */
  predicate Spaced<T>(pattern: seq<T>, after: bool, many: T -> bool, any: T -> bool)
    decreases |pattern|
  {
    pattern == [] ||
    (&& (any(pattern[0]) && !many(pattern[0]) ==> (after <==> |pattern| > 1 && many(pattern[1])))
     && Spaced(pattern[1..], many(pattern[0]), many, any))
  }

  lemma {:induction false} SpreadSpaced<T>(pattern: seq<T>, after: bool, star: T, many: T -> bool, any: T -> bool)
    requires many(star)
    ensures Spaced(Spread(pattern, after, star, many, any), after, many, any)
    decreases |pattern|
  {
    if pattern == [] {
    } else if many(pattern[0]) {
      SpreadSpaced(pattern[1..], true, star, many, any);
    } else if any(pattern[0]) && (after || RunHasMany(pattern[1..], many, any)) {
      SpreadSpaced(pattern[1..], true, star, many, any);
      var rest := Spread(pattern[1..], true, star, many, any);
      assert Spaced([star] + rest, false, many, any) by { assert ([star] + rest)[1..] == rest; }
      assert Spaced([pattern[0], star] + rest, true, many, any) by {
        assert ([pattern[0], star] + rest)[1..] == [star] + rest;
      }
      assert ([star, pattern[0], star] + rest)[1..] == [pattern[0], star] + rest;
    } else {
      SpreadSpaced(pattern[1..], false, star, many, any);
    }
  }

  lemma {:induction false} SpacedAt<T>(pattern: seq<T>, after: bool, i: nat, many: T -> bool, any: T -> bool)
    requires Spaced(pattern, after, many, any)
    requires i < |pattern| && any(pattern[i]) && !many(pattern[i])
    ensures (if i == 0 then after else many(pattern[i - 1])) <==> i + 1 < |pattern| && many(pattern[i + 1])
    decreases |pattern|
  {
    if i > 0 {
      SpacedAt(pattern[1..], many(pattern[0]), i - 1, many, any);
    }
  }

  /** Inside a run of wildcards that holds a "many", every "any" stands between two of them. */
  lemma {:induction false} BetweenMany<T>(
      pattern: seq<T>, i: nat, s: nat, many: T -> bool, any: T -> bool)
    requires Spaced(pattern, false, many, any)
    requires i < |pattern| && s < |pattern| && many(pattern[s]) && !many(pattern[i])
    requires forall k :: (i <= k <= s || s <= k <= i) ==> many(pattern[k]) || any(pattern[k])
    ensures 0 < i < |pattern| - 1 && many(pattern[i - 1]) && many(pattern[i + 1])
    decreases if i < s then s - i else i - s
  {
    SpacedAt(pattern, false, i, many, any);
    var next := if i < s then i + 1 else i - 1;
    if !many(pattern[next]) {
      BetweenMany(pattern, next, s, many, any);
    }
  }

  // ---- Spreading changes no meaning ----

  lemma SplitsOne<T, X(!new)>(p: T, word: seq<X>, many: T -> bool, one: (T, X) -> bool)
    requires many(p) || (|word| == 1 && one(p, word[0]))
    ensures Splits([p], word, many, one)
  {
    SplitsNil<T, X>([], many, one);
    assert [p][1..] == [] && word[|word|..] == [];
    SplitsPrepend([p], word, |word|, many, one);
  }

  /** A "many" at the front takes more letters in front. */
  lemma AbsorbMore<T, X(!new)>(pattern: seq<T>, more: seq<X>, word: seq<X>, many: T -> bool, one: (T, X) -> bool)
    requires pattern != [] && many(pattern[0])
    requires Splits(pattern, word, many, one)
    ensures Splits(pattern, more + word, many, one)
  {
    var k := SplitsHead(pattern, word, many, one);
    assert (more + word)[|more| + k..] == word[k..];
    SplitsPrepend(pattern, more + word, |more| + k, many, one);
  }

  /** Two adjacent "many" symbols do the work of one. */
  lemma MergeMany<T, X(!new)>(
      star: T, second: T, rest: seq<T>, word: seq<X>, many: T -> bool, one: (T, X) -> bool)
    requires many(star) && many(second)
    requires Splits([star, second] + rest, word, many, one)
    ensures Splits([star] + rest, word, many, one)
  {
    var k := SplitsHead([star, second] + rest, word, many, one);
    assert ([star, second] + rest)[1..] == [second] + rest;
    var m := SplitsHead([second] + rest, word[k..], many, one);
    assert ([second] + rest)[1..] == rest && ([star] + rest)[1..] == rest && word[k..][m..] == word[k + m..];
    SplitsPrepend([star] + rest, word, k + m, many, one);
  }

  lemma {:induction false} SpreadAccepts<T, X(!new)>(
      pattern: seq<T>, after: bool, star: T, word: seq<X>, many: T -> bool, any: T -> bool, one: (T, X) -> bool)
    requires many(star)
    requires Splits(pattern, word, many, one)
    ensures Splits(Spread(pattern, after, star, many, any), word, many, one)
    decreases |pattern|
  {
    if pattern != [] {
      var p := pattern[0];
      var k := SplitsHead(pattern, word, many, one);
      var open := !many(p) && any(p) && (after || RunHasMany(pattern[1..], many, any));
      var rest := Spread(pattern[1..], many(p) || open, star, many, any);
      SpreadAccepts(pattern[1..], many(p) || open, star, word[k..], many, any, one);
      SplitsOne(p, word[..k], many, one);
      SplitsConcat([p], rest, word[..k], word[k..], many, one);
      assert word[..k] + word[k..] == word;
      if open {
        SplitsOne(star, [], many, one);
        SplitsConcat([star], rest, [], word[k..], many, one);
        assert [] + word[k..] == word[k..] && [] + word == word;
        SplitsConcat([p], [star] + rest, word[..k], word[k..], many, one);
        SplitsConcat([star], [p] + ([star] + rest), [], word, many, one);
        assert [star] + ([p] + ([star] + rest)) == [star, p, star] + rest;
      }
    }
  }

  /** A run of wildcards that holds a "many" takes more letters in front. */
  lemma {:induction false} RunAbsorbs<T, X(!new)>(
      pattern: seq<T>, more: seq<X>, word: seq<X>, many: T -> bool, any: T -> bool, one: (T, X) -> bool)
    requires RunHasMany(pattern, many, any)
    requires forall p, x :: any(p) ==> one(p, x)
    requires Splits(pattern, word, many, one)
    ensures Splits(pattern, more + word, many, one)
    decreases |pattern|
  {
    if many(pattern[0]) {
      AbsorbMore(pattern, more, word, many, one);
    } else {
      var k := SplitsHead(pattern, word, many, one);
      var whole := more + word;
      RunAbsorbs(pattern[1..], whole[1..|more| + 1], word[1..], many, any, one);
      assert whole[1..|more| + 1] + word[1..] == whole[1..];
      SplitsPrepend(pattern, whole, 1, many, one);
    }
  }

  /** One opened "any": the letter it takes may be any one of those the symbols around it take. */
  lemma OpenedOnce<T, X(!new)>(
      p: T, star: T, spread: seq<T>, word: seq<X>, many: T -> bool, one: (T, X) -> bool)
    returns (n: nat)
    requires many(star) && !many(p)
    requires Splits([star, p, star] + spread, word, many, one)
    ensures 0 < n <= |word| && Splits([star] + spread, word[n..], many, one)
  {
    var k := SplitsHead([star, p, star] + spread, word, many, one);
    assert ([star, p, star] + spread)[1..] == [p, star] + spread;
    var m := SplitsHead([p, star] + spread, word[k..], many, one);
    assert ([p, star] + spread)[1..] == [star] + spread;
    n := k + m;
    assert word[k..][m..] == word[n..];
  }

  lemma {:induction false} SpreadSoundAfter<T, X(!new)>(
      pattern: seq<T>, star: T, word: seq<X>, many: T -> bool, any: T -> bool, one: (T, X) -> bool)
    requires many(star)
    requires forall p, x :: any(p) ==> one(p, x)
    requires Splits([star] + Spread(pattern, true, star, many, any), word, many, one)
    ensures Splits([star] + pattern, word, many, one)
    decreases |pattern|
  {
    if pattern != [] {
      var p := pattern[0];
      var rest := Spread(pattern[1..], true, star, many, any);
      if many(p) {
        assert [star] + ([p] + rest) == [star, p] + rest;
        MergeMany(star, p, rest, word, many, one);
        SpreadSoundAfter(pattern[1..], star, word, many, any, one);
        var m := SplitsHead([star] + pattern[1..], word, many, one);
        assert ([star] + pattern[1..])[1..] == pattern[1..] && ([star] + pattern)[1..] == pattern;
        assert word[m..][0..] == word[m..];
        SplitsPrepend(pattern, word[m..], 0, many, one);
        SplitsPrepend([star] + pattern, word, m, many, one);
      } else if any(p) {
        assert [star] + ([star, p, star] + rest) == [star, star] + ([p, star] + rest);
        MergeMany(star, star, [p, star] + rest, word, many, one);
        assert [star] + ([p, star] + rest) == [star, p, star] + rest;
        var n := OpenedOnce(p, star, rest, word, many, one);
        SpreadSoundAfter(pattern[1..], star, word[n..], many, any, one);
        var m := SplitsHead([star] + pattern[1..], word[n..], many, one);
        assert ([star] + pattern[1..])[1..] == pattern[1..] && ([star] + pattern)[1..] == pattern;
        var last := n + m - 1;
        assert word[last..][1..] == word[n..][m..];
        SplitsPrepend(pattern, word[last..], 1, many, one);
        SplitsPrepend([star] + pattern, word, last, many, one);
      } else {
        var other := Spread(pattern[1..], false, star, many, any);
        var k := SplitsHead([star] + ([p] + other), word, many, one);
        assert ([star] + ([p] + other))[1..] == [p] + other && ([star] + pattern)[1..] == pattern;
        var m := SplitsHead([p] + other, word[k..], many, one);
        assert ([p] + other)[1..] == other;
        SpreadSound(pattern[1..], star, word[k..][1..], many, any, one);
        SplitsPrepend(pattern, word[k..], 1, many, one);
        SplitsPrepend([star] + pattern, word, k, many, one);
      }
    }
  }

  lemma {:induction false} SpreadSound<T, X(!new)>(
      pattern: seq<T>, star: T, word: seq<X>, many: T -> bool, any: T -> bool, one: (T, X) -> bool)
    requires many(star)
    requires forall p, x :: any(p) ==> one(p, x)
    requires Splits(Spread(pattern, false, star, many, any), word, many, one)
    ensures Splits(pattern, word, many, one)
    decreases |pattern|
  {
    if pattern != [] {
      var p := pattern[0];
      if many(p) {
        assert pattern == [p] + pattern[1..];
        StarsAlike(star, p, Spread(pattern[1..], true, star, many, any), word, many, one);
        SpreadSoundAfter(pattern[1..], star, word, many, any, one);
        StarsAlike(p, star, pattern[1..], word, many, one);
      } else if any(p) && RunHasMany(pattern[1..], many, any) {
        var n := OpenedOnce(p, star, Spread(pattern[1..], true, star, many, any), word, many, one);
        SpreadSoundAfter(pattern[1..], star, word[n..], many, any, one);
        var m := SplitsHead([star] + pattern[1..], word[n..], many, one);
        assert ([star] + pattern[1..])[1..] == pattern[1..];
        RunAbsorbs(pattern[1..], word[1..n + m], word[n..][m..], many, any, one);
        assert word[1..n + m] + word[n..][m..] == word[1..];
        SplitsPrepend(pattern, word, 1, many, one);
      } else {
        var other := Spread(pattern[1..], false, star, many, any);
        var k := SplitsHead([p] + other, word, many, one);
        assert ([p] + other)[1..] == other;
        SpreadSound(pattern[1..], star, word[1..], many, any, one);
        SplitsPrepend(pattern, word, 1, many, one);
      }
    }
  }

  /** It does not matter which "many" symbol stands in front. */
  lemma StarsAlike<T, X(!new)>(
      star: T, other: T, rest: seq<T>, word: seq<X>, many: T -> bool, one: (T, X) -> bool)
    requires many(star) && many(other)
    requires Splits([other] + rest, word, many, one)
    ensures Splits([star] + rest, word, many, one)
  {
    var k := SplitsHead([other] + rest, word, many, one);
    assert ([other] + rest)[1..] == rest && ([star] + rest)[1..] == rest;
    SplitsPrepend([star] + rest, word, k, many, one);
  }

  // ---- Putting a "many" into a covered word ----

  lemma StarFrom<T, X(!new)>(pattern: seq<T>, i: nat, a: nat, word: seq<X>, many: T -> bool, one: (T, X) -> bool)
    requires i <= a < |pattern| && many(pattern[a])
    requires Splits(pattern[i..], word, many, one)
    ensures Splits(pattern[a..], word, many, one)
  {
    var m := SplitsCut(pattern[i..], a - i, word, many, one);
    assert pattern[i..][a - i..] == pattern[a..] && word[..m] + word[m..] == word;
    AbsorbMore(pattern[a..], word[..m], word[m..], many, one);
  }

  lemma StarTo<T, X(!new)>(pattern: seq<T>, a: nat, i: nat, word: seq<X>, many: T -> bool, one: (T, X) -> bool)
    requires a < i <= |pattern| && many(pattern[a])
    requires Splits(pattern[..i], word, many, one)
    ensures Splits(pattern[..a + 1], word, many, one)
  {
    var m := SplitsCut(pattern[..i], a, word, many, one);
    assert pattern[..i][..a] == pattern[..a] && pattern[..a] + [pattern[a]] == pattern[..a + 1];
    SplitsOne(pattern[a], word[m..], many, one);
    SplitsConcat(pattern[..a], [pattern[a]], word[..m], word[m..], many, one);
    assert word[..m] + word[m..] == word;
  }

  /** A "many" shared by the two sides also takes a letter between them. */
  lemma SharedStar<T, X(!new)>(
      pattern: seq<T>, a: nat, left: seq<X>, c: X, right: seq<X>, many: T -> bool, one: (T, X) -> bool)
    requires a < |pattern| && many(pattern[a])
    requires Splits(pattern[..a + 1], left, many, one) && Splits(pattern[a..], right, many, one)
    ensures Splits(pattern, left + [c] + right, many, one)
  {
    var m := SplitsCut(pattern[..a + 1], a, left, many, one);
    assert pattern[..a + 1][..a] == pattern[..a];
    AbsorbMore(pattern[a..], left[m..] + [c], right, many, one);
    SplitsConcat(pattern[..a], pattern[a..], left[..m], left[m..] + [c] + right, many, one);
    assert pattern[..a] + pattern[a..] == pattern;
    assert left[..m] + (left[m..] + [c] + right) == left + [c] + right;
  }

  /** A pattern that takes many copies of a letter only wildcards take is all wildcards, and one of
      them is a "many" when there are more copies than symbols. */
  lemma {:induction false} WildOver<T, X(!new)>(
      pattern: seq<T>, word: seq<X>, z: X, many: T -> bool, any: T -> bool, one: (T, X) -> bool)
    requires Splits(pattern, word, many, one)
    requires forall j :: 0 <= j < |word| ==> word[j] == z
    requires forall p :: p in pattern && !many(p) && one(p, z) ==> any(p)
    ensures forall k :: 0 <= k < |pattern| ==> many(pattern[k]) || any(pattern[k])
    ensures |word| > |pattern| ==> exists k :: 0 <= k < |pattern| && many(pattern[k])
    decreases |pattern|
  {
    if pattern == [] {
      SplitsNil(word, many, one);
    } else {
      var k := SplitsHead(pattern, word, many, one);
      WildOver(pattern[1..], word[k..], z, many, any, one);
      assert forall j :: 0 < j < |pattern| ==> pattern[j] == pattern[1..][j - 1];
      if |word| > |pattern| && !many(pattern[0]) {
        var j :| 0 <= j < |pattern[1..]| && many(pattern[1..][j]);
        assert many(pattern[j + 1]);
      }
    }
  }

  lemma ExtendLeft<T, X(!new)>(pattern: seq<T>, i: nat, word: seq<X>, many: T -> bool, one: (T, X) -> bool)
    requires i < |pattern| && many(pattern[i])
    requires Splits(pattern[..i], word, many, one)
    ensures Splits(pattern[..i + 1], word, many, one)
  {
    SplitsOne(pattern[i], [], many, one);
    SplitsConcat(pattern[..i], [pattern[i]], word, [], many, one);
    assert pattern[..i] + [pattern[i]] == pattern[..i + 1] && word + [] == word;
  }

  lemma ExtendRight<T, X(!new)>(pattern: seq<T>, i: nat, word: seq<X>, many: T -> bool, one: (T, X) -> bool)
    requires i < |pattern| && many(pattern[i])
    requires Splits(pattern[i + 1..], word, many, one)
    ensures Splits(pattern[i..], word, many, one)
  {
    SplitsOne(pattern[i], [], many, one);
    SplitsConcat([pattern[i]], pattern[i + 1..], [], word, many, one);
    assert [pattern[i]] + pattern[i + 1..] == pattern[i..] && [] + word == word;
  }

  /** All of the pattern between two positions is wildcards. */
  predicate WildBetween<T>(pattern: seq<T>, lo: nat, hi: nat, many: T -> bool, any: T -> bool)
  {
    lo <= hi <= |pattern| && forall k :: lo <= k < hi ==> many(pattern[k]) || any(pattern[k])
  }

  /** The left end of a stretch of wildcards with a "many" in it: a "many" ends what covers `word`. */
  lemma LeftStar<T, X(!new)>(
      pattern: seq<T>, i: nat, hi: nat, s: nat, word: seq<X>, many: T -> bool, any: T -> bool, one: (T, X) -> bool)
    returns (a: nat)
    requires Spaced(pattern, false, many, any) && WildBetween(pattern, i, hi, many, any)
    requires i <= s < hi && many(pattern[s])
    requires Splits(pattern[..i], word, many, one) || (many(pattern[i]) && Splits(pattern[..i + 1], word, many, one))
    ensures a <= i <= a + 1 && many(pattern[a]) && Splits(pattern[..a + 1], word, many, one)
  {
    if many(pattern[i]) {
      a := i;
      if Splits(pattern[..i], word, many, one) {
        ExtendLeft(pattern, i, word, many, one);
      }
    } else {
      BetweenMany(pattern, i, s, many, any);
      a := i - 1;
    }
  }

  /** The right end of such a stretch. */
  lemma RightStar<T, X(!new)>(
      pattern: seq<T>, lo: nat, hi: nat, s: nat, word: seq<X>, many: T -> bool, any: T -> bool, one: (T, X) -> bool)
    returns (a: nat)
    requires Spaced(pattern, false, many, any) && WildBetween(pattern, lo, hi, many, any)
    requires lo <= s < hi && many(pattern[s])
    requires Splits(pattern[hi..], word, many, one)
    ensures a < |pattern| && hi - 1 <= a <= hi && many(pattern[a]) && Splits(pattern[a..], word, many, one)
  {
    if many(pattern[hi - 1]) {
      a := hi - 1;
      ExtendRight(pattern, a, word, many, one);
    } else {
      BetweenMany(pattern, hi - 1, s, many, any);
      a := hi;
    }
  }

  /** The exchange step. A spread pattern that covers `left + right` and also covers them with many
      copies of a wildcard-only letter in between has a "many" it can put between them. */
  lemma Exchange<T, X(!new)>(
      pattern: seq<T>, left: seq<X>, copies: seq<X>, right: seq<X>, c: X, z: X,
      many: T -> bool, any: T -> bool, one: (T, X) -> bool)
    requires Spaced(pattern, false, many, any)
    requires Splits(pattern, left + right, many, one)
    requires Splits(pattern, left + copies + right, many, one)
    requires |copies| > |pattern| && forall j :: 0 <= j < |copies| ==> copies[j] == z
    requires forall p :: p in pattern && !many(p) && one(p, z) ==> any(p)
    ensures Splits(pattern, left + [c] + right, many, one)
  {
    hide Splits, Spaced;
    var i0, i1, e, s := Stretch(pattern, left, copies, right, z, many, any, one);
    var a0 := LeftStar(pattern, i0, e, s, left, many, any, one);
    var a1 := i1;
    if i1 == e {
      a1 := RightStar(pattern, i0, e, s, right, many, any, one);
    }
    var i, j := SplitsCutWord(pattern, left + right, |left|, many, one);
    assert (left + right)[..|left|] == left && (left + right)[|left|..] == right;
    if i < j {
      SharedStar(pattern, i, left, c, right, many, one);
    } else if i <= a0 {
      StarFrom(pattern, i, a0, right, many, one);
      SharedStar(pattern, a0, left, c, right, many, one);
    } else if a1 < i {
      StarTo(pattern, a1, i, left, many, one);
      SharedStar(pattern, a1, left, c, right, many, one);
    } else if many(pattern[i]) {
      ExtendLeft(pattern, i, left, many, one);
      SharedStar(pattern, i, left, c, right, many, one);
    } else {
      BetweenMany(pattern, i, s, many, any);
      ExtendRight(pattern, i - 1, right, many, one);
      SharedStar(pattern, i - 1, left, c, right, many, one);
    }
  }

  /** The stretch of wildcards over which the copies lie. */
  lemma Stretch<T, X(!new)>(
      pattern: seq<T>, left: seq<X>, copies: seq<X>, right: seq<X>, z: X,
      many: T -> bool, any: T -> bool, one: (T, X) -> bool)
    returns (lo: nat, r: nat, hi: nat, s: nat)
    requires Splits(pattern, left + copies + right, many, one)
    requires |copies| > |pattern| && forall j :: 0 <= j < |copies| ==> copies[j] == z
    requires forall p :: p in pattern && !many(p) && one(p, z) ==> any(p)
    ensures WildBetween(pattern, lo, hi, many, any) && lo <= s < hi && many(pattern[s])
    ensures Splits(pattern[..lo], left, many, one) || (many(pattern[lo]) && Splits(pattern[..lo + 1], left, many, one))
    ensures lo <= r && (r == hi || (r == hi - 1 && many(pattern[r])))
    ensures Splits(pattern[r..], right, many, one)
  {
    hide Splits;
    var word := left + copies + right;
    var i0, j0 := SplitsCutWord(pattern, word, |left|, many, one);
    assert word[..|left|] == left && word[|left|..] == copies + right;
    var tail := pattern[i0..];
    var i1, j1 := SplitsCutWord(tail, copies + right, |copies|, many, one);
    assert (copies + right)[..|copies|] == copies && (copies + right)[|copies|..] == right;
    lo, r, hi := i0, i0 + i1, i0 + j1;
    assert tail[..j1] == pattern[lo..hi] && tail[i1..] == pattern[r..];
    WildOver(pattern[lo..hi], copies, z, many, any, one);
    assert forall k :: lo <= k < hi ==> pattern[k] == pattern[lo..hi][k - lo];
    var k :| 0 <= k < |pattern[lo..hi]| && many(pattern[lo..hi][k]);
    s := lo + k;
  }

  // ---- Completeness: containment forces covering ----

  /** Every word of `inner` made of proper letters is a word of `outer`. When `bare` does not hold the
      empty word does not count. */
  ghost predicate Within<T(!new)>(
      outer: seq<T>, inner: seq<T>, bare: bool, fine: T -> bool, many: T -> bool, takes: (T, T) -> bool)
  {
    forall word: seq<T> | Splits(inner, word, many, takes) ::
      (bare || word != []) && (forall x :: x in word ==> fine(x)) ==> Splits(outer, word, many, takes)
  }

  /** A "many" of the inner pattern stands for anything in its place. */
  lemma StandsFor<T, X(!new)>(
      left: seq<T>, middle: seq<T>, right: seq<T>, star: T, word: seq<X>, many: T -> bool, one: (T, X) -> bool)
    requires many(star)
    requires Splits(left + middle + right, word, many, one)
    ensures Splits(left + [star] + right, word, many, one)
  {
    hide Splits;
    var whole := left + middle + right;
    var m := SplitsCut(whole, |left|, word, many, one);
    assert whole[..|left|] == left && whole[|left|..] == middle + right;
    var n := SplitsCut(middle + right, |middle|, word[m..], many, one);
    assert (middle + right)[|middle|..] == right;
    SplitsOne(star, word[m..][..n], many, one);
    SplitsConcat([star], right, word[m..][..n], word[m..][n..], many, one);
    assert word[m..][..n] + word[m..][n..] == word[m..] && word[..m] + word[m..] == word;
    SplitsConcat(left, [star] + right, word[..m], word[m..], many, one);
    assert left + ([star] + right) == left + [star] + right;
  }

  lemma WithinPart<T(!new)>(
      outer: seq<T>, left: seq<T>, middle: seq<T>, right: seq<T>, star: T,
      bare: bool, fine: T -> bool, many: T -> bool, takes: (T, T) -> bool)
    requires many(star)
    requires Within(outer, left + [star] + right, bare, fine, many, takes)
    ensures Within(outer, left + middle + right, bare, fine, many, takes)
  {
    forall word: seq<T> | Splits(left + middle + right, word, many, takes)
      ensures (bare || word != []) && (forall x :: x in word ==> fine(x)) ==> Splits(outer, word, many, takes)
    {
      StandsFor(left, middle, right, star, word, many, takes);
    }
  }

  lemma {:induction false} Stands<T(!new)>(
      pattern: seq<T>, word: seq<T>, many: T -> bool, takes: (T, T) -> bool)
    requires |word| == |pattern|
    requires forall k :: 0 <= k < |pattern| ==> takes(pattern[k], word[k])
    ensures Splits(pattern, word, many, takes)
    decreases |pattern|
  {
    if pattern == [] {
      SplitsNil(word, many, takes);
    } else {
      Stands(pattern[1..], word[1..], many, takes);
      SplitsPrepend(pattern, word, 1, many, takes);
    }
  }

  lemma {:induction false} SpreadSymbols<T>(
      pattern: seq<T>, after: bool, star: T, many: T -> bool, any: T -> bool)
    ensures forall p :: p in Spread(pattern, after, star, many, any) ==> p == star || p in pattern
    decreases |pattern|
  {
    if pattern != [] {
      SpreadSymbols(pattern[1..], true, star, many, any);
      SpreadSymbols(pattern[1..], false, star, many, any);
    }
  }

  /** A pattern covers itself. */
  lemma {:induction false} CoversSelf<T(!new)>(pattern: seq<T>, many: T -> bool, covers: (T, T) -> bool)
    requires forall p :: p in pattern && !many(p) ==> covers(p, p)
    ensures Splits(pattern, pattern, many, covers)
    decreases |pattern|
  {
    if pattern == [] {
      SplitsNil(pattern, many, covers);
    } else {
      CoversSelf(pattern[1..], many, covers);
      SplitsPrepend(pattern, pattern, 1, many, covers);
    }
  }

  /** What a choice of letters has to provide: `inst(c)` is a letter of `c` that an outer symbol takes
      only if it covers `c`, and only wildcards cover `z`. */
  ghost predicate Separates<T(!new)>(
      outer: seq<T>, inner: seq<T>, star: T, z: T, fine: T -> bool, inst: T -> T, any: T -> bool,
      takes: (T, T) -> bool, covers: (T, T) -> bool)
  {
    && z != star
    && (forall c :: (c in inner || c == z) && c != star ==> fine(inst(c)) && takes(c, inst(c)))
    && (forall p, c :: p in outer && (c in inner || c == z) && p != star && c != star && takes(p, inst(c)) ==>
          covers(p, c))
    && (forall p :: p in outer && p != star && covers(p, z) ==> any(p))
  }

  lemma CompleteWithoutStar<T(!new)>(
      outer: seq<T>, inner: seq<T>, bare: bool, star: T, z: T, fine: T -> bool, inst: T -> T,
      many: T -> bool, any: T -> bool, takes: (T, T) -> bool, covers: (T, T) -> bool)
    requires forall p :: many(p) <==> p == star
    requires Separates(outer, inner, star, z, fine, inst, any, takes, covers)
    requires star !in inner && (bare || inner != [])
    requires Within(outer, inner, bare, fine, many, takes)
    ensures Splits(Spread(outer, false, star, many, any), inner, many, covers)
  {
    var word := seq(|inner|, k requires 0 <= k < |inner| => inst(inner[k]));
    Stands(inner, word, many, takes);
    SplitsTransport(outer, word, inner, many, takes, covers);
    SpreadAccepts(outer, false, star, inner, many, any, covers);
  }

  /** Containment forces covering, by induction on the number of "many" symbols of the inner pattern. */
  lemma {:induction false} Complete<T(!new)>(
      outer: seq<T>, inner: seq<T>, bare: bool, star: T, z: T, fine: T -> bool, inst: T -> T,
      many: T -> bool, any: T -> bool, takes: (T, T) -> bool, covers: (T, T) -> bool)
    requires forall p :: many(p) <==> p == star
    requires Separates(outer, inner, star, z, fine, inst, any, takes, covers)
    requires bare || exists k :: 0 <= k < |inner| && inner[k] != star
    requires Within(outer, inner, bare, fine, many, takes)
    ensures Splits(Spread(outer, false, star, many, any), inner, many, covers)
    decreases multiset(inner)[star]
  {
    if star !in inner {
      CompleteWithoutStar(outer, inner, bare, star, z, fine, inst, many, any, takes, covers);
    } else {
      var spread := Spread(outer, false, star, many, any);
      var i :| 0 <= i < |inner| && inner[i] == star;
      var left, right := inner[..i], inner[i + 1..];
      var copies := seq(|spread| + 1, _ => z);
      assert inner == left + [star] + right;
      CompletePart(outer, left, [], right, bare, star, z, fine, inst, many, any, takes, covers);
      CompletePart(outer, left, copies, right, bare, star, z, fine, inst, many, any, takes, covers);
      assert left + [] + right == left + right;
      SpreadSpaced(outer, false, star, many, any);
      SpreadSymbols(outer, false, star, many, any);
      Exchange(spread, left, copies, right, star, z, many, any, covers);
    }
  }

  lemma {:induction false} CompletePart<T(!new)>(
      outer: seq<T>, left: seq<T>, middle: seq<T>, right: seq<T>, bare: bool, star: T, z: T,
      fine: T -> bool, inst: T -> T,
      many: T -> bool, any: T -> bool, takes: (T, T) -> bool, covers: (T, T) -> bool)
    requires forall p :: many(p) <==> p == star
    requires Separates(outer, left + [star] + right, star, z, fine, inst, any, takes, covers)
    requires bare || exists k :: 0 <= k < |left + [star] + right| && (left + [star] + right)[k] != star
    requires Within(outer, left + [star] + right, bare, fine, many, takes)
    requires forall m :: m in middle ==> m == z
    ensures Splits(Spread(outer, false, star, many, any), left + middle + right, many, covers)
    decreases multiset(left + [star] + right)[star], 0
  {
    var whole, part := left + [star] + right, left + middle + right;
    WithinPart(outer, left, middle, right, star, bare, fine, many, takes);
    assert forall c :: c in part ==> c in whole || c == z;
    if !bare {
      var k :| 0 <= k < |whole| && whole[k] != star;
      var k' := if k < |left| then k else k - 1 + |middle|;
      assert part[k'] == whole[k];
    }
    assert star !in middle;
    assert multiset(part) == multiset(left) + multiset(middle) + multiset(right);
    assert multiset(whole) == multiset(left) + multiset{star} + multiset(right);
    Complete(outer, part, bare, star, z, fine, inst, many, any, takes, covers);
  }
}
