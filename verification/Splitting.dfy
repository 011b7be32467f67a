/** What it means for a pattern to match a word, stated once for both levels of the glob language:
    a word matches when it can be cut into consecutive runs, one run per pattern symbol, where a
    "many" symbol absorbs any run and every other symbol takes exactly one letter it accepts. */
module Splitting {

  function Flatten<X>(runs: seq<seq<X>>): (word: seq<X>)
  {
    if runs == [] then [] else runs[0] + Flatten(runs[1..])
  }

  predicate Absorbs<P, X(==)>(pattern: seq<P>, word: seq<X>, runs: seq<seq<X>>, many: P -> bool, one: (P, X) -> bool)
  {
    && |runs| == |pattern|
    && Flatten(runs) == word
    && forall i :: 0 <= i < |pattern| && !many(pattern[i]) ==> |runs[i]| == 1 && one(pattern[i], runs[i][0])
  }

  ghost predicate Splits<P, X(!new)>(pattern: seq<P>, word: seq<X>, many: P -> bool, one: (P, X) -> bool)
  {
    exists runs :: Absorbs(pattern, word, runs, many, one)
  }

  lemma SplitsNil<P, X(!new)>(word: seq<X>, many: P -> bool, one: (P, X) -> bool)
    ensures Splits<P, X>([], word, many, one) <==> word == []
  {
    if word == [] {
      assert Absorbs<P, X>([], word, [], many, one);
    }
  }

  /** Putting a run in front of a split gives a split of the longer pattern. */
  lemma SplitsPrepend<P, X(!new)>(pattern: seq<P>, word: seq<X>, k: nat, many: P -> bool, one: (P, X) -> bool)
    requires pattern != [] && k <= |word|
    requires !many(pattern[0]) ==> k == 1 && one(pattern[0], word[0])
    requires Splits(pattern[1..], word[k..], many, one)
    ensures Splits(pattern, word, many, one)
  {
    var rest :| Absorbs(pattern[1..], word[k..], rest, many, one);
    var runs := [word[..k]] + rest;
    assert runs[1..] == rest;
    assert Flatten(runs) == word[..k] + word[k..] == word;
    forall i | 0 <= i < |pattern| && !many(pattern[i])
      ensures |runs[i]| == 1 && one(pattern[i], runs[i][0])
    {
      if i > 0 {
        assert pattern[i] == pattern[1..][i - 1];
      }
    }
    assert Absorbs(pattern, word, runs, many, one);
  }

  /** Taking the first run off a split. */
  lemma SplitsHead<P, X(!new)>(pattern: seq<P>, word: seq<X>, many: P -> bool, one: (P, X) -> bool) returns (k: nat)
    requires pattern != []
    requires Splits(pattern, word, many, one)
    ensures k <= |word| && Splits(pattern[1..], word[k..], many, one)
    ensures !many(pattern[0]) ==> k == 1 && one(pattern[0], word[0])
  {
    var runs :| Absorbs(pattern, word, runs, many, one);
    k := |runs[0]|;
    assert word == runs[0] + Flatten(runs[1..]);
    assert word[k..] == Flatten(runs[1..]);
    forall i | 0 <= i < |pattern[1..]| && !many(pattern[1..][i])
      ensures |runs[1..][i]| == 1 && one(pattern[1..][i], runs[1..][i][0])
    {
      assert pattern[1..][i] == pattern[i + 1];
    }
    assert Absorbs(pattern[1..], word[k..], runs[1..], many, one);
  }

  /** The rule by which a backtracking matcher consumes its first pattern symbol. */
  lemma SplitsCons<P, X(!new)>(pattern: seq<P>, word: seq<X>, many: P -> bool, one: (P, X) -> bool)
    requires pattern != []
    ensures Splits(pattern, word, many, one) <==>
            if many(pattern[0]) then exists k :: 0 <= k <= |word| && Splits(pattern[1..], word[k..], many, one)
            else word != [] && one(pattern[0], word[0]) && Splits(pattern[1..], word[1..], many, one)
  {
    if Splits(pattern, word, many, one) {
      var k := SplitsHead(pattern, word, many, one);
    }
    if many(pattern[0]) {
      forall k | 0 <= k <= |word| && Splits(pattern[1..], word[k..], many, one)
        ensures Splits(pattern, word, many, one)
      {
        SplitsPrepend(pattern, word, k, many, one);
      }
    } else if word != [] && one(pattern[0], word[0]) && Splits(pattern[1..], word[1..], many, one) {
      SplitsPrepend(pattern, word, 1, many, one);
    }
  }

  /** Splits of two patterns join into a split of both. */
  lemma {:induction false} SplitsConcat<P, X(!new)>(
      first: seq<P>, second: seq<P>, left: seq<X>, right: seq<X>, many: P -> bool, one: (P, X) -> bool)
    requires Splits(first, left, many, one) && Splits(second, right, many, one)
    ensures Splits(first + second, left + right, many, one)
    decreases |first|
  {
    if first == [] {
      SplitsNil(left, many, one);
      assert first + second == second && left + right == right;
    } else {
      var k := SplitsHead(first, left, many, one);
      SplitsConcat(first[1..], second, left[k..], right, many, one);
      assert (first + second)[1..] == first[1..] + second;
      assert (left + right)[k..] == left[k..] + right;
      SplitsPrepend(first + second, left + right, k, many, one);
    }
  }

  /** A split of a pattern can be cut wherever the pattern can. */
  lemma {:induction false} SplitsCut<P, X(!new)>(
      pattern: seq<P>, at: nat, word: seq<X>, many: P -> bool, one: (P, X) -> bool)
    returns (m: nat)
    requires at <= |pattern|
    requires Splits(pattern, word, many, one)
    ensures m <= |word|
    ensures Splits(pattern[..at], word[..m], many, one)
    ensures Splits(pattern[at..], word[m..], many, one)
    decreases at
  {
    if at == 0 {
      m := 0;
      assert pattern[0..] == pattern && word[0..] == word;
      SplitsNil(word[..0], many, one);
    } else {
      var k := SplitsHead(pattern, word, many, one);
      var m' := SplitsCut(pattern[1..], at - 1, word[k..], many, one);
      m := k + m';
      assert word[k..][m'..] == word[m..] && word[..m][k..] == word[k..][..m'];
      assert pattern[1..][at - 1..] == pattern[at..] && pattern[..at][1..] == pattern[1..][..at - 1];
      SplitsPrepend(pattern[..at], word[..m], k, many, one);
    }
  }

  /** A split can be cut wherever the word can: either between two symbols, or inside the run of a
      "many" symbol, which then belongs to both sides. */
  lemma {:induction false} SplitsCutWord<P, X(!new)>(
      pattern: seq<P>, word: seq<X>, at: nat, many: P -> bool, one: (P, X) -> bool)
    returns (i: nat, j: nat)
    requires at <= |word|
    requires Splits(pattern, word, many, one)
    ensures i <= j <= |pattern|
    ensures j == i || (j == i + 1 && many(pattern[i]))
    ensures Splits(pattern[..j], word[..at], many, one)
    ensures Splits(pattern[i..], word[at..], many, one)
    decreases |pattern|
  {
    if at == 0 || pattern == [] {
      i, j := 0, 0;
      SplitsNil(word, many, one);
      SplitsNil(word[..at], many, one);
      assert pattern[0..] == pattern && word[at..] == word;
    } else {
      var k := SplitsHead(pattern, word, many, one);
      if at < k {
        i, j := 0, 1;
        SplitsNil(word[..at][at..], many, one);
        assert pattern[..1][1..] == [] && word[..at][at..] == [];
        SplitsPrepend(pattern[..1], word[..at], at, many, one);
        assert word[at..][k - at..] == word[k..] && pattern[0..] == pattern;
        SplitsPrepend(pattern, word[at..], k - at, many, one);
      } else {
        i, j := SplitsCutWord(pattern[1..], word[k..], at - k, many, one);
        i, j := i + 1, j + 1;
        assert word[k..][at - k..] == word[at..] && word[..at][k..] == word[k..][..at - k];
        assert pattern[1..][i - 1..] == pattern[i..] && pattern[..j][1..] == pattern[1..][..j - 1];
        SplitsPrepend(pattern[..j], word[..at], k, many, one);
      }
    }
  }

  /** The backtracking search for a split. */
  predicate Matches<P, X>(pattern: seq<P>, word: seq<X>, many: P -> bool, one: (P, X) -> bool)
    decreases |pattern|
  {
    if pattern == [] then word == []
    else if many(pattern[0]) then
      var rest := pattern[1..];
      exists k :: 0 <= k <= |word| && Matches(rest, word[k..], many, one)
    else word != [] && one(pattern[0], word[0]) && Matches(pattern[1..], word[1..], many, one)
  }

  lemma {:induction false} MatchesMeaning<P, X(!new)>(
      pattern: seq<P>, word: seq<X>, many: P -> bool, one: (P, X) -> bool)
    ensures Matches(pattern, word, many, one) <==> Splits(pattern, word, many, one)
    decreases |pattern|
  {
    if pattern == [] {
      SplitsNil(word, many, one);
    } else {
      SplitsCons(pattern, word, many, one);
      forall k | 0 <= k <= |word|
        ensures Matches(pattern[1..], word[k..], many, one) <==> Splits(pattern[1..], word[k..], many, one)
      {
        MatchesMeaning(pattern[1..], word[k..], many, one);
      }
    }
  }

  /** Splits compose: if `outer` splits the text of `inner` so that every one-letter symbol of
      `outer` lands on a one-letter symbol of `inner` it subsumes, then `outer` matches every word
      that `inner` matches. */
  lemma {:induction false} SplitsCompose<P, C(!new), X(!new)>(
    outer: seq<P>, inner: seq<C>, word: seq<X>,
    many: P -> bool, lands: (P, C) -> bool, one: (P, X) -> bool,
    innerMany: C -> bool, innerOne: (C, X) -> bool)
    requires Splits(outer, inner, many, lands)
    requires Splits(inner, word, innerMany, innerOne)
    requires forall p, c :: p in outer && c in inner && !many(p) && lands(p, c) ==>
               !innerMany(c) && forall x :: innerOne(c, x) ==> one(p, x)
    ensures Splits(outer, word, many, one)
    decreases |outer|
  {
    if outer == [] {
      SplitsNil(inner, many, lands);
      SplitsNil(word, innerMany, innerOne);
      SplitsNil(word, many, one);
    } else {
      var k := SplitsHead(outer, inner, many, lands);
      var m := SplitsCut(inner, k, word, innerMany, innerOne);
      if !many(outer[0]) {
        assert outer[0] in outer && inner[0] in inner;
        m := SplitsHead(inner, word, innerMany, innerOne);
      }
      SplitsCompose(outer[1..], inner[k..], word[m..], many, lands, one, innerMany, innerOne);
      SplitsPrepend(outer, word, m, many, one);
    }
  }

  /** A split survives replacing the letters of the word, as long as no symbol objects. */
  lemma {:induction false} SplitsTransport<P, X(!new), Y(!new)>(
    pattern: seq<P>, word: seq<X>, other: seq<Y>, many: P -> bool, one: (P, X) -> bool, otherOne: (P, Y) -> bool)
    requires |word| == |other|
    requires Splits(pattern, word, many, one)
    requires forall p, j :: p in pattern && 0 <= j < |word| && !many(p) && one(p, word[j]) ==> otherOne(p, other[j])
    ensures Splits(pattern, other, many, otherOne)
    decreases |pattern|
  {
    if pattern == [] {
      SplitsNil(word, many, one);
      SplitsNil(other, many, otherOne);
    } else {
      var k := SplitsHead(pattern, word, many, one);
      if !many(pattern[0]) {
        assert pattern[0] in pattern && otherOne(pattern[0], other[0]);
      }
      forall p, j | p in pattern[1..] && 0 <= j < |word[k..]| && !many(p) && one(p, word[k..][j])
        ensures otherOne(p, other[k..][j])
      {
        assert word[k..][j] == word[k + j] && other[k..][j] == other[k + j];
        assert p in pattern;
      }
      SplitsTransport(pattern[1..], word[k..], other[k..], many, one, otherOne);
      SplitsPrepend(pattern, other, k, many, otherOne);
    }
  }
}
