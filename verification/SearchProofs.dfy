/** What a ranking does not depend on, what it never gets wrong, and what a page of it shows. */
module SearchProofs {
  import opened Wrappers
  import opened SearchState

  // ------------------------------------------------------------------ the order of the vocabulary

  lemma {:induction false} OthersAre(x: Index, qt: Token, order: seq<Token>, v: Token)
    ensures v in Others(x, qt, order) <==> v in order && v != qt && Weight(x, qt, v) > 0.0
  {
    if order != [] {
      OthersAre(x, qt, order[..|order| - 1], v);
      assert order == order[..|order| - 1] + [order[|order| - 1]];
    }
  }

  ghost predicate SameTerms(a: seq<Token>, b: seq<Token>) { forall v :: v in a <==> v in b }

  lemma ExpandSame(x: Index, qt: Token, a: seq<Token>, b: seq<Token>)
    requires SameTerms(a, b)
    ensures SameTerms(Expand(x, qt, a), Expand(x, qt, b))
  {
    forall v ensures v in Expand(x, qt, a) <==> v in Expand(x, qt, b) {
      OthersAre(x, qt, a, v);
      OthersAre(x, qt, b, v);
    }
  }

  /** The best match is at least what each term earns, and is what one of them earns. */
  lemma {:induction false} BestIsGreatest(x: Index, qt: Token, cap: real, terms: seq<Token>, i: Tool)
    requires i < |x.docs|
    ensures Best(x, qt, cap, terms, i) >= 0.0
    ensures forall v <- terms :: Earned(x, qt, cap, v, i) <= Best(x, qt, cap, terms, i)
    ensures || Best(x, qt, cap, terms, i) == 0.0
            || exists v :: v in terms && Earned(x, qt, cap, v, i) == Best(x, qt, cap, terms, i)
  {
    if terms != [] {
      var less, v := terms[..|terms| - 1], terms[|terms| - 1];
      BestIsGreatest(x, qt, cap, less, i);
      assert terms == less + [v];
      assert forall w :: w in terms <==> w in less || w == v;
    }
  }

  lemma BestSame(x: Index, qt: Token, cap: real, a: seq<Token>, b: seq<Token>, i: Tool)
    requires i < |x.docs| && SameTerms(a, b)
    ensures Best(x, qt, cap, a, i) == Best(x, qt, cap, b, i)
  {
    BestIsGreatest(x, qt, cap, a, i);
    BestIsGreatest(x, qt, cap, b, i);
  }

  lemma MatchSame(x: Index, qt: Token, a: seq<Token>, b: seq<Token>, i: Tool)
    requires i < |x.docs| && SameTerms(a, b)
    ensures Match(x, qt, a, i) == Match(x, qt, b, i)
  {
    ExpandSame(x, qt, a, b);
    BestSame(x, qt, ExactBest(x, qt, |x.docs|), Expand(x, qt, a), Expand(x, qt, b), i);
  }

  lemma {:induction false} ScoreSame(x: Index, ts: seq<Token>, a: seq<Token>, b: seq<Token>, i: Tool)
    requires i < |x.docs| && SameTerms(a, b)
    ensures Score(x, ts, a, i) == Score(x, ts, b, i) && Covered(x, ts, a, i) == Covered(x, ts, b, i)
  {
    if ts != [] {
      ScoreSame(x, ts[..|ts| - 1], a, b, i);
      MatchSame(x, ts[|ts| - 1], a, b, i);
    }
  }

  /** A search finds the same tools in the same order, however Python walks the vocabulary. */
  lemma OrderDoesNotMatter(x: Index, q: seq<Token>, a: seq<Token>, b: seq<Token>)
    requires SameTerms(a, b)
    ensures Ranking(x, q, a) == Ranking(x, q, b)
  {
    var ts := Distinct(q);
    forall i: nat | i < |x.docs|
      ensures Score(x, ts, a, i) == Score(x, ts, b, i) && Covered(x, ts, a, i) == Covered(x, ts, b, i)
    {
      ScoreSame(x, ts, a, b, i);
    }
    assert Scores(x, ts, a) == Scores(x, ts, b);
    assert Coverage(x, ts, a) == Coverage(x, ts, b);
  }

  // ------------------------------------------------------------------ sorting

  predicate Sorted(f: seq<real>, s: seq<Tool>) {
    forall i, j :: 0 <= i < j < |s| ==> Before(f, s[i], s[j])
  }

  lemma {:induction false} InsertKeeps(f: seq<real>, s: seq<Tool>, i: Tool)
    requires Sorted(f, s) && i !in s
    ensures Sorted(f, Insert(f, s, i))
    ensures forall j :: j in Insert(f, s, i) <==> j in s || j == i
    ensures |Insert(f, s, i)| == |s| + 1
  {
    if s != [] && !Before(f, i, s[0]) {
      var rest := s[1..];
      assert forall j :: j in s <==> j in rest || j == s[0];
      InsertKeeps(f, rest, i);
      var r := Insert(f, rest, i);
      assert Before(f, s[0], i);
      forall j | 0 <= j < |r| ensures Before(f, s[0], r[j]) {
        assert r[j] in r;
        if r[j] != i { HeadFirst(f, s, r[j]); }
      }
    } else if s != [] {
      forall j | 0 <= j < |s| ensures Before(f, i, s[j]) {
        if j > 0 { assert Before(f, s[0], s[j]); }
      }
    }
  }

  lemma HeadFirst(f: seq<real>, s: seq<Tool>, j: Tool)
    requires Sorted(f, s) && s != [] && j in s[1..]
    ensures Before(f, s[0], j)
  {
    var k :| 0 <= k < |s| - 1 && s[1..][k] == j;
    assert s[k + 1] == j;
  }

  predicate NoRepeats(s: seq<Tool>) { forall i, j :: 0 <= i < j < |s| ==> s[i] != s[j] }

  lemma {:induction false} SortKeeps(f: seq<real>, s: seq<Tool>)
    requires NoRepeats(s)
    ensures Sorted(f, SortBy(f, s))
    ensures forall j :: j in SortBy(f, s) <==> j in s
    ensures |SortBy(f, s)| == |s|
  {
    if s != [] {
      var less, i := s[..|s| - 1], s[|s| - 1];
      assert s == less + [i];
      assert i !in less;
      SortKeeps(f, less);
      InsertKeeps(f, SortBy(f, less), i);
    }
  }

  lemma {:induction false} KeepKeeps(s: seq<Tool>, p: Tool -> bool)
    requires NoRepeats(s)
    ensures NoRepeats(Keep(s, p))
  {
    if s != [] {
      var less, i := s[..|s| - 1], s[|s| - 1];
      assert s == less + [i];
      KeepKeeps(less, p);
      assert i !in less;
      assert i !in Keep(less, p);
    }
  }

  /** What a ranking consists of: the tools named by the query, then the survivors, best first. */
  lemma RankShape(keys: seq<Token>, key: Token, scores: seq<real>, covered: seq<real>)
    ensures var exact, rest := Exact(keys, key), SortBy(scores, Survivors(keys, key, scores, covered));
            && Rank(keys, key, scores, covered) == exact + rest
            && NoRepeats(Rank(keys, key, scores, covered))
            && Sorted(scores, rest)
            && (forall i: Tool :: i in exact <==> i < |keys| && keys[i] != "" && keys[i] == key)
            && (forall i: Tool :: i in rest <==> i in Survivors(keys, key, scores, covered))
            && (forall i: Tool <- rest :: i < |keys| && i !in exact)
  {
    ExactIs(keys, key);
    var exact, rest := Exact(keys, key), SortBy(scores, Survivors(keys, key, scores, covered));
    SurvivorsOnce(keys, key, scores, covered);
    SortKeeps(scores, Survivors(keys, key, scores, covered));
    SortedOnce(scores, rest);
    forall i: Tool | i in rest ensures i < |keys| && i !in exact {
      SurvivorIs(keys, key, scores, covered, i);
    }
    ConcatOnce(exact, rest);
  }

  lemma ExactIs(keys: seq<Token>, key: Token)
    ensures NoRepeats(Exact(keys, key))
    ensures forall i: Tool :: i in Exact(keys, key) <==> i < |keys| && keys[i] != "" && keys[i] == key
  {
    BelowIs(|keys|);
    KeepKeeps(Below(|keys|), (i: Tool) => i < |keys| && keys[i] != "" && keys[i] == key);
  }

  lemma BelowIs(n: nat)
    ensures NoRepeats(Below(n)) && forall i: Tool :: i in Below(n) <==> i < n
  {
    forall i: Tool | i < n ensures i in Below(n) { assert Below(n)[i] == i; }
  }

  lemma SortedOnce(f: seq<real>, s: seq<Tool>)
    requires Sorted(f, s)
    ensures NoRepeats(s)
  {
    forall i, j | 0 <= i < j < |s| ensures s[i] != s[j] { assert Before(f, s[i], s[j]); }
  }

  lemma ConcatOnce(a: seq<Tool>, b: seq<Tool>)
    requires NoRepeats(a) && NoRepeats(b) && forall i <- b :: i !in a
    ensures NoRepeats(a + b)
  {
    forall i, j | 0 <= i < j < |a + b| ensures (a + b)[i] != (a + b)[j] {
      if i < |a| <= j { assert b[j - |a|] in b; }
    }
  }

  lemma SurvivorsOnce(keys: seq<Token>, key: Token, scores: seq<real>, covered: seq<real>)
    ensures NoRepeats(Survivors(keys, key, scores, covered))
  {
    var rest, near := Rest(keys, key, scores), Near(keys, key, scores);
    BelowIs(|keys|);
    KeepKeeps(Below(|keys|), (i: Tool) => At(scores, i) > 0.0 && i !in Exact(keys, key));
    KeepKeeps(rest, (i: Tool) => At(scores, i) >= RELATIVE_CUTOFF * Top(rest, scores));
    KeepKeeps(near, (i: Tool) => At(covered, i) >= MIN_COVERAGE * Top(near, covered));
  }

  lemma SurvivorIs(keys: seq<Token>, key: Token, scores: seq<real>, covered: seq<real>, i: Tool)
    ensures i in Survivors(keys, key, scores, covered) <==>
            var rest, near := Rest(keys, key, scores), Near(keys, key, scores);
            && i < |keys| && At(scores, i) > 0.0 && i !in Exact(keys, key)
            && At(scores, i) >= RELATIVE_CUTOFF * Top(rest, scores)
            && At(covered, i) >= MIN_COVERAGE * Top(near, covered)
  {
    BelowIs(|keys|);
  }
}
