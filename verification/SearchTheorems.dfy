/** What a caller of search_tools can rely on. */
module SearchTheorems {
  import opened Wrappers
  import opened SearchState
  import opened SearchProofs

  // ------------------------------------------------------------------ something is found

  /** The tool with the best score survives both cutoffs, or one with its coverage does. */
  lemma SomethingSurvives(keys: seq<Token>, key: Token, scores: seq<real>, covered: seq<real>)
    requires forall i: Tool :: At(covered, i) >= 0.0
    ensures Rest(keys, key, scores) != [] ==> Survivors(keys, key, scores, covered) != []
  {
    var rest, near := Rest(keys, key, scores), Near(keys, key, scores);
    if rest != [] {
      var b: Tool :| b in rest && At(scores, b) == Top(rest, scores);
      assert b in near;
      var c: Tool :| c in near && At(covered, c) == Top(near, covered);
      assert c in Survivors(keys, key, scores, covered);
    }
  }

  predicate Counts(keys: seq<Token>, key: Token, scores: seq<real>, i: Tool) {
    i < |keys| && (At(scores, i) > 0.0 || (keys[i] != "" && keys[i] == key))
  }

  lemma RestMeansFound(keys: seq<Token>, key: Token, scores: seq<real>, covered: seq<real>, i: Tool)
    requires forall i: Tool :: At(covered, i) >= 0.0
    requires Counts(keys, key, scores, i)
    ensures Rank(keys, key, scores, covered) != []
  {
    BelowIs(|keys|);
    if i !in Exact(keys, key) {
      assert i in Rest(keys, key, scores);
      SomethingSurvives(keys, key, scores, covered);
      FirstOf(Survivors(keys, key, scores, covered));
      RankShape(keys, key, scores, covered);
    }
  }

  lemma RankFound(keys: seq<Token>, key: Token, scores: seq<real>, covered: seq<real>)
    requires forall i: Tool :: At(covered, i) >= 0.0
    ensures Rank(keys, key, scores, covered) != [] <==>
            exists i: Tool :: Counts(keys, key, scores, i)
  {
    var r := Rank(keys, key, scores, covered);
    if r != [] {
      RankShape(keys, key, scores, covered);
      var i := r[0];
      assert i in r;
      SurvivorIs(keys, key, scores, covered, i);
      assert Counts(keys, key, scores, i);
    }
    forall i: Tool | Counts(keys, key, scores, i) ensures r != [] {
      RestMeansFound(keys, key, scores, covered, i);
    }
  }

  /** A query token matches an index term: the same word, one the beginning of the other, or near
      enough in spelling, the words being long enough for that. */
  predicate Alike(x: Index, t: Token, v: Token) { t == v || Begins(t, v) || NearInSpelling(x, t, v) }

  predicate Begins(t: Token, v: Token) { |t| >= 4 && |v| >= 4 && (t <= v || v <= t) }

  predicate NearInSpelling(x: Index, t: Token, v: Token) { |t| >= 5 && |v| >= 5 && x.ratio(t, v) >= 85.0 }

  /** What a tool earns for a query token by one of its terms: the term's score and 0.1 for the same
      word; six or four tenths of that for the others, capped by `cap` if there is one. */
  lemma EarnsExactly(x: Index, t: Token, cap: real, v: Token, i: Tool)
    requires i < |x.docs| && v in x.docs[i]
    ensures var raw := 0.1 + if x.bm25(v, i) > 0.0 then x.bm25(v, i) else 0.0;
            var capped := if cap != 0.0 && cap < raw then cap else raw;
            Earned(x, t, cap, v, i) ==
              if t == v then raw
              else if Begins(t, v) then 0.6 * capped
              else if NearInSpelling(x, t, v) then 0.4 * capped
              else 0.0
  {
    var raw := Raw(x, v, i);
    var capped := if cap != 0.0 then Min(raw, cap) else raw;
    var weight := Weight(x, t, v);
    if t != v {
      assert Earned(x, t, cap, v, i) == weight * capped;
      if Begins(t, v) {
        assert weight == 0.6;
      } else if NearInSpelling(x, t, v) {
        assert weight == 0.4;
      } else {
        assert weight == 0.0;
      }
    }
  }

  /** `order` walks the vocabulary. */
  ghost predicate Walks(order: seq<Token>, x: Index) { forall v :: v in order <==> v in Union(x.docs) }

  predicate Named(x: Index, q: seq<Token>, i: Tool) {
    i < |x.keys| && x.keys[i] != "" && x.keys[i] == Join(q)
  }

  ghost predicate Matched(x: Index, t: Token, i: Tool) {
    i < |x.docs| && exists v :: v in x.docs[i] && Alike(x, t, v)
  }

  lemma MatchedExactly(x: Index, t: Token, order: seq<Token>, i: Tool)
    requires i < |x.docs| && Walks(order, x)
    ensures Match(x, t, order, i) >= 0.0
    ensures Match(x, t, order, i) > 0.0 <==> Matched(x, t, i)
  {
    var cap, terms := ExactBest(x, t, |x.docs|), Expand(x, t, order);
    ExactBestIsGreatest(x, t, |x.docs|);
    BestIsGreatest(x, t, cap, terms, i);
    forall v ensures v in terms <==> v in Union(x.docs) && Alike(x, t, v) {
      OthersAre(x, t, order, v);
    }
    forall v | v in x.docs[i] && Alike(x, t, v) ensures v in terms && Earned(x, t, cap, v, i) > 0.0 {
      EarnsSomething(x, t, cap, v, i);
    }
  }

  lemma EarnsSomething(x: Index, t: Token, cap: real, v: Token, i: Tool)
    requires i < |x.docs| && v in x.docs[i] && Alike(x, t, v) && cap >= 0.0
    ensures Earned(x, t, cap, v, i) > 0.0
  {
    var raw := if v == t || cap == 0.0 then Raw(x, v, i) else Min(Raw(x, v, i), cap);
    assert raw > 0.0 && Weight(x, t, v) >= FUZZY;
    Product(FUZZY, Weight(x, t, v), raw, raw);
  }

  // ------------------------------------------------------------------ what a query adds up to

  /** A score is the sum of what each token of the query earns, and the coverage counts those that
      earn anything. */
  lemma {:induction false} ScoreAdds(x: Index, a: seq<Token>, b: seq<Token>, order: seq<Token>, i: Tool)
    requires i < |x.docs|
    ensures Score(x, a + b, order, i) == Score(x, a, order, i) + Score(x, b, order, i)
    ensures Covered(x, a + b, order, i) == Covered(x, a, order, i) + Covered(x, b, order, i)
  {
    if b == [] {
      assert a + b == a;
    } else {
      ScoreAdds(x, a, b[..|b| - 1], order, i);
      assert (a + b)[..|a + b| - 1] == a + b[..|b| - 1];
    }
  }

  lemma ScoreOfOne(x: Index, t: Token, order: seq<Token>, i: Tool)
    requires i < |x.docs|
    ensures Score(x, [], order, i) == 0.0 && Covered(x, [], order, i) == 0
    ensures Score(x, [t], order, i) == Match(x, t, order, i)
    ensures Covered(x, [t], order, i) == if Match(x, t, order, i) > 0.0 then 1 else 0
  {
    assert [t][..0] == [];
  }

  /** A query names the tool whose name it spells without the separators. */
  lemma {:induction false} JoinAdds(a: seq<Token>, b: seq<Token>, t: Token)
    ensures Join(a + b) == Join(a) + Join(b) && Join([t]) == t
  {
    assert [t][..0] == [];
    assert Join([]) == "";
    if b == [] {
      assert a + b == a;
    } else {
      JoinAdds(a, b[..|b| - 1], t);
      assert (a + b)[..|a + b| - 1] == a + b[..|b| - 1];
    }
  }

  /** Each token counts once, however often it is asked for. */
  lemma {:induction false} DistinctOnce(q: seq<Token>)
    ensures forall m, n :: 0 <= m < n < |Distinct(q)| ==> Distinct(q)[m] != Distinct(q)[n]
  {
    if q != [] {
      DistinctOnce(q[..|q| - 1]);
    }
  }

  lemma {:induction false} ScoresExactly(x: Index, ts: seq<Token>, order: seq<Token>, i: Tool)
    requires i < |x.docs| && Walks(order, x)
    ensures Score(x, ts, order, i) >= 0.0
    ensures Score(x, ts, order, i) > 0.0 <==> exists t :: t in ts && Matched(x, t, i)
  {
    if ts != [] {
      var less, t := ts[..|ts| - 1], ts[|ts| - 1];
      ScoresExactly(x, less, order, i);
      MatchedExactly(x, t, order, i);
      ScoreAdds(x, less, [t], order, i);
      ScoreOfOne(x, t, order, i);
      assert ts == less + [t];
    }
  }

  /** A tool the query names, or one of whose terms some token of the query matches. */
  ghost predicate Finds(x: Index, q: seq<Token>, i: Tool) {
    Named(x, q, i) || exists t :: t in q && Matched(x, t, i)
  }

  /** A search finds something exactly when the query names a tool or some token of it matches a
      term of one, in spite of both cutoffs. */
  lemma FoundExactly(x: Index, q: seq<Token>, order: seq<Token>)
    requires Shaped(x) && Walks(order, x)
    ensures Ranking(x, q, order) != [] <==>
            q != [] && exists i: Tool :: Finds(x, q, i)
  {
    if q != [] {
      var ts := Distinct(q);
      var scores := Scores(x, ts, order);
      RankFound(x.keys, Join(q), scores, Coverage(x, ts, order));
      forall i: Tool ensures Finds(x, q, i) <==> Counts(x.keys, Join(q), scores, i) {
        if i < |x.docs| {
          ScoresExactly(x, ts, order, i);
          assert At(scores, i) == Score(x, ts, order, i);
        }
      }
    }
  }

  // ------------------------------------------------------------------ who is found, in which order

  /** An unnamed tool that scores, and not too far under any other. */
  predicate Close(x: Index, q: seq<Token>, order: seq<Token>, i: Tool) {
    && i < |x.docs| && !Named(x, q, i) && Score(x, Distinct(q), order, i) > 0.0
    && (forall j: Tool :: j < |x.docs| && !Named(x, q, j) ==>
          Score(x, Distinct(q), order, i) >= 0.35 * Score(x, Distinct(q), order, j))
  }

  /** ... and it matches enough of the query, compared with any other close one. */
  ghost predicate CoversEnough(x: Index, q: seq<Token>, order: seq<Token>, i: Tool)
    requires i < |x.docs|
  {
    forall j: Tool :: Close(x, q, order, j) ==>
      Covered(x, Distinct(q), order, i) as real >= 0.6 * Covered(x, Distinct(q), order, j) as real
  }

  lemma AtLeastAll(s: seq<Tool>, f: seq<real>, c: real, v: real)
    requires s != [] && c >= 0.0
    ensures v >= c * Top(s, f) <==> forall j: Tool <- s :: v >= c * At(f, j)
  {
    var t := TopOne(s, f);
    forall j: Tool | j in s ensures c * At(f, j) <= c * Top(s, f) {
      Scaled(At(f, j), Top(s, f), c);
    }
  }

  lemma {:induction false} TopOne(s: seq<Tool>, f: seq<real>) returns (t: Tool)
    requires s != []
    ensures t in s && At(f, t) == Top(s, f)
  {
    t := s[|s| - 1];
    if |s| > 1 {
      var u := TopOne(s[..|s| - 1], f);
      t := if At(f, u) >= At(f, t) then u else t;
    }
  }

  lemma Scaled(a: real, b: real, c: real)
    requires a <= b && c >= 0.0
    ensures c * a <= c * b
  {}

  lemma InRest(x: Index, q: seq<Token>, order: seq<Token>, j: Tool)
    requires Shaped(x)
    ensures j in Rest(x.keys, Join(q), Scores(x, Distinct(q), order)) <==>
            j < |x.docs| && !Named(x, q, j) && Score(x, Distinct(q), order, j) > 0.0
  {
    BelowIs(|x.keys|);
    ExactIs(x.keys, Join(q));
    assert j < |x.docs| ==> At(Scores(x, Distinct(q), order), j) == Score(x, Distinct(q), order, j);
  }

  lemma InNear(keys: seq<Token>, key: Token, scores: seq<real>, i: Tool)
    ensures var rest := Rest(keys, key, scores);
      i in Near(keys, key, scores) <==>
        i in rest && forall j: Tool <- rest :: At(scores, i) >= RELATIVE_CUTOFF * At(scores, j)
  {
    var rest := Rest(keys, key, scores);
    if rest != [] { AtLeastAll(rest, scores, RELATIVE_CUTOFF, At(scores, i)); }
  }

  lemma InSurvivors(keys: seq<Token>, key: Token, scores: seq<real>, covered: seq<real>, i: Tool)
    ensures var near := Near(keys, key, scores);
      i in Survivors(keys, key, scores, covered) <==>
        i in near && forall j: Tool <- near :: At(covered, i) >= MIN_COVERAGE * At(covered, j)
  {
    var near := Near(keys, key, scores);
    if near != [] { AtLeastAll(near, covered, MIN_COVERAGE, At(covered, i)); }
  }

  lemma CloseIsNear(x: Index, q: seq<Token>, order: seq<Token>, i: Tool)
    requires Shaped(x)
    ensures Close(x, q, order, i) <==> i in Near(x.keys, Join(q), Scores(x, Distinct(q), order))
  {
    var scores := Scores(x, Distinct(q), order);
    InNear(x.keys, Join(q), scores, i);
    forall j: Tool ensures j in Rest(x.keys, Join(q), scores) <==>
                           j < |x.docs| && !Named(x, q, j) && Score(x, Distinct(q), order, j) > 0.0
    {
      InRest(x, q, order, j);
    }
    assert forall j: Tool :: j < |x.docs| ==> At(scores, j) == Score(x, Distinct(q), order, j);
  }

  lemma CoversIsSurviving(x: Index, q: seq<Token>, order: seq<Token>, i: Tool)
    requires Shaped(x)
    ensures Close(x, q, order, i) && CoversEnough(x, q, order, i) <==>
            i in Survivors(x.keys, Join(q), Scores(x, Distinct(q), order), Coverage(x, Distinct(q), order))
  {
    var scores, covered := Scores(x, Distinct(q), order), Coverage(x, Distinct(q), order);
    var near := Near(x.keys, Join(q), scores);
    InSurvivors(x.keys, Join(q), scores, covered, i);
    CloseIsNear(x, q, order, i);
    if i in near {
      forall j: Tool ensures Close(x, q, order, j) <==> j in near { CloseIsNear(x, q, order, j); }
      CoversOfNear(x, q, order, near, covered, i);
    }
  }

  lemma CoversOfNear(x: Index, q: seq<Token>, order: seq<Token>, near: seq<Tool>, covered: seq<real>, i: Tool)
    requires i < |x.docs| && covered == Coverage(x, Distinct(q), order)
    requires forall j: Tool :: Close(x, q, order, j) <==> j in near
    ensures CoversEnough(x, q, order, i) <==>
            forall j: Tool <- near :: At(covered, i) >= MIN_COVERAGE * At(covered, j)
  {
    forall j: Tool | j in near ensures j < |x.docs| && At(covered, j) == Covered(x, Distinct(q), order, j) as real {
      assert Close(x, q, order, j);
    }
    assert At(covered, i) == Covered(x, Distinct(q), order, i) as real;
  }

  /** r[m] stands before r[n] with good reason. */
  predicate Precedes(x: Index, q: seq<Token>, order: seq<Token>, i: Tool, j: Tool) {
    && i != j && i < |x.docs| && j < |x.docs|
    && (Named(x, q, j) ==> Named(x, q, i))
    && (!Named(x, q, i) ==>
          var a, b := Score(x, Distinct(q), order, i), Score(x, Distinct(q), order, j);
          a > b || (a == b && i < j))
  }

  lemma RankOrder(x: Index, q: seq<Token>, order: seq<Token>, exact: seq<Tool>, rest: seq<Tool>, m: nat, n: nat)
    requires Shaped(x) && NoRepeats(exact + rest) && Sorted(Scores(x, Distinct(q), order), rest)
    requires forall i: Tool :: i in exact <==> Named(x, q, i)
    requires forall i: Tool <- rest :: i < |x.keys|
    requires m < n < |exact + rest|
    ensures Precedes(x, q, order, (exact + rest)[m], (exact + rest)[n])
  {
    var r, scores := exact + rest, Scores(x, Distinct(q), order);
    if n < |exact| {
      assert r[m] == exact[m] && r[n] == exact[n];
      assert exact[m] in exact && exact[n] in exact;
    } else {
      assert r[n] == rest[n - |exact|] && rest[n - |exact|] in rest;
      if m < |exact| {
        assert r[m] == exact[m] && exact[m] in exact;
      } else {
        assert r[m] == rest[m - |exact|] && rest[m - |exact|] in rest;
        assert Before(scores, rest[m - |exact|], rest[n - |exact|]);
        if Named(x, q, r[n]) { InBoth(exact, rest, r[n], n); }
      }
    }
  }

  lemma InBoth(a: seq<Tool>, b: seq<Tool>, i: Tool, n: nat)
    requires NoRepeats(a + b) && |a| <= n < |a + b| && (a + b)[n] == i
    ensures i !in a
  {
    forall k | 0 <= k < |a| ensures a[k] != (a + b)[n] {
      assert (a + b)[k] == a[k];
    }
  }

  /** Exactly the tools the query names are found, and those close to the best score that match
      enough of the query; the named ones first, the others by falling score. */
  lemma RankedExactly(x: Index, q: seq<Token>, order: seq<Token>)
    requires Shaped(x) && q != []
    ensures var r := Ranking(x, q, order);
      && (forall i: Tool :: i in r <==> Named(x, q, i) || (Close(x, q, order, i) && CoversEnough(x, q, order, i)))
      && (forall m, n :: 0 <= m < n < |r| ==> Precedes(x, q, order, r[m], r[n]))
  {
    var keys, key, ts := x.keys, Join(q), Distinct(q);
    var scores, covered := Scores(x, ts, order), Coverage(x, ts, order);
    RankShape(keys, key, scores, covered);
    forall i: Tool ensures i in Ranking(x, q, order) <==>
                           Named(x, q, i) || (Close(x, q, order, i) && CoversEnough(x, q, order, i))
    {
      CoversIsSurviving(x, q, order, i);
    }
    var exact, rest := Exact(keys, key), SortBy(scores, Survivors(keys, key, scores, covered));
    forall m, n | 0 <= m < n < |exact + rest| ensures Precedes(x, q, order, (exact + rest)[m], (exact + rest)[n]) {
      RankOrder(x, q, order, exact, rest, m, n);
    }
  }

  lemma FirstOf(s: seq<Tool>)
    ensures s == [] || exists i: Tool :: i in s
  {
    if s != [] { var i := s[0]; assert i in s; }
  }

  // ------------------------------------------------------------------ a typo never beats the word

  /** `add` puts a name's own key among its document's tokens. */
  predicate Built(x: Index) {
    Shaped(x) && forall i :: 0 <= i < |x.docs| ==> x.keys[i] == "" || x.keys[i] in x.docs[i]
  }

  lemma {:induction false} ExactBestIsGreatest(x: Index, qt: Token, n: nat)
    requires n <= |x.docs|
    ensures forall i: Tool :: i < n && qt in x.docs[i] ==> Raw(x, qt, i) <= ExactBest(x, qt, n)
    ensures || ExactBest(x, qt, n) == 0.0
            || exists i: Tool :: i < n && qt in x.docs[i] && Raw(x, qt, i) == ExactBest(x, qt, n)
    ensures ExactBest(x, qt, n) >= 0.0
  {
    if n > 0 { ExactBestIsGreatest(x, qt, n - 1); }
  }

  lemma EarnedBounds(x: Index, qt: Token, cap: real, v: Token, i: Tool)
    requires i < |x.docs| && cap > 0.0
    requires qt in x.docs[i] ==> Raw(x, qt, i) <= cap
    ensures Earned(x, qt, cap, v, i) <= cap
    ensures v != qt || v !in x.docs[i] ==> Earned(x, qt, cap, v, i) <= PREFIX * cap
    ensures v == qt && v in x.docs[i] ==> Earned(x, qt, cap, v, i) == Raw(x, qt, i)
  {
    if v != qt {
      Product(Weight(x, qt, v), PREFIX, Min(Raw(x, v, i), cap), cap);
    }
  }

  lemma Product(a: real, b: real, c: real, d: real)
    requires 0.0 <= a <= b && 0.0 <= c <= d
    ensures a * c <= b * d
  {}

  /** Bounds on what each term earns are bounds on the best of it. */
  lemma BestBounds(x: Index, qt: Token, cap: real, terms: seq<Token>, i: Tool)
    requires i < |x.docs| && cap > 0.0 && qt in terms
    requires qt in x.docs[i] ==> Raw(x, qt, i) <= cap
    ensures Best(x, qt, cap, terms, i) <= cap
    ensures qt !in x.docs[i] ==> Best(x, qt, cap, terms, i) <= PREFIX * cap
    ensures qt in x.docs[i] ==> Best(x, qt, cap, terms, i) >= Raw(x, qt, i)
  {
    BestIsGreatest(x, qt, cap, terms, i);
    EarnedBounds(x, qt, cap, qt, i);
    forall v ensures Earned(x, qt, cap, v, i) <= cap
             ensures qt !in x.docs[i] ==> Earned(x, qt, cap, v, i) <= PREFIX * cap
    {
      EarnedBounds(x, qt, cap, v, i);
    }
  }

  /** An expansion earns at most PREFIX of the best exact match; a tool that holds the query token
      earns at least its raw score. */
  lemma MatchBounds(x: Index, qt: Token, order: seq<Token>, i: Tool)
    requires i < |x.docs| && qt in Union(x.docs)
    ensures var cap := ExactBest(x, qt, |x.docs|);
            && cap > 0.0
            && Match(x, qt, order, i) <= cap
            && (qt !in x.docs[i] ==> Match(x, qt, order, i) <= PREFIX * cap)
            && (qt in x.docs[i] ==> Match(x, qt, order, i) >= Raw(x, qt, i))
  {
    ExactBestIsGreatest(x, qt, |x.docs|);
    var d: nat :| d < |x.docs| && qt in x.docs[d];
    assert ExactBest(x, qt, |x.docs|) >= Raw(x, qt, d);
    ExactFirst(x, qt, order);
    BestBounds(x, qt, ExactBest(x, qt, |x.docs|), Expand(x, qt, order), i);
  }

  lemma ExactFirst(x: Index, qt: Token, order: seq<Token>)
    requires qt in Union(x.docs)
    ensures qt in Expand(x, qt, order)
  {
    assert Expand(x, qt, order)[0] == qt;
  }

  predicate Weaker(keys: seq<Token>, key: Token, scores: seq<real>, i: Tool, b: Tool) {
    i !in Exact(keys, key) && At(scores, i) < At(scores, b)
  }

  /** Whatever scores best, and covers no less than the rest, leads all that score less and are not
      named by the query. */
  lemma BestLeads(keys: seq<Token>, key: Token, scores: seq<real>, covered: seq<real>, b: Tool)
    requires b < |keys| && At(scores, b) > 0.0
    requires forall i: Tool :: i < |keys| ==> At(scores, i) <= At(scores, b)
    requires forall i: Tool :: i < |keys| ==> 0.0 <= At(covered, i) <= At(covered, b)
    ensures var r := Rank(keys, key, scores, covered);
            && b in r
            && (forall m, n :: 0 <= m < |r| && 0 <= n < |r| ==>
                  (r[m] == b && Weaker(keys, key, scores, r[n], b) ==> m < n))
  {
    RankShape(keys, key, scores, covered);
    BestSurvives(keys, key, scores, covered, b);
    var exact, rest := Exact(keys, key), SortBy(scores, Survivors(keys, key, scores, covered));
    var r := Rank(keys, key, scores, covered);
    forall m: nat, n: nat | m < |r| && n < |r| && r[m] == b && Weaker(keys, key, scores, r[n], b) ensures m < n {
      InPrefix(exact, rest, n);
      RestOrder(scores, exact, rest, n, m);
    }
  }

  lemma InPrefix(a: seq<Tool>, b: seq<Tool>, n: nat)
    requires n < |a + b|
    ensures n < |a| ==> (a + b)[n] in a
  {
    if n < |a| { assert (a + b)[n] == a[n]; }
  }

  lemma RestOrder(f: seq<real>, a: seq<Tool>, b: seq<Tool>, n: nat, m: nat)
    requires Sorted(f, b) && n < |a + b| && m < |a + b|
    ensures |a| <= n < m ==> Before(f, (a + b)[n], (a + b)[m])
  {
    if |a| <= n < m { assert Before(f, b[n - |a|], b[m - |a|]); }
  }

  /** For a query of one token that the vocabulary has: a tool that holds it and scores best is
      found, and stands before every tool found only through a prefix or a near spelling. */
  lemma TyposNeverLead(x: Index, qt: Token, order: seq<Token>, b: Tool)
    requires Built(x) && qt != "" && qt in Union(x.docs)
    requires b < |x.docs| && qt in x.docs[b] && Raw(x, qt, b) == ExactBest(x, qt, |x.docs|)
    ensures var r := Ranking(x, [qt], order);
            && b in r
            && (forall m, n :: 0 <= m < |r| && 0 <= n < |r| ==>
                  (r[m] == b && r[n] < |x.docs| && qt !in x.docs[r[n]] ==> m < n))
  {
    OneToken(x, qt, order);
    var scores, covered := Scores(x, [qt], order), Coverage(x, [qt], order);
    MatchBounds(x, qt, order, b);
    forall i: Tool | i < |x.docs|
      ensures At(scores, i) <= At(scores, b) && (qt !in x.docs[i] ==> At(scores, i) < At(scores, b))
      ensures 0.0 <= At(covered, i) <= At(covered, b)
      ensures qt !in x.docs[i] ==> i !in Exact(x.keys, qt)
    {
      MatchBounds(x, qt, order, i);
      ExactIs(x.keys, qt);
    }
    BestLeads(x.keys, qt, scores, covered, b);
    var r := Ranking(x, [qt], order);
    forall m, n | 0 <= m < |r| && 0 <= n < |r| && r[m] == b && r[n] < |x.docs| && qt !in x.docs[r[n]] ensures m < n {
      assert Weaker(x.keys, qt, scores, r[n], b);
    }
  }

  /** One token: the score is its match, the coverage 1 where it matches. */
  lemma OneToken(x: Index, qt: Token, order: seq<Token>)
    requires Built(x) && qt != "" && qt in Union(x.docs)
    ensures Distinct([qt]) == [qt] && Join([qt]) == qt
    ensures forall i: Tool :: i < |x.docs| ==>
              && At(Scores(x, [qt], order), i) == Match(x, qt, order, i)
              && At(Coverage(x, [qt], order), i) == (if Match(x, qt, order, i) > 0.0 then 1.0 else 0.0)
  {
    assert [qt][..0] == [];
    assert Distinct([]) == [];
    assert Join([]) == "";
    forall i: Tool | i < |x.docs|
      ensures Score(x, [qt], order, i) == Match(x, qt, order, i)
      ensures Covered(x, [qt], order, i) == if Match(x, qt, order, i) > 0.0 then 1 else 0
    {
      assert Score(x, [], order, i) == 0.0;
    }
  }

  /** What scores best of all, and covers at most as much as it, is always found. */
  lemma BestSurvives(keys: seq<Token>, key: Token, scores: seq<real>, covered: seq<real>, b: Tool)
    requires b < |keys| && At(scores, b) > 0.0
    requires forall i: Tool :: i < |keys| ==> At(scores, i) <= At(scores, b)
    requires forall i: Tool :: i < |keys| ==> 0.0 <= At(covered, i) <= At(covered, b)
    ensures b in Exact(keys, key) || b in Survivors(keys, key, scores, covered)
  {
    if b !in Exact(keys, key) {
      BelowIs(|keys|);
      var rest, near := Rest(keys, key, scores), Near(keys, key, scores);
      assert b in rest;
      var t: Tool :| t in rest && At(scores, t) == Top(rest, scores);
      assert b in near;
      var c: Tool :| c in near && At(covered, c) == Top(near, covered);
    }
  }

  // ------------------------------------------------------------------ a page

  function NamesOf(x: Index, r: seq<Tool>): (ns: seq<string>)
    ensures |ns| == |r|
    ensures forall i :: 0 <= i < |r| ==> ns[i] == if r[i] < |x.names| then x.names[r[i]] else ""
  {
    seq(|r|, i requires 0 <= i < |r| => if r[i] < |x.names| then x.names[r[i]] else "")
  }

  /** ToolIndex.search, given its ranking: the names, cut. */
  function Found(x: Index, r: seq<Tool>, limit: int): seq<string> { NamesOf(x, Slice(r, limit)) }

  function Visible(names: seq<string>, hidden: set<string>): seq<string> {
    if names == [] then []
    else Visible(names[..|names| - 1], hidden) + if names[|names| - 1] in hidden then [] else [names[|names| - 1]]
  }

  /** search_tools: a clamped limit, an over-fetch by the number of gated tools, a filter, a cut.
      `gated` are the tools with required roles; the caller is not shown `hidden`. */
  function Page(x: Index, q: seq<Token>, order: seq<Token>, limit: int, gated: set<string>,
                hidden: set<string>): seq<string>
    requires Shaped(x)
  {
    Cut(x, Ranking(x, q, order), Clamped(limit), |gated|, hidden)
  }

  function Clamped(limit: int): nat { if limit < 0 then 0 else limit }

  /** The page of a ranking. */
  function Cut(x: Index, r: seq<Tool>, n: nat, extra: nat, hidden: set<string>): seq<string> {
    Slice(Visible(Found(x, r, n + extra), hidden), n)
  }

  predicate Once(names: seq<string>) { forall i, j :: 0 <= i < j < |names| ==> names[i] != names[j] }

  lemma {:induction false} VisibleConcat(a: seq<string>, b: seq<string>, hidden: set<string>)
    ensures Visible(a + b, hidden) == Visible(a, hidden) + Visible(b, hidden)
  {
    if b == [] {
      assert a + b == a;
    } else {
      VisibleConcat(a, b[..|b| - 1], hidden);
      assert (a + b)[..|a + b| - 1] == a + b[..|b| - 1];
    }
  }

  /** At most as many entries are hidden as there are hidden names. */
  lemma {:induction false} FewHidden(names: seq<string>, hidden: set<string>)
    requires Once(names)
    ensures |names| - |Visible(names, hidden)| <= |hidden|
  {
    if names != [] {
      var less, n := names[..|names| - 1], names[|names| - 1];
      if n in hidden {
        VisibleWithout(less, hidden, n);
        FewHidden(less, hidden - {n});
      } else {
        FewHidden(less, hidden);
      }
    }
  }

  lemma {:induction false} VisibleWithout(names: seq<string>, hidden: set<string>, n: string)
    requires n !in names
    ensures Visible(names, hidden - {n}) == Visible(names, hidden)
  {
    if names != [] {
      VisibleWithout(names[..|names| - 1], hidden, n);
      var last := names[|names| - 1];
      assert last in names;
    }
  }

  /** Fetching `extra` more than asked, filtering and cutting loses nothing, when no more than
      `extra` of what was fetched is hidden. */
  lemma OverFetch(all: seq<string>, hidden: set<string>, n: nat, extra: nat)
    requires |Slice(all, n + extra)| - |Visible(Slice(all, n + extra), hidden)| <= extra
    ensures Slice(Visible(Slice(all, n + extra), hidden), n) == Slice(Visible(all, hidden), n)
  {
    var a, b := Slice(all, n + extra), all[|Slice(all, n + extra)|..];
    assert all == a + b;
    VisibleConcat(a, b, hidden);
    if |a| < |all| {
      assert |Visible(a, hidden)| >= n;
      assert (Visible(a, hidden) + Visible(b, hidden))[..n] == Visible(a, hidden)[..n];
    } else {
      assert b == [];
    }
  }

  lemma SliceNames(x: Index, r: seq<Tool>, n: nat)
    ensures NamesOf(x, Slice(r, n)) == Slice(NamesOf(x, r), n)
  {}

  lemma SliceOnce(names: seq<string>, n: nat)
    requires Once(names)
    ensures Once(Slice(names, n))
  {}

  /** The ranking names each tool once. */
  lemma RankingOnce(x: Index, q: seq<Token>, order: seq<Token>)
    requires Shaped(x) && Once(x.names)
    ensures Once(NamesOf(x, Ranking(x, q, order)))
    ensures forall i <- Ranking(x, q, order) :: i < |x.names|
  {
    if q != [] {
      var key, scores, covered := Join(q), Scores(x, Distinct(q), order), Coverage(x, Distinct(q), order);
      RankShape(x.keys, key, scores, covered);
      var r := Ranking(x, q, order);
      forall i, j | 0 <= i < j < |r| ensures NamesOf(x, r)[i] != NamesOf(x, r)[j] {
        var a, b := r[i], r[j];
        assert a in r && b in r;
        assert a < |x.names| && b < |x.names|;
      }
    }
  }

  lemma CutIsComplete(x: Index, r: seq<Tool>, n: nat, gated: set<string>, hidden: set<string>)
    requires Once(NamesOf(x, r)) && hidden <= gated
    ensures Cut(x, r, n, |gated|, hidden) == Slice(Visible(NamesOf(x, r), hidden), n)
  {
    var all := NamesOf(x, r);
    SliceNames(x, r, n + |gated|);
    SliceOnce(all, n + |gated|);
    FewHidden(Slice(all, n + |gated|), hidden);
    FewerElements(hidden, gated);
    OverFetch(all, hidden, n, |gated|);
  }

  /** With distinct tool names a page is the first `limit` visible entries of the full ranking. */
  lemma PageIsComplete(x: Index, q: seq<Token>, order: seq<Token>, limit: int, gated: set<string>, hidden: set<string>)
    requires Shaped(x) && Once(x.names) && hidden <= gated
    ensures Page(x, q, order, limit, gated, hidden)
         == Slice(Visible(NamesOf(x, Ranking(x, q, order)), hidden), Clamped(limit))
  {
    RankingOnce(x, q, order);
    CutIsComplete(x, Ranking(x, q, order), Clamped(limit), gated, hidden);
  }

  lemma CutIsExact(a: seq<string>, b: seq<string>, n: nat)
    ensures Slice(a, n) == Slice(a + b, n) <==> (|a| >= n || b == [])
  {
    if |a| >= n {
      assert (a + b)[..n] == a[..n];
    } else if b != [] {
      assert |Slice(a + b, n)| > |a|;
    } else {
      assert a + b == a;
    }
  }

  lemma FetchIsExact(all: seq<string>, hidden: set<string>, n: nat, extra: nat)
    ensures var fetched := Slice(all, n + extra);
      Slice(Visible(fetched, hidden), n) == Slice(Visible(all, hidden), n) <==>
        (|Visible(fetched, hidden)| >= n || Visible(all[|fetched|..], hidden) == [])
  {
    var fetched := Slice(all, n + extra);
    assert all == fetched + all[|fetched|..];
    VisibleConcat(fetched, all[|fetched|..], hidden);
    CutIsExact(Visible(fetched, hidden), Visible(all[|fetched|..], hidden), n);
  }

  lemma CutIsSlice(x: Index, r: seq<Tool>, n: nat, extra: nat, hidden: set<string>)
    ensures Cut(x, r, n, extra, hidden) == Slice(Visible(Slice(NamesOf(x, r), n + extra), hidden), n)
  {
    SliceNames(x, r, n + extra);
  }

  /** What was fetched of a ranking suffices for a page: it has that many visible entries, or nothing
      visible lies beyond it. */
  predicate Suffices(all: seq<string>, hidden: set<string>, n: nat, extra: nat) {
    var fetched := Slice(all, n + extra);
    |Visible(fetched, hidden)| >= n || Visible(all[|fetched|..], hidden) == []
  }

  lemma CutIsCompleteExactly(x: Index, r: seq<Tool>, n: nat, extra: nat, hidden: set<string>)
    ensures Cut(x, r, n, extra, hidden) == Slice(Visible(NamesOf(x, r), hidden), n) <==>
            Suffices(NamesOf(x, r), hidden, n, extra)
  {
    CutIsSlice(x, r, n, extra, hidden);
    FetchIsExact(NamesOf(x, r), hidden, n, extra);
  }

  /** Names repeated or not, a page is the first `limit` visible entries of the full ranking exactly
      if what was fetched suffices. */
  lemma PageIsCompleteExactly(x: Index, q: seq<Token>, order: seq<Token>, limit: int, gated: set<string>,
                              hidden: set<string>)
    requires Shaped(x)
    ensures var all, n := NamesOf(x, Ranking(x, q, order)), Clamped(limit);
      Page(x, q, order, limit, gated, hidden) == Slice(Visible(all, hidden), n) <==>
        Suffices(all, hidden, n, |gated|)
  {
    CutIsCompleteExactly(x, Ranking(x, q, order), Clamped(limit), |gated|, hidden);
  }

  // ------------------------------------------------------------------ a page that comes out short

  /** Three tools about tasks; two of them have one name. */
  function Twins(): Index {
    Index(["get", "get", "list"], ["get", "get", "list"], [{"get", "task"}, {"get", "task"}, {"list", "task"}],
          (t, i) => 0.0, (a, b) => 0.0)
  }

  lemma {:induction false} KeepAll(s: seq<Tool>, p: Tool -> bool)
    requires forall i <- s :: p(i)
    ensures Keep(s, p) == s
  {
    if s != [] {
      var less, i := s[..|s| - 1], s[|s| - 1];
      assert s == less + [i];
      assert i in s;
      KeepAll(less, p);
      assert Keep(s, p) == less + [i];
    }
  }

  lemma UnnamedRest(keys: seq<Token>, key: Token, scores: seq<real>)
    requires key !in keys && forall i: Tool :: i < |keys| ==> At(scores, i) > 0.0
    ensures Exact(keys, key) == [] && Rest(keys, key, scores) == Below(|keys|)
  {
    ExactIs(keys, key);
    FirstOf(Exact(keys, key));
    BelowIs(|keys|);
    KeepAll(Below(|keys|), (i: Tool) => At(scores, i) > 0.0 && i !in Exact(keys, key));
  }

  lemma EqualsSurvive(keys: seq<Token>, key: Token, scores: seq<real>, covered: seq<real>, a: real)
    requires key !in keys && a > 0.0
    requires forall i: Tool :: i < |keys| ==> At(scores, i) == a && At(covered, i) == 1.0
    ensures Survivors(keys, key, scores, covered) == Below(|keys|)
  {
    UnnamedRest(keys, key, scores);
    var rest := Below(|keys|);
    KeepAll(rest, (i: Tool) => At(scores, i) >= RELATIVE_CUTOFF * Top(rest, scores));
    KeepAll(rest, (i: Tool) => At(covered, i) >= MIN_COVERAGE * Top(rest, covered));
  }

  /** Where all score and cover the same, and none is named by the query, all are found in order. */
  lemma EqualsInOrder(keys: seq<Token>, key: Token, scores: seq<real>, covered: seq<real>, a: real)
    requires |keys| == 3 && key !in keys && a > 0.0
    requires forall i: Tool :: i < 3 ==> At(scores, i) == a && At(covered, i) == 1.0
    ensures Rank(keys, key, scores, covered) == [0, 1, 2]
  {
    UnnamedRest(keys, key, scores);
    EqualsSurvive(keys, key, scores, covered, a);
    SortedEquals(scores, a);
  }

  lemma SortedEquals(scores: seq<real>, a: real)
    requires forall i: Tool :: i < 3 ==> At(scores, i) == a
    ensures SortBy(scores, Below(3)) == [0, 1, 2]
  {
    BelowIs(3);
    SortKeeps(scores, Below(3));
    InOrder(scores, SortBy(scores, Below(3)), a);
  }

  lemma InOrder(scores: seq<real>, s: seq<Tool>, a: real)
    requires forall i: Tool :: i < 3 ==> At(scores, i) == a
    requires Sorted(scores, s) && |s| == 3 && forall i: Tool :: i in s <==> i < 3
    ensures s == [0, 1, 2]
  {
    var x, y, z := s[0], s[1], s[2];
    assert x in s && y in s && z in s;
    assert Before(scores, x, y) && Before(scores, y, z);
  }

  lemma TwinMatches(order: seq<Token>, i: Tool)
    requires order == ["get", "list", "task"] && i < 3
    ensures Match(Twins(), "task", order, i) == MATCH_FLOOR
  {
    var x := Twins();
    assert "task" in x.docs[0];
    MatchBounds(x, "task", order, i);
    ExactBestIsGreatest(x, "task", 3);
  }

  /** A hidden tool listed twice, one entry fetched for it: the page is empty although a tool the
      caller may see was found. */
  lemma RepeatedNamesCanEmptyAPage()
    ensures var x, q, order := Twins(), ["task"], ["get", "list", "task"];
      && Built(x)
      && Page(x, q, order, 1, {"get"}, {"get"}) == []
      && Slice(Visible(NamesOf(x, Ranking(x, q, order)), {"get"}), 1) == ["list"]
  {
    TwinsAre();
    TwinsRanking(Twins(), ["get", "list", "task"]);
    TwinsPage(Twins(), Ranking(Twins(), ["task"], ["get", "list", "task"]));
  }

  lemma TwinsAre()
    ensures var x := Twins();
      Built(x) && |x.keys| == |x.docs| == 3 && "task" in Union(x.docs) && "task" !in x.keys
  {
    assert "task" in Twins().docs[0];
  }

  lemma TwinsRanking(x: Index, order: seq<Token>)
    requires x == Twins() && order == ["get", "list", "task"]
    ensures Ranking(x, ["task"], order) == [0, 1, 2]
  {
    TwinsAre();
    OneToken(x, "task", order);
    forall i: Tool | i < 3 ensures Match(x, "task", order, i) == MATCH_FLOOR {
      TwinMatches(order, i);
    }
    EqualsInOrder(x.keys, "task", Scores(x, ["task"], order), Coverage(x, ["task"], order), MATCH_FLOOR);
  }

  lemma TwinsPage(x: Index, r: seq<Tool>)
    requires x == Twins() && r == [0, 1, 2]
    ensures Cut(x, r, 1, 1, {"get"}) == []
    ensures Slice(Visible(NamesOf(x, r), {"get"}), 1) == ["list"]
  {
    var all, hidden := NamesOf(x, r), {"get"};
    assert all == ["get", "get", "list"];
    assert all[..2] == ["get", "get"] && ["get", "get"][..1] == ["get"] && ["get"][..0] == [];
    assert Visible(["get"], hidden) == [];
    assert Visible(["get", "get"], hidden) == [];
    assert Visible(all, hidden) == ["list"];
    SliceNames(x, r, 2);
    assert Slice(all, 2) == ["get", "get"];
  }
}
