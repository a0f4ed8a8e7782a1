/** search.py's own loops, and the hits indexing.py makes of a search. */
module Search {
  import opened Wrappers
  import opened SearchState
  import opened SearchProofs
  import opened SearchTheorems

  /** The documents of ToolIndex; the index over them is rebuilt when a search finds it missing. */
  class ToolIndex {
    var names: seq<string>
    var keys: seq<Token>
    var docs: seq<set<Token>>
    var vocab: Option<set<Token>>

    ghost predicate Valid()
      reads this
    {
      && |names| == |keys| == |docs|
      && (forall i :: 0 <= i < |docs| ==> keys[i] == "" || keys[i] in docs[i])
      && (vocab.Some? ==> vocab.value == Union(docs))
    }

    constructor ()
      ensures Valid() && names == []
    {
      names, keys, docs, vocab := [], [], [], None;
    }

    /** add: `tokens` are those of the name, `text` those of everything else. */
    method Add(name: string, tokens: seq<Token>, text: set<Token>)
      requires Valid()
      modifies this
      ensures Valid() && vocab.None?
      ensures names == old(names) + [name] && keys == old(keys) + [Join(tokens)]
      ensures forall t :: t in text || t in tokens ==> t in docs[|docs| - 1]
    {
      var doc := text + set t | t in tokens;
      if |tokens| > 1 {
        doc := doc + {Join(tokens)};
      }
      JoinOne(tokens);
      names := names + [name];
      keys := keys + [Join(tokens)];
      docs := docs + [doc];
      vocab := None;
    }

    /** _ensure */
    method Ensure() returns (v: set<Token>)
      requires Valid()
      modifies this`vocab
      ensures Valid() && v == Union(docs)
    {
      if vocab.None? {
        vocab := Some(Union(docs));
      }
      v := vocab.value;
    }
  }

  lemma JoinOne(tokens: seq<Token>)
    ensures |tokens| == 1 ==> Join(tokens) == tokens[0]
  {
    if |tokens| == 1 {
      assert tokens[..0] == [];
      assert Join([]) == "";
    }
  }

  /** _expand */
  method ExpandToken(x: Index, qt: Token, order: seq<Token>) returns (out: seq<Token>)
    ensures out == Expand(x, qt, order)
  {
    out := if qt in Union(x.docs) then [qt] else [];
    ghost var head := out;
    for k := 0 to |order|
      invariant out == head + Others(x, qt, order[..k])
    {
      var v := order[k];
      assert order[..k + 1][..k] == order[..k];
      if v != qt {
        if Weight(x, qt, v) > 0.0 {
          out := out + [v];
        }
      }
    }
    assert order[..|order|] == order;
  }

  lemma {:induction false} NotInOthers(x: Index, qt: Token, order: seq<Token>, k: nat)
    ensures k < |Expand(x, qt, order)| && k > 0 ==> Expand(x, qt, order)[k] != qt
    ensures Expand(x, qt, order) != [] && qt !in Union(x.docs) ==> Expand(x, qt, order)[0] != qt
    ensures qt in Union(x.docs) ==> Expand(x, qt, order) != [] && Expand(x, qt, order)[0] == qt
  {
    OthersAre(x, qt, order, qt);
    var others := Others(x, qt, order);
    forall i | 0 <= i < |others| ensures others[i] != qt {
      var v := others[i];
      assert v in others;
    }
  }

  lemma NoExact(x: Index, qt: Token)
    requires qt !in Union(x.docs)
    ensures ExactBest(x, qt, |x.docs|) == 0.0
  {
    ExactBestIsGreatest(x, qt, |x.docs|);
  }

  /** The inner loops of search: for one query token, the best match in every tool. */
  method MatchAll(x: Index, qt: Token, order: seq<Token>) returns (best: seq<real>)
    ensures |best| == |x.docs|
    ensures forall i: nat :: i < |best| ==> best[i] == Match(x, qt, order, i)
  {
    var n := |x.docs|;
    best := seq(n, i => 0.0);
    var exactBest := 0.0;
    var terms := ExpandToken(x, qt, order);
    ghost var cap := ExactBest(x, qt, n);
    for k := 0 to |terms|
      invariant |best| == n
      invariant forall i: nat :: i < n ==> best[i] == Best(x, qt, cap, terms[..k], i)
      invariant exactBest == if k == 0 then 0.0 else cap
    {
      NotInOthers(x, qt, order, k);
      if qt !in Union(x.docs) { NoExact(x, qt); }
      best, exactBest := MatchTerm(x, qt, terms[..k], terms[k], best, exactBest, cap);
      assert terms[..k + 1] == terms[..k] + [terms[k]];
    }
    assert terms[..|terms|] == terms;
  }

  /** One term against every tool. */
  method MatchTerm(x: Index, qt: Token, ghost earlier: seq<Token>, term: Token, best0: seq<real>,
                   cap0: real, ghost cap: real)
    returns (best: seq<real>, exactBest: real)
    requires cap == ExactBest(x, qt, |x.docs|)
    requires |best0| == |x.docs| && forall i: nat :: i < |best0| ==> best0[i] == Best(x, qt, cap, earlier, i)
    requires (term == qt && cap0 == 0.0) || (term != qt && cap0 == cap)
    ensures exactBest == cap
    ensures |best| == |x.docs| && forall i: nat :: i < |best| ==> best[i] == Best(x, qt, cap, earlier + [term], i)
  {
    best, exactBest := best0, cap0;
    var weight := Weight(x, qt, term);
    for i := 0 to |x.docs|
      invariant |best| == |x.docs|
      invariant exactBest == if term == qt then ExactBest(x, qt, i) else cap
      invariant forall j: nat :: j < i ==> best[j] == Max(best0[j], Earned(x, qt, cap, term, j))
      invariant forall j: nat :: i <= j < |best| ==> best[j] == best0[j]
    {
      if term in x.docs[i] {
        var raw := Max(x.bm25(term, i), 0.0) + MATCH_FLOOR;
        if term == qt {
          exactBest := Max(exactBest, raw);
        } else if exactBest != 0.0 {
          raw := Min(raw, exactBest);
        }
        best := best[i := Max(best[i], weight * raw)];
      } else {
        BestIsGreatest(x, qt, cap, earlier, i);
        ExactBestIsGreatest(x, qt, i);
      }
    }
    assert (earlier + [term])[..|earlier|] == earlier;
  }

  /** search: the sums over the distinct query tokens, the ranking, and the cut. */
  method SearchTools(x: Index, q: seq<Token>, order: seq<Token>, limit: int)
    returns (names: seq<string>)
    requires Shaped(x)
    ensures names == Found(x, Ranking(x, q, order), limit)
  {
    if q == [] {
      return [];
    }
    var n, ts := |x.docs|, Distinct(q);
    var scores, covered := seq(n, i => 0.0), seq(n, i => 0.0);
    for k := 0 to |ts|
      invariant |scores| == |covered| == n
      invariant forall i: nat :: i < n ==> scores[i] == Score(x, ts[..k], order, i)
      invariant forall i: nat :: i < n ==> covered[i] == Covered(x, ts[..k], order, i) as real
    {
      var best := MatchAll(x, ts[k], order);
      assert ts[..k + 1][..k] == ts[..k];
      scores := seq(n, i requires 0 <= i < n && |scores| == n && |best| == n => scores[i] + best[i]);
      covered := seq(n, i requires 0 <= i < n && |covered| == n && |best| == n =>
                          covered[i] + if best[i] > 0.0 then 1.0 else 0.0);
    }
    assert ts[..|ts|] == ts;
    assert scores == Scores(x, ts, order);
    assert covered == Coverage(x, ts, order);
    var found := Rank(x.keys, Join(q), scores, covered);
    names := Found(x, found, limit);
  }

  /** search_tools: the clamp, the over-fetch, the filter and the cut. */
  method SearchPage(x: Index, q: seq<Token>, order: seq<Token>, limit: int, gated: set<string>, hidden: set<string>)
    returns (page: seq<string>)
    requires Shaped(x)
    ensures page == Page(x, q, order, limit, gated, hidden)
  {
    var n, extra := Clamped(limit), |gated|;
    var fetch := n + extra;
    var names := SearchTools(x, q, order, fetch);
    page := CutPage(x, Ranking(x, q, order), names, n, extra, fetch, hidden);
  }

  /** The filter and the cut, of what a search fetched. */
  method CutPage(x: Index, ghost r: seq<Tool>, names: seq<string>, n: nat, extra: nat, ghost fetched: int,
                 hidden: set<string>)
    returns (page: seq<string>)
    requires fetched == n + extra && names == Found(x, r, fetched)
    ensures page == Cut(x, r, n, extra, hidden)
  {
    var shown := Filter(names, hidden);
    page := Slice(shown, n);
  }

  /** [h for h in hits if gates.visible(h["name"])] */
  method Filter(names: seq<string>, hidden: set<string>) returns (shown: seq<string>)
    ensures shown == Visible(names, hidden)
  {
    shown := [];
    for i := 0 to |names|
      invariant shown == Visible(names[..i], hidden)
    {
      assert names[..i + 1][..i] == names[..i];
      if names[i] !in hidden {
        shown := shown + [names[i]];
      }
    }
    assert names[..|names|] == names;
  }

  // ------------------------------------------------------------------ hits

  datatype Descriptor = Descriptor(name: string, summary: string, mutating: Option<bool>)

  /** `brief` is left out of a hit: it is a function of the summary. */
  datatype Hit = Hit(name: string, mutating: Option<bool>, pinned: bool)

  /** search_hits, from the names a search returned. */
  method SearchHits(names: seq<string>, byName: map<string, Descriptor>, published: set<string>)
    returns (hits: seq<Hit>)
    requires forall n <- names :: n in byName && byName[n].name == n
    ensures |hits| == |names|
    ensures forall i :: 0 <= i < |names| ==>
              && hits[i].name == names[i] && hits[i].mutating == byName[names[i]].mutating
              && (hits[i].pinned <==> names[i] in published)
  {
    hits := [];
    for i := 0 to |names|
      invariant |hits| == i
      invariant forall j :: 0 <= j < i ==>
        && hits[j].name == names[j] && hits[j].mutating == byName[names[j]].mutating
        && (hits[j].pinned <==> names[j] in published)
    {
      var name := names[i];
      assert name in names;
      var d := byName[name];
      hits := hits + [Hit(d.name, d.mutating, d.name in published)];
    }
  }
}
