/**
 ToolIndex (search.py): how a query ranks tools.  Tokenising, BM25 and fuzz.ratio are arbitrary
 functions here, scores are reals, and the order in which Python walks the vocabulary, a set, is an
 arbitrary enumeration of it.
*/
module SearchState {
  import opened Wrappers

  type Token = string
  type Tool = nat

  const EXACT: real := 1.0
  const PREFIX: real := 0.6
  const FUZZY: real := 0.4
  const MIN_PREFIX: nat := 4
  const MIN_FUZZY: nat := 5
  const FUZZ_THRESHOLD: real := 85.0
  const MATCH_FLOOR: real := 0.1
  const RELATIVE_CUTOFF: real := 0.35
  const MIN_COVERAGE: real := 0.6

  /** One document per tool, as sets of tokens; `keys` are the names squeezed into one token. */
  datatype Index = Index(names: seq<string>, keys: seq<Token>, docs: seq<set<Token>>,
                         bm25: (Token, Tool) -> real, ratio: (Token, Token) -> real)

  predicate Shaped(x: Index) { |x.names| == |x.keys| == |x.docs| }

  function Union(docs: seq<set<Token>>): (r: set<Token>)
    ensures forall t :: t in r <==> exists i :: 0 <= i < |docs| && t in docs[i]
  {
    if docs == [] then {} else Union(docs[..|docs| - 1]) + docs[|docs| - 1]
  }

  function Max(a: real, b: real): real { if a >= b then a else b }

  function Min(a: real, b: real): real { if a <= b then a else b }

  // ------------------------------------------------------------------ _expand

  /** What a query token earns for an index term; 0 when they do not match. */
  function Weight(x: Index, qt: Token, v: Token): (r: real)
    ensures r == 0.0 || FUZZY <= r <= EXACT
    ensures v != qt ==> r <= PREFIX
  {
    if v == qt then EXACT
    else if |qt| >= MIN_PREFIX && |v| >= MIN_PREFIX && (qt <= v || v <= qt) then PREFIX
    else if |qt| >= MIN_FUZZY && |v| >= MIN_FUZZY && x.ratio(qt, v) >= FUZZ_THRESHOLD then FUZZY
    else 0.0
  }

  /** The expansions other than the token itself, in the order of the vocabulary. */
  function Others(x: Index, qt: Token, order: seq<Token>): seq<Token> {
    if order == [] then []
    else
      var v := order[|order| - 1];
      Others(x, qt, order[..|order| - 1]) + if v != qt && Weight(x, qt, v) > 0.0 then [v] else []
  }

  /** _expand: the terms, the exact one first. */
  function Expand(x: Index, qt: Token, order: seq<Token>): seq<Token> {
    (if qt in Union(x.docs) then [qt] else []) + Others(x, qt, order)
  }

  // ------------------------------------------------------------------ scores

  function Raw(x: Index, v: Token, i: Tool): (r: real)
    ensures r >= MATCH_FLOOR
  {
    Max(x.bm25(v, i), 0.0) + MATCH_FLOOR
  }

  /** exact_best over the first n tools. */
  function ExactBest(x: Index, qt: Token, n: nat): real
    requires n <= |x.docs|
  {
    if n == 0 then 0.0
    else Max(ExactBest(x, qt, n - 1), if qt in x.docs[n - 1] then Raw(x, qt, n - 1) else 0.0)
  }

  /** What tool i earns by containing term v, given the cap for expansions. */
  function Earned(x: Index, qt: Token, cap: real, v: Token, i: Tool): real
    requires i < |x.docs|
  {
    if v !in x.docs[i] then 0.0
    else if v == qt then EXACT * Raw(x, v, i)
    else Weight(x, qt, v) * (if cap != 0.0 then Min(Raw(x, v, i), cap) else Raw(x, v, i))
  }

  function Best(x: Index, qt: Token, cap: real, terms: seq<Token>, i: Tool): real
    requires i < |x.docs|
  {
    if terms == [] then 0.0
    else Max(Best(x, qt, cap, terms[..|terms| - 1], i), Earned(x, qt, cap, terms[|terms| - 1], i))
  }

  /** The best match of one query token in one tool. */
  function Match(x: Index, qt: Token, order: seq<Token>, i: Tool): real
    requires i < |x.docs|
  {
    Best(x, qt, ExactBest(x, qt, |x.docs|), Expand(x, qt, order), i)
  }

  /** dict.fromkeys(q) */
  function Distinct(q: seq<Token>): (r: seq<Token>)
    ensures forall t :: t in r <==> t in q
    ensures q != [] ==> r != []
  {
    if q == [] then []
    else
      var r := Distinct(q[..|q| - 1]);
      if q[|q| - 1] in r then r else r + [q[|q| - 1]]
  }

  function Score(x: Index, ts: seq<Token>, order: seq<Token>, i: Tool): real
    requires i < |x.docs|
  {
    if ts == [] then 0.0 else Score(x, ts[..|ts| - 1], order, i) + Match(x, ts[|ts| - 1], order, i)
  }

  function Covered(x: Index, ts: seq<Token>, order: seq<Token>, i: Tool): nat
    requires i < |x.docs|
  {
    if ts == [] then 0
    else Covered(x, ts[..|ts| - 1], order, i) + if Match(x, ts[|ts| - 1], order, i) > 0.0 then 1 else 0
  }

  // ------------------------------------------------------------------ ranking

  function At(f: seq<real>, i: Tool): real { if i < |f| then f[i] else 0.0 }

  function Below(n: nat): (r: seq<Tool>)
    ensures |r| == n && forall i :: 0 <= i < n ==> r[i] == i
  {
    seq(n, i requires 0 <= i < n => i)
  }

  function Keep(s: seq<Tool>, p: Tool -> bool): (r: seq<Tool>)
    ensures forall i :: i in r <==> i in s && p(i)
    ensures |r| <= |s|
  {
    if s == [] then [] else Keep(s[..|s| - 1], p) + if p(s[|s| - 1]) then [s[|s| - 1]] else []
  }

  /** max((f[i] for i in s), default=0) */
  function Top(s: seq<Tool>, f: seq<real>): (r: real)
    ensures s != [] ==> exists i :: i in s && At(f, i) == r
    ensures forall i <- s :: At(f, i) <= r
    ensures s == [] ==> r == 0.0
  {
    if s == [] then 0.0
    else if |s| == 1 then assert s[0] in s; At(f, s[0])
    else
      assert s[|s| - 1] in s;
      Max(Top(s[..|s| - 1], f), At(f, s[|s| - 1]))
  }

  predicate Before(f: seq<real>, i: Tool, j: Tool) { At(f, i) > At(f, j) || (At(f, i) == At(f, j) && i < j) }

  function Insert(f: seq<real>, s: seq<Tool>, i: Tool): seq<Tool> {
    if s == [] || Before(f, i, s[0]) then [i] + s else [s[0]] + Insert(f, s[1..], i)
  }

  /** sorted(s, key=lambda i: (-scores[i], i)) */
  function SortBy(f: seq<real>, s: seq<Tool>): seq<Tool> {
    if s == [] then [] else Insert(f, SortBy(f, s[..|s| - 1]), s[|s| - 1])
  }

  /** The tools whose name is the query. */
  function Exact(keys: seq<Token>, key: Token): seq<Tool> {
    Keep(Below(|keys|), (i: Tool) => i < |keys| && keys[i] != "" && keys[i] == key)
  }

  /** The other tools that score at all. */
  function Rest(keys: seq<Token>, key: Token, scores: seq<real>): seq<Tool> {
    Keep(Below(|keys|), (i: Tool) => At(scores, i) > 0.0 && i !in Exact(keys, key))
  }

  /** Those not too far under the best. */
  function Near(keys: seq<Token>, key: Token, scores: seq<real>): seq<Tool> {
    var rest := Rest(keys, key, scores);
    Keep(rest, (i: Tool) => At(scores, i) >= RELATIVE_CUTOFF * Top(rest, scores))
  }

  /** Of those, the ones that match enough of the query. */
  function Survivors(keys: seq<Token>, key: Token, scores: seq<real>, covered: seq<real>): seq<Tool> {
    var near := Near(keys, key, scores);
    Keep(near, (i: Tool) => At(covered, i) >= MIN_COVERAGE * Top(near, covered))
  }

  function Rank(keys: seq<Token>, key: Token, scores: seq<real>, covered: seq<real>): seq<Tool> {
    Exact(keys, key) + SortBy(scores, Survivors(keys, key, scores, covered))
  }

  function Join(q: seq<Token>): Token {
    if q == [] then "" else Join(q[..|q| - 1]) + q[|q| - 1]
  }

  function Scores(x: Index, ts: seq<Token>, order: seq<Token>): (r: seq<real>)
    ensures |r| == |x.docs| && forall i: nat :: i < |r| ==> r[i] == Score(x, ts, order, i)
  {
    seq(|x.docs|, i requires 0 <= i < |x.docs| => Score(x, ts, order, i))
  }

  function Coverage(x: Index, ts: seq<Token>, order: seq<Token>): (r: seq<real>)
    ensures |r| == |x.docs| && forall i: nat :: i < |r| ==> r[i] == Covered(x, ts, order, i) as real
  {
    seq(|x.docs|, i requires 0 <= i < |x.docs| => Covered(x, ts, order, i) as real)
  }

  /** All the tools a query finds, best first: search without its limit. */
  function Ranking(x: Index, q: seq<Token>, order: seq<Token>): seq<Tool> {
    if q == [] then []
    else Rank(x.keys, Join(q), Scores(x, Distinct(q), order), Coverage(x, Distinct(q), order))
  }

  /** s[:limit] */
  function Slice<T>(s: seq<T>, limit: int): seq<T> {
    if limit >= |s| then s else if limit >= 0 then s[..limit] else if |s| + limit >= 0 then s[..|s| + limit] else []
  }
}
