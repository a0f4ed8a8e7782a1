/**
 RateLimiter (gates.py): a token bucket for each caller that refills continuously, and is dropped
 once it has refilled completely.  Clocks and tokens are reals.
*/
module RateLimitState {
  import opened Wrappers

  type Key = string

  /** What [surface.rate_limit] configures. */
  datatype Limit = Limit(calls: int, per: real, burst: int)

  /** validate_rate_limit */
  predicate Sound(l: Limit) { l.calls > 0 && l.per > 0.0 && l.burst > 0 }

  function Rate(l: Limit): (r: real)
    requires Sound(l)
    ensures r > 0.0
  {
    l.calls as real / l.per
  }

  datatype Bucket = Bucket(tokens: real, at: real)

  /** `swept` is None for float("-inf"). */
  datatype Limiter = Limiter(limit: Limit, buckets: map<Key, Bucket>, swept: Option<real>)

  function Fresh(limit: Limit): Limiter { Limiter(limit, map[], None) }

  function Min(a: real, b: real): real { if a <= b then a else b }

  function Refilled(b: Bucket, limit: Limit, now: real): real
    requires Sound(limit)
  {
    Min(limit.burst as real, b.tokens + (now - b.at) * Rate(limit))
  }

  predicate Full(b: Bucket, limit: Limit, now: real)
    requires Sound(limit)
  {
    b.tokens + (now - b.at) * Rate(limit) >= limit.burst as real
  }

  /** _sweep */
  function Sweep(l: Limiter, now: real): Limiter
    requires Sound(l.limit)
  {
    if l.swept.Some? && now - l.swept.value < l.limit.per then l
    else l.(swept := Some(now), buckets := map k | k in l.buckets && !Full(l.buckets[k], l.limit, now) :: l.buckets[k])
  }

  /** take without the sweep: the new buckets, and the wait. */
  function Spend(l: Limiter, now: real, key: Key): (r: (Limiter, real))
    requires Sound(l.limit)
    ensures r.0.limit == l.limit && r.0.swept == l.swept
  {
    var b := if key in l.buckets then l.buckets[key] else Bucket(l.limit.burst as real, now);
    var tokens := Refilled(b, l.limit, now);
    if tokens >= 1.0 then (l.(buckets := l.buckets[key := Bucket(tokens - 1.0, now)]), 0.0)
    else (l.(buckets := l.buckets[key := Bucket(tokens, now)]), (1.0 - tokens) / Rate(l.limit))
  }

  /** take */
  function Take(l: Limiter, now: real, key: Key): (r: (Limiter, real))
    requires Sound(l.limit)
    ensures r.0.limit == l.limit
  {
    Spend(Sweep(l, now), now, key)
  }

  // ------------------------------------------------------------------ tables and re-attaching

  datatype Table = Table(calls: int, per: real, burst: Option<int>)

  function FromTable(t: Table): Limit {
    Limit(t.calls, t.per, if t.burst.Some? then t.burst.value else t.calls)
  }

  /** matches */
  predicate Matches(l: Limiter, t: Table) { FromTable(t) == l.limit }

  /** What gates_from_entry leaves under the surface's name in the gateway's limiters. */
  function Attach(known: Option<Limiter>, t: Table): Limiter {
    if known.Some? && Matches(known.value, t) then known.value else Fresh(FromTable(t))
  }

  // ------------------------------------------------------------------ runs

  /** What happens to one surface's limiter. */
  datatype Op = Call(now: real, key: Key) | Reattach(table: Table)

  function Apply(l: Limiter, op: Op): (r: Limiter)
    requires Sound(l.limit)
  {
    match op
    case Call(now, key) => Take(l, now, key).0
    case Reattach(t) => Attach(Some(l), t)
  }

  /** Reattaches keep the limit. */
  predicate Same(limit: Limit, op: Op) { op.Reattach? ==> FromTable(op.table) == limit }

  predicate AllSame(limit: Limit, ops: seq<Op>) { forall i :: 0 <= i < |ops| ==> Same(limit, ops[i]) }

  function After(l: Limiter, ops: seq<Op>): (r: Limiter)
    requires Sound(l.limit) && AllSame(l.limit, ops)
    ensures r.limit == l.limit
    decreases |ops|
  {
    if ops == [] then l else Apply(After(l, ops[..|ops| - 1]), ops[|ops| - 1])
  }

  /** The answer to the call at position i. */
  function Answer(l: Limiter, ops: seq<Op>, i: nat): real
    requires Sound(l.limit) && AllSame(l.limit, ops) && i < |ops| && ops[i].Call?
  {
    Take(After(l, ops[..i]), ops[i].now, ops[i].key).1
  }

  /** The clock never goes back, and is at `start` or later. */
  predicate Clocked(ops: seq<Op>, start: real) {
    && (forall i :: 0 <= i < |ops| && ops[i].Call? ==> start <= ops[i].now)
    && (forall i, j :: 0 <= i < j < |ops| && ops[i].Call? && ops[j].Call? ==> ops[i].now <= ops[j].now)
  }
}
