/** gates.py's own limiter code, on objects that a surface and the gateway share. */
module RateLimit {
  import opened Wrappers
  import opened RateLimitState
  import opened RateLimitTheorems

  class RateLimiter {
    const limit: Limit
    var buckets: map<Key, Bucket>
    var swept: Option<real>

    constructor (limit: Limit)
      requires Sound(limit)
      ensures Snapshot() == Fresh(limit) && this.limit == limit
    {
      this.limit, buckets, swept := limit, map[], None;
    }

    ghost function Snapshot(): Limiter
      reads this
    {
      Limiter(limit, buckets, swept)
    }

    /** matches */
    predicate Agrees(t: Table) {
      FromTable(t) == limit
    }

    /** _sweep: collect what is full, then delete it. */
    method SweepOut(now: real)
      requires Sound(limit)
      modifies this
      ensures Snapshot() == Sweep(old(Snapshot()), now)
    {
      if swept.Some? && now - swept.value < limit.per {
        return;
      }
      swept := Some(now);
      var full := FullKeys(buckets, limit, now);
      buckets := buckets - full;
    }

    /** take */
    method TakeToken(now: real, key: Key) returns (wait: real)
      requires Sound(limit)
      modifies this
      ensures Snapshot() == Take(old(Snapshot()), now, key).0
      ensures wait == Take(old(Snapshot()), now, key).1
      ensures var had := Has(old(buckets), limit, now, key);
        && wait == (if had >= 1.0 then 0.0 else (1.0 - had) * limit.per / limit.calls as real)
        && key in buckets && buckets[key] == Bucket(if had >= 1.0 then had - 1.0 else had, now)
    {
      SweptHas(Snapshot(), now, key);
      SweepOut(now);
      var rate := Rate(limit);
      var bucket := Bucket(limit.burst as real, now);
      if key in buckets {
        bucket := buckets[key];
      }
      HasIs(buckets, limit, now, key);
      var tokens := Refilled(bucket, limit, now);
      if tokens >= 1.0 {
        buckets := buckets[key := Bucket(tokens - 1.0, now)];
        wait := 0.0;
      } else {
        buckets := buckets[key := Bucket(tokens, now)];
        wait := (1.0 - tokens) / rate;
        Quotients(1.0 - tokens, limit.per, limit.calls as real);
      }
    }
  }

  /** What a caller has at a time: the full burst at first, and then what the last call left with
      `calls` more for every `per_s` since, up to the burst. */
  function Has(buckets: map<Key, Bucket>, limit: Limit, now: real, key: Key): real
    requires Sound(limit)
  {
    if key !in buckets then limit.burst as real
    else Min(limit.burst as real,
             buckets[key].tokens + (now - buckets[key].at) * limit.calls as real / limit.per)
  }

  lemma HasIs(buckets: map<Key, Bucket>, limit: Limit, now: real, key: Key)
    requires Sound(limit)
    ensures var b := if key in buckets then buckets[key] else Bucket(limit.burst as real, now);
            Has(buckets, limit, now, key) == Refilled(b, limit, now)
  {
    if key in buckets {
      Ratio(now - buckets[key].at, limit.calls as real, limit.per);
    } else {
      assert (now - now) * Rate(limit) == 0.0;
    }
  }

  lemma SweptHas(l: Limiter, now: real, key: Key)
    requires Sound(l.limit)
    ensures Has(Sweep(l, now).buckets, l.limit, now, key) == Has(l.buckets, l.limit, now, key)
  {
    HasIs(l.buckets, l.limit, now, key);
    HasIs(Sweep(l, now).buckets, l.limit, now, key);
    assert (now - now) * Rate(l.limit) == 0.0;
  }

  lemma SomeKey(keys: set<Key>)
    ensures keys == {} || exists k :: k in keys
  {
    if !(exists k :: k in keys) { assert keys == {}; }
  }

  /** The keys whose bucket has refilled. */
  method FullKeys(buckets: map<Key, Bucket>, limit: Limit, now: real) returns (full: set<Key>)
    requires Sound(limit)
    ensures full == set k | k in buckets && Full(buckets[k], limit, now)
  {
    full := {};
    var todo := buckets.Keys;
    while todo != {}
      invariant todo <= buckets.Keys
      invariant full == set k | k in buckets && k !in todo && Full(buckets[k], limit, now)
      decreases todo
    {
      SomeKey(todo);
      var k :| k in todo;
      if Full(buckets[k], limit, now) {
        full := full + {k};
      }
      todo := todo - {k};
    }
  }

  /** The limiter gates_from_entry gives a surface, and the gateway's limiters afterwards: the very
      same object while the limit is equal, so that calls through an app still draining and through
      its successor spend from one bucket. */
  method GatesFromEntry(name: string, table: Option<Table>, limiters: map<string, RateLimiter>)
    returns (stage: Option<RateLimiter>, left: map<string, RateLimiter>)
    requires table.Some? ==> Sound(FromTable(table.value))
    ensures table.None? ==> stage.None? && left == limiters
    ensures table.Some? ==> stage.Some? && left == limiters[name := stage.value]
    ensures table.Some? && name in limiters && limiters[name].Agrees(table.value) ==> stage.value == limiters[name]
    ensures table.Some? && !(name in limiters && limiters[name].Agrees(table.value)) ==> fresh(stage.value)
    ensures table.Some? ==>
              var limit, t := stage.value.limit, table.value;
              && limit.calls == t.calls && limit.per == t.per
              && limit.burst == if t.burst.Some? then t.burst.value else t.calls
    ensures table.Some? ==>
              stage.value.Snapshot() ==
                  Attach(if name in limiters then Some(limiters[name].Snapshot()) else None, table.value)
  {
    stage, left := None, limiters;
    if table.Some? {
      var limiter: RateLimiter;
      if name in limiters && limiters[name].Agrees(table.value) {
        limiter := limiters[name];
      } else {
        limiter := new RateLimiter(FromTable(table.value));
      }
      left := left[name := limiter];
      stage := Some(limiter);
    }
  }
}
