/** RateLimitState through the level of a bucket: what it holds at a time, swept or not. */
module RateLimitProofs {
  import opened Wrappers
  import opened RateLimitState

  // ------------------------------------------------------------------ arithmetic

  lemma Scaled(a: real, b: real, r: real)
    requires a <= b && r >= 0.0
    ensures a * r <= b * r
  {}

  lemma Inverse(x: real, r: real)
    requires r > 0.0
    ensures (x / r) * r == x
  {}

  /** What refills from t to u. */
  function Refill(limit: Limit, t: real, u: real): real
    requires Sound(limit)
  {
    (u - t) * Rate(limit)
  }

  lemma RefillSplits(limit: Limit, t: real, u: real, v: real)
    requires Sound(limit) && t <= u <= v
    ensures Refill(limit, t, v) == Refill(limit, t, u) + Refill(limit, u, v)
    ensures Refill(limit, t, u) >= 0.0 && Refill(limit, u, v) >= 0.0
    ensures Refill(limit, t, t) == 0.0
  {
    Scaled(0.0, u - t, Rate(limit));
    Scaled(0.0, v - u, Rate(limit));
  }

  // ------------------------------------------------------------------ levels

  function Level(l: Limiter, key: Key, now: real): real
    requires Sound(l.limit)
  {
    if key in l.buckets then Refilled(l.buckets[key], l.limit, now) else l.limit.burst as real
  }

  predicate BucketOk(b: Bucket, limit: Limit, now: real) {
    0.0 <= b.tokens <= limit.burst as real && b.at <= now
  }

  ghost predicate Good(l: Limiter, now: real) {
    Sound(l.limit) && forall k <- l.buckets :: BucketOk(l.buckets[k], l.limit, now)
  }

  /** What a level at t is at u, if nothing is spent. */
  function Later(limit: Limit, level: real, t: real, u: real): real
    requires Sound(limit)
  {
    Min(limit.burst as real, level + Refill(limit, t, u))
  }

  /** A level after one take. */
  function Spent(level: real): real { if level >= 1.0 then level - 1.0 else level }

  /** What a take answers. */
  function Wait(limit: Limit, level: real): real
    requires Sound(limit)
  {
    if level >= 1.0 then 0.0 else (1.0 - level) / Rate(limit)
  }

  /** Waiting in two parts is waiting once. */
  lemma LaterTwice(limit: Limit, level: real, t: real, u: real, v: real)
    requires Sound(limit) && t <= u <= v
    ensures Later(limit, Later(limit, level, t, u), u, v) == Later(limit, level, t, v)
    ensures Later(limit, level, t, u) <= Later(limit, level, t, v)
    ensures level <= limit.burst as real ==> level <= Later(limit, level, t, u)
    ensures Later(limit, level, t, u) <= level + Refill(limit, t, u)
    ensures level <= limit.burst as real ==> Later(limit, level, t, t) == level
  {
    RefillSplits(limit, t, u, v);
  }

  lemma RefilledIsLater(b: Bucket, limit: Limit, t: real)
    requires Sound(limit)
    ensures Refilled(b, limit, t) == Later(limit, b.tokens, b.at, t)
  {
    var refill := (t - b.at) * Rate(limit);
    assert Refill(limit, b.at, t) == refill;
  }

  lemma RefillLater(b: Bucket, limit: Limit, t: real, u: real)
    requires Sound(limit) && BucketOk(b, limit, t) && t <= u
    ensures Refilled(b, limit, u) == Later(limit, Refilled(b, limit, t), t, u)
    ensures 0.0 <= Refilled(b, limit, t) <= limit.burst as real
  {
    LaterTwice(limit, b.tokens, b.at, t, u);
    RefilledIsLater(b, limit, t);
    RefilledIsLater(b, limit, u);
  }

  /** Sweeping changes no level, now or later. */
  lemma SweepKeeps(l: Limiter, now: real, k: Key, t: real)
    requires Good(l, now) && now <= t
    ensures Good(Sweep(l, now), now)
    ensures Level(Sweep(l, now), k, t) == Level(l, k, t)
  {
    if k in l.buckets {
      RefillLater(l.buckets[k], l.limit, now, t);
      LaterTwice(l.limit, Refilled(l.buckets[k], l.limit, now), now, t, t);
    }
  }

  lemma SpendKeeps(l: Limiter, now: real, key: Key)
    requires Good(l, now)
    ensures Good(Spend(l, now, key).0, now)
    ensures 0.0 <= Level(l, key, now) <= l.limit.burst as real
    ensures Spend(l, now, key).1 == Wait(l.limit, Level(l, key, now))
  {
    if key in l.buckets { RefillLater(l.buckets[key], l.limit, now, now); }
    assert (now - now) * Rate(l.limit) == 0.0;
  }

  lemma SpendLevels(l: Limiter, now: real, key: Key, k: Key, t: real)
    requires Good(l, now) && now <= t
    ensures var l' := Spend(l, now, key).0;
            && (k != key ==> Level(l', k, t) == Level(l, k, t))
            && Level(l', key, t) == Later(l.limit, Spent(Level(l, key, now)), now, t)
  {
    assert (now - now) * Rate(l.limit) == 0.0;
  }

  /** take, told through levels: nothing of how buckets are stored or swept is left. */
  lemma TakeLevels(l: Limiter, now: real, key: Key, k: Key, t: real)
    requires Good(l, now) && now <= t
    ensures Good(Take(l, now, key).0, now)
    ensures 0.0 <= Level(l, key, now) <= l.limit.burst as real
    ensures Take(l, now, key).1 == Wait(l.limit, Level(l, key, now))
    ensures k != key ==> Level(Take(l, now, key).0, k, t) == Level(l, k, t)
    ensures Level(Take(l, now, key).0, key, t) == Later(l.limit, Spent(Level(l, key, now)), now, t)
  {
    var sw := Sweep(l, now);
    SweepKeeps(l, now, key, now);
    SweepKeeps(l, now, k, t);
    SpendKeeps(sw, now, key);
    SpendLevels(sw, now, key, k, t);
  }
}
