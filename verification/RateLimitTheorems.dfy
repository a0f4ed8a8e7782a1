/** What a caller can rely on over any sequence of calls and of re-attaches that keep the limit. */
module RateLimitTheorems {
  import opened Wrappers
  import opened RateLimitState
  import opened RateLimitProofs

  // ------------------------------------------------------------------ runs

  lemma AfterStep(l: Limiter, ops: seq<Op>, j: nat)
    requires Sound(l.limit) && AllSame(l.limit, ops) && j < |ops|
    ensures After(l, ops[..j + 1]) == Apply(After(l, ops[..j]), ops[j])
  {
    assert ops[..j + 1][..j] == ops[..j];
  }

  /** A re-attach that keeps the limit is no event at all: not a refill, not a sweep. */
  lemma SameReattachIsNothing(l: Limiter, t: Table)
    requires Sound(l.limit) && FromTable(t) == l.limit
    ensures Apply(l, Reattach(t)) == l
  {}

  /** Every call among the first j is at `t` or earlier. */
  predicate Until(ops: seq<Op>, j: nat, t: real) {
    forall i :: 0 <= i < j && i < |ops| && ops[i].Call? ==> ops[i].now <= t
  }

  lemma {:induction false} RunOk(l: Limiter, ops: seq<Op>, start: real, j: nat, t: real)
    requires Good(l, start) && AllSame(l.limit, ops) && Clocked(ops, start)
    requires j <= |ops| && start <= t && Until(ops, j, t)
    ensures Good(After(l, ops[..j]), t)
  {
    if j > 0 {
      AfterStep(l, ops, j - 1);
      var op := ops[j - 1];
      if op.Call? {
        RunOk(l, ops, start, j - 1, op.now);
        TakeLevels(After(l, ops[..j - 1]), op.now, op.key, op.key, t);
        OkLater(Take(After(l, ops[..j - 1]), op.now, op.key).0, op.now, t);
      } else {
        RunOk(l, ops, start, j - 1, t);
      }
    }
  }

  lemma OkLater(l: Limiter, t: real, u: real)
    requires Good(l, t) && t <= u
    ensures Good(l, u)
  {}

  lemma LevelLater(l: Limiter, key: Key, t: real, u: real)
    requires Good(l, t) && t <= u
    ensures Level(l, key, u) == Later(l.limit, Level(l, key, t), t, u)
    ensures Level(l, key, t) <= Level(l, key, u) <= Level(l, key, t) + Refill(l.limit, t, u)
    ensures 0.0 <= Level(l, key, t) <= l.limit.burst as real
  {
    if key in l.buckets { RefillLater(l.buckets[key], l.limit, t, u); }
    LaterTwice(l.limit, Level(l, key, t), t, u, u);
  }

  lemma WaitIsZero(limit: Limit, level: real)
    requires Sound(limit)
    ensures Wait(limit, level) == 0.0 <==> level >= 1.0
    ensures Wait(limit, level) >= 0.0
  {
    Reaches(1.0 - level, 0.0, Rate(limit));
  }

  /** The answer to a call is the wait for the level it finds. */
  lemma AnswerIsWait(l: Limiter, ops: seq<Op>, start: real, i: nat)
    requires Good(l, start) && AllSame(l.limit, ops) && Clocked(ops, start) && i < |ops| && ops[i].Call?
    ensures Good(After(l, ops[..i]), ops[i].now)
    ensures Answer(l, ops, i) == Wait(l.limit, Level(After(l, ops[..i]), ops[i].key, ops[i].now))
    ensures Answer(l, ops, i) == 0.0 <==> Level(After(l, ops[..i]), ops[i].key, ops[i].now) >= 1.0
  {
    RunOk(l, ops, start, i, ops[i].now);
    TakeLevels(After(l, ops[..i]), ops[i].now, ops[i].key, ops[i].key, ops[i].now);
    WaitIsZero(l.limit, Level(After(l, ops[..i]), ops[i].key, ops[i].now));
  }

  // ------------------------------------------------------------------ the limit

  predicate Granted(l: Limiter, ops: seq<Op>, i: nat, key: Key)
    requires Sound(l.limit) && AllSame(l.limit, ops) && i < |ops|
  {
    ops[i].Call? && ops[i].key == key && Answer(l, ops, i) == 0.0
  }

  /** How many calls of `key` are granted from position i up to j. */
  function Grants(l: Limiter, ops: seq<Op>, i: nat, j: nat, key: Key): nat
    requires Sound(l.limit) && AllSame(l.limit, ops) && i <= j <= |ops|
    decreases j
  {
    if j == i then 0 else Grants(l, ops, i, j - 1, key) + if Granted(l, ops, j - 1, key) then 1 else 0
  }

  /** One step of the bound: what is left after it, later, is paid for by what was left before. */
  lemma Paid(limit: Limit, had: real, left: real, t: real, now: real, u: real, grants: real, more: real)
    requires Sound(limit) && t <= now <= u
    requires grants + had <= limit.burst as real + Refill(limit, t, now)
    requires more + left <= had
    ensures grants + more + Later(limit, left, now, u) <= limit.burst as real + Refill(limit, t, u)
  {
    LaterTwice(limit, left, now, u, u);
    RefillSplits(limit, t, now, u);
  }

  /** The level after a call of `k`, in terms of the level of `key` before it. */
  lemma CallLeaves(l: Limiter, now: real, k: Key, key: Key, u: real)
    requires Good(l, now) && now <= u
    ensures Good(Take(l, now, k).0, now)
    ensures Level(Take(l, now, k).0, key, u)
         == Later(l.limit, if k == key then Spent(Level(l, key, now)) else Level(l, key, now), now, u)
  {
    TakeLevels(l, now, k, key, u);
    LevelLater(l, key, now, u);
  }

  lemma {:induction false} GrantsAndLevel(l: Limiter, ops: seq<Op>, start: real, i: nat, j: nat,
                                          key: Key, t: real, u: real)
    requires Good(l, start) && AllSame(l.limit, ops) && Clocked(ops, start) && i <= j <= |ops|
    requires start <= t <= u && Until(ops, j, u)
    requires forall n :: i <= n < j && ops[n].Call? ==> t <= ops[n].now
    ensures Good(After(l, ops[..j]), u)
    ensures Grants(l, ops, i, j, key) as real + Level(After(l, ops[..j]), key, u)
         <= l.limit.burst as real + Refill(l.limit, t, u)
    decreases j
  {
    RunOk(l, ops, start, j, u);
    if j == i {
      RefillSplits(l.limit, t, u, u);
      LevelLater(After(l, ops[..j]), key, u, u);
    } else if ops[j - 1].Reattach? {
      AfterStep(l, ops, j - 1);
      GrantsAndLevel(l, ops, start, i, j - 1, key, t, u);
    } else {
      GrantsAndLevelCall(l, ops, start, i, j, key, t, u);
    }
  }

  /** One more call is granted or not by the level it finds. */
  lemma GrantsStep(l: Limiter, ops: seq<Op>, start: real, i: nat, j: nat, key: Key)
    requires Good(l, start) && AllSame(l.limit, ops) && Clocked(ops, start) && i < j <= |ops| && ops[j - 1].Call?
    ensures Good(After(l, ops[..j - 1]), ops[j - 1].now)
    ensures Grants(l, ops, i, j, key) == Grants(l, ops, i, j - 1, key)
         + if ops[j - 1].key == key && Level(After(l, ops[..j - 1]), key, ops[j - 1].now) >= 1.0 then 1 else 0
  {
    AnswerIsWait(l, ops, start, j - 1);
  }

  lemma {:induction false} GrantsAndLevelCall(l: Limiter, ops: seq<Op>, start: real, i: nat, j: nat,
                                              key: Key, t: real, u: real)
    requires Good(l, start) && AllSame(l.limit, ops) && Clocked(ops, start) && i < j <= |ops| && ops[j - 1].Call?
    requires start <= t <= u && Until(ops, j, u)
    requires forall n :: i <= n < j && ops[n].Call? ==> t <= ops[n].now
    ensures Grants(l, ops, i, j, key) as real + Level(After(l, ops[..j]), key, u)
         <= l.limit.burst as real + Refill(l.limit, t, u)
    decreases j, 0
  {
    var now, k := ops[j - 1].now, ops[j - 1].key;
    var had := Level(After(l, ops[..j - 1]), key, now);
    GrantsAndLevel(l, ops, start, i, j - 1, key, t, now);
    GrantsStep(l, ops, start, i, j, key);
    var left := if k == key then Spent(had) else had;
    CallLevel(l, ops, start, j, key, u);
    Paid(l.limit, had, left, t, now, u, Grants(l, ops, i, j - 1, key) as real,
         if k == key && had >= 1.0 then 1.0 else 0.0);
  }

  lemma CallLevel(l: Limiter, ops: seq<Op>, start: real, j: nat, key: Key, u: real)
    requires Good(l, start) && AllSame(l.limit, ops) && Clocked(ops, start) && 0 < j <= |ops| && ops[j - 1].Call?
    requires ops[j - 1].now <= u
    ensures Good(After(l, ops[..j - 1]), ops[j - 1].now)
    ensures var had := Level(After(l, ops[..j - 1]), key, ops[j - 1].now);
            Level(After(l, ops[..j]), key, u)
            == Later(l.limit, if ops[j - 1].key == key then Spent(had) else had, ops[j - 1].now, u)
  {
    AfterStep(l, ops, j - 1);
    RunOk(l, ops, start, j - 1, ops[j - 1].now);
    CallLeaves(After(l, ops[..j - 1]), ops[j - 1].now, ops[j - 1].key, key, u);
  }

  /** In any window from t to u, of any run, the grants of one key are at most the burst and `calls`
      for every `per_s` of its length: over sweeps, and over re-attaches that keep the limit. */
  lemma WindowIsBounded(limit: Limit, ops: seq<Op>, start: real, i: nat, j: nat, key: Key, t: real, u: real)
    requires Sound(limit) && AllSame(limit, ops) && Clocked(ops, start) && i <= j <= |ops|
    requires start <= t <= u && Until(ops, j, u) && forall n :: i <= n < j && ops[n].Call? ==> t <= ops[n].now
    ensures Grants(Fresh(limit), ops, i, j, key) as real
         <= limit.burst as real + (u - t) * limit.calls as real / limit.per
  {
    GrantsAndLevel(Fresh(limit), ops, start, i, j, key, t, u);
    LevelLater(After(Fresh(limit), ops[..j]), key, u, u);
    BoundIs(Grants(Fresh(limit), ops, i, j, key) as real, limit, t, u);
  }

  lemma BoundIs(grants: real, limit: Limit, t: real, u: real)
    requires Sound(limit) && grants <= limit.burst as real + Refill(limit, t, u)
    ensures grants <= limit.burst as real + (u - t) * limit.calls as real / limit.per
  {
    Ratio(u - t, limit.calls as real, limit.per);
  }

  lemma Ratio(x: real, c: real, p: real)
    requires p > 0.0
    ensures x * (c / p) == x * c / p
  {
    Inverse(c, p);
    Inverse(x * c, p);
    assert (x * (c / p)) * p == x * ((c / p) * p) == x * c;
    Unique(x * (c / p), x * c / p, p);
  }

  // ------------------------------------------------------------------ sweeping cannot be seen

  /** A limiter that never sweeps. */
  function PlainAfter(l: Limiter, ops: seq<Op>): (r: Limiter)
    requires Sound(l.limit) && AllSame(l.limit, ops)
    ensures r.limit == l.limit
    decreases |ops|
  {
    if ops == [] then l
    else
      var m, op := PlainAfter(l, ops[..|ops| - 1]), ops[|ops| - 1];
      match op
      case Call(now, key) => Spend(m, now, key).0
      case Reattach(t) => Attach(Some(m), t)
  }

  ghost predicate SameLevels(a: Limiter, b: Limiter, now: real) {
    && Good(a, now) && Good(b, now) && a.limit == b.limit
    && forall k, t :: now <= t ==> Level(a, k, t) == Level(b, k, t)
  }

  lemma SameLevelsTake(a: Limiter, b: Limiter, was: real, now: real, key: Key)
    requires SameLevels(a, b, was) && was <= now
    ensures SameLevels(Take(a, now, key).0, Spend(b, now, key).0, now)
    ensures Take(a, now, key).1 == Spend(b, now, key).1
  {
    OkLater(a, was, now);
    OkLater(b, was, now);
    TakeLevels(a, now, key, key, now);
    SpendKeeps(b, now, key);
    forall k, t | now <= t ensures Level(Take(a, now, key).0, k, t) == Level(Spend(b, now, key).0, k, t) {
      TakeLevels(a, now, key, k, t);
      SpendLevels(b, now, key, k, t);
    }
  }

  lemma {:induction false} SameLevelsRun(l: Limiter, ops: seq<Op>, start: real, j: nat, t: real)
    requires Good(l, start) && AllSame(l.limit, ops) && Clocked(ops, start)
    requires j <= |ops| && start <= t && Until(ops, j, t)
    ensures SameLevels(After(l, ops[..j]), PlainAfter(l, ops[..j]), t)
  {
    if j == 0 {
      OkLater(l, start, t);
    } else {
      AfterStep(l, ops, j - 1);
      assert ops[..j][..j - 1] == ops[..j - 1];
      var op := ops[j - 1];
      match op
      case Reattach(table) => SameLevelsRun(l, ops, start, j - 1, t);
      case Call(now, key) =>
        SameLevelsRun(l, ops, start, j - 1, now);
        var a, b := After(l, ops[..j - 1]), PlainAfter(l, ops[..j - 1]);
        SameLevelsTake(a, b, now, now, key);
        OkLater(Take(a, now, key).0, now, t);
        OkLater(Spend(b, now, key).0, now, t);
    }
  }

  /** Every answer is the one a limiter that never sweeps would give. */
  lemma SweepingIsInvisible(l: Limiter, ops: seq<Op>, start: real, i: nat)
    requires Good(l, start) && AllSame(l.limit, ops) && Clocked(ops, start) && i < |ops| && ops[i].Call?
    ensures Answer(l, ops, i) == Spend(PlainAfter(l, ops[..i]), ops[i].now, ops[i].key).1
  {
    SameLevelsRun(l, ops, start, i, ops[i].now);
    SameLevelsTake(After(l, ops[..i]), PlainAfter(l, ops[..i]), ops[i].now, ops[i].now, ops[i].key);
  }

  // ------------------------------------------------------------------ an exact wait

  /** After a take of `key` at `now` that left `left`, calls at which less than one token has
      refilled spend nothing. */
  lemma {:induction false} NothingSpent(m: Limiter, now: real, key: Key, left: real, ops: seq<Op>, j: nat, t: real)
    requires Good(m, now) && AllSame(m.limit, ops) && Clocked(ops, now) && j <= |ops| && now <= t && Until(ops, j, t)
    requires forall u :: now <= u ==> Level(m, key, u) == Later(m.limit, left, now, u)
    requires forall i :: 0 <= i < j && ops[i].Call? && ops[i].key == key ==> Later(m.limit, left, now, ops[i].now) < 1.0
    ensures Good(After(m, ops[..j]), t)
    ensures Level(After(m, ops[..j]), key, t) == Later(m.limit, left, now, t)
  {
    RunOk(m, ops, now, j, t);
    if j > 0 {
      AfterStep(m, ops, j - 1);
      match ops[j - 1]
      case Reattach(_) => NothingSpent(m, now, key, left, ops, j - 1, t);
      case Call(at, k) =>
        NothingSpent(m, now, key, left, ops, j - 1, at);
        CallLeaves(After(m, ops[..j - 1]), at, k, key, t);
        LaterTwice(m.limit, left, now, at, t);
    }
  }

  /** When the level reaches one. */
  lemma ReachesOne(limit: Limit, left: real, now: real, u: real)
    requires Sound(limit) && 0.0 <= left < 1.0 && now <= u
    ensures Later(limit, left, now, u) < 1.0 <==> u < now + Wait(limit, left)
    ensures u < now + Wait(limit, left) ==> Wait(limit, Later(limit, left, now, u)) == now + Wait(limit, left) - u
  {
    var r, dt, x := Rate(limit), u - now, 1.0 - left;
    Reaches(x, dt, r);
    assert Refill(limit, now, u) == dt * r;
    assert Wait(limit, left) == x / r;
    assert limit.burst as real >= 1.0;
    assert Later(limit, left, now, u) < 1.0 <==> dt * r < x;
    if dt < x / r {
      assert Later(limit, left, now, u) == left + dt * r;
      assert Wait(limit, left + dt * r) == (x - dt * r) / r;
    }
  }

  lemma Reaches(x: real, dt: real, r: real)
    requires r > 0.0
    ensures dt * r < x <==> dt < x / r
    ensures (x - dt * r) / r == x / r - dt
  {
    Inverse(x, r);
    if dt < x / r {
      assert (x / r - dt) * r > 0.0;
    } else {
      Scaled(x / r, dt, r);
    }
  }

  /** A refused caller is told exactly how long: whatever else is called meanwhile, every call of
      theirs before that time is refused and told the rest of it, so refused calls cost nothing, and
      a call at that time or later is granted. */
  lemma WaitIsExact(l: Limiter, now: real, key: Key, ops: seq<Op>, u: real)
    requires Good(l, now) && AllSame(l.limit, ops) && Clocked(ops, now) && now <= u && Until(ops, |ops|, u)
    requires Take(l, now, key).1 > 0.0
    requires forall i :: 0 <= i < |ops| && ops[i].Call? && ops[i].key == key ==> ops[i].now < now + Take(l, now, key).1
    ensures forall i :: 0 <= i < |ops| && ops[i].Call? && ops[i].key == key ==>
              Answer(Take(l, now, key).0, ops, i) == now + Take(l, now, key).1 - ops[i].now
    ensures Take(After(Take(l, now, key).0, ops), u, key).1 == 0.0 <==> u >= now + Take(l, now, key).1
  {
    var m, left := Take(l, now, key).0, Level(l, key, now);
    TakeLevels(l, now, key, key, now);
    WaitIsZero(l.limit, left);
    forall t | now <= t ensures Level(m, key, t) == Later(l.limit, left, now, t) {
      TakeLevels(l, now, key, key, t);
    }
    forall i | 0 <= i < |ops| && ops[i].Call? && ops[i].key == key
      ensures Later(l.limit, left, now, ops[i].now) < 1.0
    {
      ReachesOne(l.limit, left, now, ops[i].now);
    }
    forall i | 0 <= i < |ops| && ops[i].Call? && ops[i].key == key
      ensures Answer(m, ops, i) == now + Take(l, now, key).1 - ops[i].now
    {
      ReachesOne(l.limit, left, now, ops[i].now);
      NothingSpent(m, now, key, left, ops, i, ops[i].now);
      AnswerIsWait(m, ops, now, i);
    }
    assert ops[..|ops|] == ops;
    NothingSpent(m, now, key, left, ops, |ops|, u);
    ReachesOne(l.limit, left, now, u);
    TakeLevels(After(m, ops), u, key, key, u);
    WaitIsZero(l.limit, Level(After(m, ops), key, u));
  }

  // ------------------------------------------------------------------ a caller who keeps to the rate

  /** Calls of one key are at least per_s / calls apart. */
  predicate Spaced(ops: seq<Op>, key: Key, gap: real) {
    forall i, j :: 0 <= i < j < |ops| && ops[i].Call? && ops[j].Call? && ops[i].key == key && ops[j].key == key ==>
      ops[j].now - ops[i].now >= gap
  }

  /** A level of one is back a gap after it was spent on, and stays when others call. */
  lemma OneAfterCall(m: Limiter, at: real, k: Key, key: Key, t: real)
    requires Good(m, at) && at <= t && Level(m, key, at) >= 1.0
    requires k == key ==> t - at >= m.limit.per / m.limit.calls as real
    ensures Level(Take(m, at, k).0, key, t) >= 1.0
  {
    CallLeaves(m, at, k, key, t);
    if k == key {
      OneRefills(m.limit, Level(m, key, at) - 1.0, at, t);
    } else {
      LaterTwice(m.limit, Level(m, key, at), at, t, t);
      LevelLater(m, key, at, t);
    }
  }

  predicate Rested(ops: seq<Op>, key: Key, j: nat, t: real, gap: real) {
    forall i :: 0 <= i < j && i < |ops| && ops[i].Call? && ops[i].key == key ==> t - ops[i].now >= gap
  }

  lemma {:induction false} AlwaysOne(l: Limiter, ops: seq<Op>, start: real, key: Key, j: nat, t: real)
    requires Good(l, start)
    requires AllSame(l.limit, ops)
    requires Clocked(ops, start)
    requires j <= |ops| && start <= t && Until(ops, j, t)
    requires Spaced(ops, key, l.limit.per / l.limit.calls as real)
    requires Level(l, key, start) >= 1.0
    requires Rested(ops, key, j, t, l.limit.per / l.limit.calls as real)
    ensures Good(After(l, ops[..j]), t)
    ensures Level(After(l, ops[..j]), key, t) >= 1.0
    decreases j
  {
    RunOk(l, ops, start, j, t);
    if j == 0 {
      LevelLater(l, key, start, t);
    } else if ops[j - 1].Reattach? {
      AfterStep(l, ops, j - 1);
      AlwaysOne(l, ops, start, key, j - 1, t);
    } else {
      AlwaysOneCall(l, ops, start, key, j, t);
    }
  }

  lemma {:induction false} AlwaysOneCall(l: Limiter, ops: seq<Op>, start: real, key: Key, j: nat, t: real)
    requires Good(l, start)
    requires AllSame(l.limit, ops)
    requires Clocked(ops, start)
    requires 0 < j <= |ops| && start <= t && Until(ops, j, t)
    requires ops[j - 1].Call?
    requires Spaced(ops, key, l.limit.per / l.limit.calls as real)
    requires Level(l, key, start) >= 1.0
    requires Rested(ops, key, j, t, l.limit.per / l.limit.calls as real)
    ensures Level(After(l, ops[..j]), key, t) >= 1.0
    decreases j, 0
  {
    var at, k := ops[j - 1].now, ops[j - 1].key;
    AfterStep(l, ops, j - 1);
    if k == key {
      AlwaysOne(l, ops, start, key, j - 1, at);
      OneAfterCall(After(l, ops[..j - 1]), at, k, key, t);
    } else {
      RunOk(l, ops, start, j - 1, at);
      OkLater(After(l, ops[..j - 1]), at, t);
      TakeLevels(After(l, ops[..j - 1]), at, k, key, t);
      AlwaysOne(l, ops, start, key, j - 1, t);
    }
  }

  lemma OneRefills(limit: Limit, left: real, now: real, u: real)
    requires Sound(limit) && left >= 0.0 && u - now >= limit.per / limit.calls as real
    ensures Later(limit, left, now, u) >= 1.0
  {
    Scaled(limit.per / limit.calls as real, u - now, Rate(limit));
    GapFillsOne(limit.per, limit.calls as real);
    assert limit.burst as real >= 1.0;
    assert Refill(limit, now, u) >= 1.0;
  }

  lemma GapFillsOne(p: real, c: real)
    requires p > 0.0 && c > 0.0
    ensures (p / c) * (c / p) == 1.0
  {}

  /** A caller whose calls are at least per_s / calls apart is never refused, whatever others do. */
  lemma SpacedIsNeverRefused(limit: Limit, ops: seq<Op>, start: real, key: Key, j: nat)
    requires Sound(limit)
    requires AllSame(limit, ops)
    requires Clocked(ops, start)
    requires j < |ops| && ops[j].Call? && ops[j].key == key
    requires Spaced(ops, key, limit.per / limit.calls as real)
    ensures Answer(Fresh(limit), ops, j) == 0.0
  {
    AlwaysOne(Fresh(limit), ops, start, key, j, ops[j].now);
    AnswerIsWait(Fresh(limit), ops, start, j);
  }

  // ------------------------------------------------------------------ the limit as it is configured

  /** n calls of one key at one time. */
  function AtOnce(now: real, key: Key, n: nat): seq<Op> { seq(n, i => Call(now, key)) }

  lemma {:induction false} BurstSpent(limit: Limit, now: real, key: Key, n: nat, j: nat)
    requires Sound(limit) && j <= n && j <= limit.burst
    ensures AllSame(limit, AtOnce(now, key, n)) && Clocked(AtOnce(now, key, n), now)
    ensures var l := After(Fresh(limit), AtOnce(now, key, n)[..j]);
            Good(l, now) && Level(l, key, now) == (limit.burst - j) as real
  {
    var ops := AtOnce(now, key, n);
    assert AllSame(limit, ops) && Clocked(ops, now);
    if j > 0 {
      BurstSpent(limit, now, key, n, j - 1);
      AfterStep(Fresh(limit), ops, j - 1);
      var l := After(Fresh(limit), ops[..j - 1]);
      TakeLevels(l, now, key, key, now);
      LaterTwice(limit, Level(l, key, now) - 1.0, now, now, now);
    }
  }

  lemma WaitForOne(limit: Limit)
    requires Sound(limit)
    ensures Wait(limit, 0.0) == limit.per / limit.calls as real
  {
    Quotients(1.0, limit.per, limit.calls as real);
  }

  /** A new limiter, as a table configures it: of calls made at once, the first `burst` are granted
      (`calls`, where the table names no burst), and the next one is told to wait for the time in
      which one token refills. */
  lemma BurstThenWait(table: Table, now: real, key: Key, j: nat)
    requires table.calls > 0 && table.per > 0.0 && (table.burst.Some? ==> table.burst.value > 0)
    ensures var burst := if table.burst.Some? then table.burst.value else table.calls;
            var l, ops := Fresh(FromTable(table)), AtOnce(now, key, burst + 1);
            && AllSame(l.limit, ops)
            && (j < burst ==> Answer(l, ops, j) == 0.0)
            && Answer(l, ops, burst) == table.per / table.calls as real
  {
    var limit := FromTable(table);
    var ops := AtOnce(now, key, limit.burst + 1);
    BurstSpent(limit, now, key, limit.burst + 1, limit.burst);
    AnswerIsWait(Fresh(limit), ops, now, limit.burst);
    WaitForOne(limit);
    if j < limit.burst {
      BurstSpent(limit, now, key, limit.burst + 1, j);
      AnswerIsWait(Fresh(limit), ops, now, j);
    }
  }

  // ------------------------------------------------------------------ memory

  /** How long an empty bucket takes to fill. */
  function FillTime(limit: Limit): real
    requires Sound(limit)
  {
    limit.burst as real * limit.per / limit.calls as real
  }

  /** Since the last sweep, or not yet full at it. */
  ghost predicate Kept(l: Limiter) {
    && (l.buckets != map[] ==> l.swept.Some?)
    && forall k <- l.buckets :: l.swept.Some? ==> KeptBucket(l.buckets[k], l.limit, l.swept.value)
  }

  predicate KeptBucket(b: Bucket, limit: Limit, swept: real) {
    Sound(limit) && (b.at >= swept || swept - b.at < FillTime(limit))
  }

  lemma NotFullIsRecent(b: Bucket, limit: Limit, now: real)
    requires Sound(limit) && BucketOk(b, limit, now) && !Full(b, limit, now)
    ensures KeptBucket(b, limit, now)
  {
    Fills(limit.burst as real, limit.per, limit.calls as real, now - b.at);
  }

  lemma Fills(b: real, p: real, c: real, dt: real)
    requires p > 0.0 && c > 0.0
    ensures dt * (c / p) < b ==> dt < b * p / c
  {
    Reaches(b, dt, c / p);
    Quotients(b, p, c);
  }

  lemma Quotients(b: real, p: real, c: real)
    requires p > 0.0 && c > 0.0
    ensures b / (c / p) == b * p / c
  {
    Inverse(b, c / p);
    Inverse(c, p);
    Inverse(b * p, c);
    var x := b / (c / p);
    assert x * c == x * ((c / p) * p) == (x * (c / p)) * p == b * p;
    Unique(x, b * p / c, c);
  }

  lemma Unique(x: real, y: real, c: real)
    requires c > 0.0 && x * c == y * c
    ensures x == y
  {
    Cancel(x, c);
    Cancel(y, c);
  }

  lemma Cancel(a: real, r: real)
    requires r > 0.0
    ensures (a * r) / r == a
  {}

  lemma TakeKept(l: Limiter, now: real, key: Key)
    requires Good(l, now) && Kept(l) && (l.swept.Some? ==> l.swept.value <= now)
    ensures var l' := Take(l, now, key).0;
            Kept(l') && l'.swept.Some? && l'.swept.value <= now && now - l'.swept.value < l.limit.per
  {
    var sw := Sweep(l, now);
    forall k | k in sw.buckets ensures KeptBucket(sw.buckets[k], l.limit, sw.swept.value) {
      if sw != l { NotFullIsRecent(l.buckets[k], l.limit, now); }
    }
  }

  lemma {:induction false} RunKept(l: Limiter, ops: seq<Op>, start: real, j: nat, t: real)
    requires Good(l, start) && l == Fresh(l.limit) && AllSame(l.limit, ops) && Clocked(ops, start)
    requires j <= |ops| && start <= t && Until(ops, j, t)
    ensures Good(After(l, ops[..j]), t) && Kept(After(l, ops[..j]))
    ensures After(l, ops[..j]).swept.Some? ==> After(l, ops[..j]).swept.value <= t
  {
    RunOk(l, ops, start, j, t);
    if j > 0 {
      AfterStep(l, ops, j - 1);
      match ops[j - 1]
      case Reattach(_) => RunKept(l, ops, start, j - 1, t);
      case Call(at, k) =>
        RunKept(l, ops, start, j - 1, at);
        TakeKept(After(l, ops[..j - 1]), at, k);
    }
  }

  /** Every bucket there is after a take was touched within per_s + burst * per_s / calls seconds. */
  lemma NoStaleBuckets(limit: Limit, ops: seq<Op>, start: real, j: nat, key: Key)
    requires Sound(limit) && AllSame(limit, ops) && Clocked(ops, start) && j < |ops| && ops[j].Call?
    requires key in After(Fresh(limit), ops[..j + 1]).buckets
    ensures ops[j].now - After(Fresh(limit), ops[..j + 1]).buckets[key].at
          < limit.per + FillTime(limit)
  {
    var l, now := Fresh(limit), ops[j].now;
    AfterStep(l, ops, j);
    RunKept(l, ops, start, j, now);
    TakeKept(After(l, ops[..j]), now, ops[j].key);
    KeptIsRecent(After(l, ops[..j + 1]), now, key);
  }

  lemma KeptIsRecent(l: Limiter, now: real, key: Key)
    requires Sound(l.limit) && Kept(l) && key in l.buckets
    requires l.swept.Some? && l.swept.value <= now && now - l.swept.value < l.limit.per
    ensures now - l.buckets[key].at < l.limit.per + FillTime(l.limit)
  {
    assert KeptBucket(l.buckets[key], l.limit, l.swept.value);
    Fills(l.limit.burst as real, l.limit.per, l.limit.calls as real, 0.0);
  }
}
