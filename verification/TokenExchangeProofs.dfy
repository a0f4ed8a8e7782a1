/** What every step of TokenExchangeState keeps, and what holds after every sequence of steps. */
module TokenExchangeProofs {
  import opened Wrappers
  import opened TokenExchangeState

  // ------------------------------------------------------------------ the invariant

  /** An entry is what the last issue for its key put there, until SKEW before that expires. */
  predicate Backed(e: Entry, log: seq<Issue>) {
    && e.issue < |log| && log[e.issue].key == e.key && log[e.issue].token == e.token
    && Keepable(log[e.issue].lifetime)
    && e.until == log[e.issue].at + (log[e.issue].lifetime.value - SKEW)
  }

  ghost predicate Newest(e: Entry, log: seq<Issue>) {
    forall n :: e.issue < n < |log| ==> log[n].key != e.key
  }

  ghost predicate Sound(cache: seq<Entry>, log: seq<Issue>) {
    forall i :: 0 <= i < |cache| ==> Backed(cache[i], log) && Newest(cache[i], log)
  }

  /** Least recently used first. */
  ghost predicate Sorted(cache: seq<Entry>, lastUse: map<Key, nat>, uses: nat) {
    && (forall i :: 0 <= i < |cache| ==> cache[i].key in lastUse && lastUse[cache[i].key] < uses)
    && (forall i, j :: 0 <= i < j < |cache| && cache[i].key in lastUse && cache[j].key in lastUse ==>
          lastUse[cache[i].key] < lastUse[cache[j].key])
  }

  predicate Has(cache: seq<Entry>, key: Key) { exists i :: 0 <= i < |cache| && cache[i].key == key }

  /** A running exchange is the one everybody finds, and its key is not cached. */
  ghost predicate Single(tasks: map<Id, Task>, inflight: map<Key, Id>) {
    && (forall t <- tasks :: tasks[t].progress.Running? ==>
          tasks[t].key in inflight && inflight[tasks[t].key] == t && !tasks[t].settled)
    && (forall k <- inflight :: inflight[k] in tasks && tasks[inflight[k]].key == k)
  }

  ghost predicate Uncached(tasks: map<Id, Task>, cache: seq<Entry>) {
    forall t <- tasks :: tasks[t].progress.Running? ==> !Has(cache, tasks[t].key)
  }

  ghost predicate Finished(tasks: map<Id, Task>, log: seq<Issue>) {
    forall t <- tasks :: tasks[t].progress.Issued? ==>
      tasks[t].progress.issue < |log| && log[tasks[t].progress.issue].key == tasks[t].key
  }

  ghost predicate Waiting(callers: map<Id, Caller>, tasks: map<Id, Task>) {
    forall c <- callers :: callers[c].task in tasks && tasks[callers[c].task].key == callers[c].key
  }

  predicate Own(a: Answer, log: seq<Issue>) {
    && a.issue < |log| && log[a.issue].key == a.key && log[a.issue].token == a.token && log[a.issue].at <= a.at
    && (a.cached ==> log[a.issue].lifetime.Some? && a.at < log[a.issue].at + (log[a.issue].lifetime.value - SKEW))
  }

  ghost predicate Answered(answers: seq<Answer>, log: seq<Issue>) {
    forall i :: 0 <= i < |answers| ==> Own(answers[i], log)
  }

  ghost predicate Past(log: seq<Issue>, now: real) {
    forall n :: 0 <= n < |log| ==> log[n].at <= now
  }

  ghost predicate Ids(tasks: map<Id, Task>, next: Id) {
    forall t <- tasks :: t < next
  }

  ghost predicate Inv(s: State) {
    && |s.cache| <= MAX_ENTRIES
    && Sound(s.cache, s.log)
    && Sorted(s.cache, s.lastUse, s.uses)
    && Single(s.tasks, s.inflight)
    && Uncached(s.tasks, s.cache)
    && Finished(s.tasks, s.log)
    && Waiting(s.callers, s.tasks)
    && Answered(s.answers, s.log)
    && Past(s.log, s.now)
    && Ids(s.tasks, s.next)
  }

  lemma InitKeeps(now: real)
    ensures Inv(Init(now))
  {}

  // ------------------------------------------------------------------ the cache

  /** `r` is `cache` with n items from position a taken out. */
  predicate Cut(cache: seq<Entry>, a: nat, n: nat, r: seq<Entry>) {
    && a + n <= |cache| == |r| + n
    && (forall j :: 0 <= j < |r| ==> r[j] == cache[if j < a then j else j + n])
  }

  lemma CutSound(cache: seq<Entry>, a: nat, n: nat, r: seq<Entry>, log: seq<Issue>)
    requires Cut(cache, a, n, r) && Sound(cache, log)
    ensures Sound(r, log)
  {
    forall j | 0 <= j < |r| ensures Backed(r[j], log) && Newest(r[j], log) {
      assert r[j] == cache[if j < a then j else j + n];
    }
  }

  lemma CutSorted(cache: seq<Entry>, a: nat, n: nat, r: seq<Entry>, lastUse: map<Key, nat>, uses: nat)
    requires Cut(cache, a, n, r) && Sorted(cache, lastUse, uses)
    ensures Sorted(r, lastUse, uses)
  {
    forall i, j | 0 <= i < j < |r|
      ensures r[i].key in lastUse && r[j].key in lastUse && lastUse[r[i].key] < lastUse[r[j].key]
    {
      assert r[i] == cache[if i < a then i else i + n];
      assert r[j] == cache[if j < a then j else j + n];
    }
    forall i | 0 <= i < |r| ensures r[i].key in lastUse && lastUse[r[i].key] < uses {
      assert r[i] == cache[if i < a then i else i + n];
    }
  }

  lemma CutHas(cache: seq<Entry>, a: nat, n: nat, r: seq<Entry>, key: Key)
    requires Cut(cache, a, n, r) && Has(r, key)
    ensures Has(cache, key)
  {
    var j :| 0 <= j < |r| && r[j].key == key;
    assert cache[if j < a then j else j + n].key == key;
  }

  lemma SortedDiffer(cache: seq<Entry>, lastUse: map<Key, nat>, uses: nat, i: nat, j: nat)
    requires Sorted(cache, lastUse, uses) && i < |cache| && j < |cache| && i != j
    ensures cache[i].key != cache[j].key
  {
    assert cache[i].key in lastUse && cache[j].key in lastUse;
  }

  lemma WithoutIsCut(cache: seq<Entry>, key: Key)
    ensures var i := Find(cache, key); Cut(cache, i, if i < |cache| then 1 else 0, Without(cache, key))
    ensures Has(cache, key) ==> |Without(cache, key)| == |cache| - 1
  {}

  lemma WithoutHasNot(cache: seq<Entry>, key: Key, lastUse: map<Key, nat>, uses: nat)
    requires Sorted(cache, lastUse, uses)
    ensures !Has(Without(cache, key), key)
  {
    var i, r := Find(cache, key), Without(cache, key);
    WithoutIsCut(cache, key);
    if i < |cache| {
      forall j | 0 <= j < |r| ensures r[j].key != key {
        assert r[j] == cache[if j < i then j else j + 1];
        SortedDiffer(cache, lastUse, uses, i, if j < i then j else j + 1);
      }
    }
  }

  lemma WithoutKeeps(cache: seq<Entry>, key: Key, log: seq<Issue>, lastUse: map<Key, nat>, uses: nat)
    requires Sound(cache, log) && Sorted(cache, lastUse, uses)
    ensures var r := Without(cache, key);
            && Sound(r, log) && Sorted(r, lastUse, uses) && !Has(r, key)
            && (Has(cache, key) ==> |r| == |cache| - 1)
            && (forall k :: Has(r, k) ==> Has(cache, k))
  {
    var i, r := Find(cache, key), Without(cache, key);
    var n := if i < |cache| then 1 else 0;
    WithoutIsCut(cache, key);
    WithoutHasNot(cache, key, lastUse, uses);
    CutSound(cache, i, n, r, log);
    CutSorted(cache, i, n, r, lastUse, uses);
    forall k | Has(r, k) ensures Has(cache, k) { CutHas(cache, i, n, r, k); }
  }

  lemma AppendKeeps(cache: seq<Entry>, e: Entry, log: seq<Issue>, lastUse: map<Key, nat>, uses: nat)
    requires Sound(cache, log) && Sorted(cache, lastUse, uses) && !Has(cache, e.key)
    requires Backed(e, log) && Newest(e, log)
    ensures var r := cache + [e];
            && Sound(r, log) && Sorted(r, lastUse[e.key := uses], uses + 1)
            && (forall k :: Has(r, k) ==> Has(cache, k) || k == e.key)
  {
    assert forall i :: 0 <= i < |cache| ==> cache[i].key != e.key;
  }

  lemma TrimKeeps(cache: seq<Entry>, log: seq<Issue>, lastUse: map<Key, nat>, uses: nat)
    requires Sound(cache, log) && Sorted(cache, lastUse, uses)
    ensures var r := Trim(cache);
            && Sound(r, log) && Sorted(r, lastUse, uses) && |r| <= MAX_ENTRIES
            && (forall k :: Has(r, k) ==> Has(cache, k))
  {
    var r := Trim(cache);
    var d := |cache| - |r|;
    assert Cut(cache, 0, d, r);
    CutSound(cache, 0, d, r, log);
    CutSorted(cache, 0, d, r, lastUse, uses);
    forall k | Has(r, k) ensures Has(cache, k) { CutHas(cache, 0, d, r, k); }
  }

  lemma LogGrows(cache: seq<Entry>, log: seq<Issue>, x: Issue)
    requires Sound(cache, log) && !Has(cache, x.key)
    ensures Sound(cache, log + [x])
  {
    forall i | 0 <= i < |cache| ensures Backed(cache[i], log + [x]) && Newest(cache[i], log + [x]) {
      assert Backed(cache[i], log) && Newest(cache[i], log);
    }
  }

  // ------------------------------------------------------------------ the steps

  lemma UncachedLess(tasks: map<Id, Task>, cache: seq<Entry>, r: seq<Entry>)
    requires Uncached(tasks, cache) && forall k :: Has(r, k) ==> Has(cache, k)
    ensures Uncached(tasks, r)
  {}

  lemma HitKeeps(s: State, key: Key, now: real)
    requires Inv(s) && AskOk(s, key, now) && Hit(s, key, now)
    ensures Inv(Ask(s, key, now))
  {
    var e := s.cache[Find(s.cache, key)];
    var r := Without(s.cache, key);
    assert Backed(e, s.log) && Newest(e, s.log);
    assert Has(s.cache, key);
    WithoutKeeps(s.cache, key, s.log, s.lastUse, s.uses);
    AppendKeeps(r, e, s.log, s.lastUse, s.uses);
    UncachedLess(s.tasks, s.cache, r + [e]);
    assert Own(Answer(key, e.token, now, true, e.issue), s.log);
  }

  lemma MissTasks(s: State, key: Key, now: real)
    requires Single(s.tasks, s.inflight)
    requires Waiting(s.callers, s.tasks)
    requires Finished(s.tasks, s.log)
    requires Ids(s.tasks, s.next)
    requires AskOk(s, key, now) && !Hit(s, key, now)
    ensures var s' := Ask(s, key, now);
            && Single(s'.tasks, s'.inflight) && Waiting(s'.callers, s'.tasks)
            && Finished(s'.tasks, s'.log) && Ids(s'.tasks, s'.next)
  {}

  lemma MissKeeps(s: State, key: Key, now: real)
    requires Inv(s) && AskOk(s, key, now) && !Hit(s, key, now)
    ensures Inv(Ask(s, key, now))
  {
    var r := Without(s.cache, key);
    WithoutKeeps(s.cache, key, s.log, s.lastUse, s.uses);
    UncachedLess(s.tasks, s.cache, r);
    MissTasks(s, key, now);
    var s' := Ask(s, key, now);
    assert s'.cache == r;
    assert Uncached(s'.tasks, r);
  }

  lemma GrantCache(s: State, t: Id, token: Token, lifetime: Option<real>, now: real)
    requires Inv(s) && EndOk(s, t, now)
    ensures var s' := Grant(s, t, token, lifetime, now);
            && Sound(s'.cache, s'.log) && Sorted(s'.cache, s'.lastUse, s'.uses) && |s'.cache| <= MAX_ENTRIES
            && (forall k :: Has(s'.cache, k) ==> Has(s.cache, k) || k == s.tasks[t].key)
  {
    var key, log := s.tasks[t].key, s.log + [Issue(s.tasks[t].key, token, now, lifetime)];
    LogGrows(s.cache, s.log, log[|s.log|]);
    if Keepable(lifetime) {
      var e := Entry(key, token, now + (lifetime.value - SKEW), |s.log|);
      WithoutKeeps(s.cache, key, log, s.lastUse, s.uses);
      AppendKeeps(Without(s.cache, key), e, log, s.lastUse, s.uses);
      TrimKeeps(Without(s.cache, key) + [e], log, s.lastUse[key := s.uses], s.uses + 1);
    }
  }

  lemma GrantSingle(s: State, t: Id, token: Token, lifetime: Option<real>, now: real)
    requires Single(s.tasks, s.inflight) && Ids(s.tasks, s.next) && EndOk(s, t, now)
    ensures var s' := Grant(s, t, token, lifetime, now); Single(s'.tasks, s'.inflight) && Ids(s'.tasks, s'.next)
  {}

  lemma GrantFinished(s: State, t: Id, token: Token, lifetime: Option<real>, now: real)
    requires Waiting(s.callers, s.tasks) && Finished(s.tasks, s.log) && EndOk(s, t, now)
    ensures var s' := Grant(s, t, token, lifetime, now); Waiting(s'.callers, s'.tasks) && Finished(s'.tasks, s'.log)
  {}

  /** What still runs has another key than the exchange that just ended. */
  lemma GrantUncached(s: State, t: Id, token: Token, lifetime: Option<real>, now: real)
    requires Single(s.tasks, s.inflight) && Uncached(s.tasks, s.cache) && EndOk(s, t, now)
    requires var s' := Grant(s, t, token, lifetime, now);
             forall k :: Has(s'.cache, k) ==> Has(s.cache, k) || k == s.tasks[t].key
    ensures var s' := Grant(s, t, token, lifetime, now); Uncached(s'.tasks, s'.cache)
  {
    var s' := Grant(s, t, token, lifetime, now);
    forall u | u in s'.tasks && s'.tasks[u].progress.Running? ensures !Has(s'.cache, s'.tasks[u].key) {
      assert u != t && s.tasks[u].progress.Running?;
    }
  }

  lemma LogAppends(answers: seq<Answer>, log: seq<Issue>, x: Issue, now: real)
    requires Answered(answers, log) && Past(log, now) && now <= x.at
    ensures Answered(answers, log + [x]) && Past(log + [x], x.at)
  {
    forall i | 0 <= i < |answers| ensures Own(answers[i], log + [x]) {
      assert Own(answers[i], log);
    }
  }

  lemma GrantKeeps(s: State, t: Id, token: Token, lifetime: Option<real>, now: real)
    requires Inv(s) && EndOk(s, t, now)
    ensures Inv(Grant(s, t, token, lifetime, now))
  {
    GrantCache(s, t, token, lifetime, now);
    GrantSingle(s, t, token, lifetime, now);
    GrantFinished(s, t, token, lifetime, now);
    GrantUncached(s, t, token, lifetime, now);
    LogAppends(s.answers, s.log, Issue(s.tasks[t].key, token, now, lifetime), s.now);
  }

  lemma OtherKeeps(s: State, e: Event)
    requires Inv(s) && Enabled(s, e) && !e.DoAsk? && !e.DoGrant?
    ensures Inv(Step(s, e))
  {}

  lemma StepKeeps(s: State, e: Event)
    requires Inv(s) && Enabled(s, e)
    ensures Inv(Step(s, e))
  {
    match e
    case DoAsk(key, now) => if Hit(s, key, now) { HitKeeps(s, key, now); } else { MissKeeps(s, key, now); }
    case DoGrant(t, token, lifetime, now) => GrantKeeps(s, t, token, lifetime, now);
    case _ => OtherKeeps(s, e);
  }

  // ------------------------------------------------------------------ every run

  lemma {:induction false} RunKeeps(now: real, es: seq<Event>)
    requires Legal(Init(now), es)
    ensures Inv(After(Init(now), es))
    decreases |es|
  {
    if es == [] {
      InitKeeps(now);
    } else {
      RunKeeps(now, es[..|es| - 1]);
      StepKeeps(After(Init(now), es[..|es| - 1]), es[|es| - 1]);
    }
  }

  ghost predicate Reached(s: State) {
    exists now, es :: Legal(Init(now), es) && s == After(Init(now), es)
  }

  lemma ReachedInv(s: State)
    requires Reached(s)
    ensures Inv(s)
  {
    var now, es :| Legal(Init(now), es) && s == After(Init(now), es);
    RunKeeps(now, es);
  }

  /** At most one exchange is in flight for a caller's token. */
  lemma OneExchangePerToken(s: State, t: Id, u: Id)
    requires Reached(s) && t in s.tasks && u in s.tasks
    requires s.tasks[t].progress.Running? && s.tasks[u].progress.Running? && s.tasks[t].key == s.tasks[u].key
    ensures t == u
  {
    ReachedInv(s);
  }

  lemma HitMeansHas(s: State, key: Key, now: real)
    ensures Hit(s, key, now) ==> Has(s.cache, key)
  {}

  /** Whoever asks while it runs joins it. */
  lemma AskersJoin(s: State, t: Id, now: real)
    requires Reached(s) && t in s.tasks && s.tasks[t].progress.Running? && AskOk(s, s.tasks[t].key, now)
    ensures var s' := Ask(s, s.tasks[t].key, now);
            && s'.tasks == s.tasks && s'.answers == s.answers
            && s'.callers == s.callers[s.next := Caller(s.tasks[t].key, t)]
  {
    ReachedInv(s);
    HitMeansHas(s, s.tasks[t].key, now);
  }

  /** The cache an exchanger with no bound and no clock would have: the last issue it keeps, per key. */
  function Unbounded(log: seq<Issue>): (m: map<Key, nat>)
    ensures forall k <- m :: m[k] < |log|
  {
    if log == [] then map[]
    else
      var m, x := Unbounded(log[..|log| - 1]), log[|log| - 1];
      if Keepable(x.lifetime) then m[x.key := |log| - 1] else m
  }

  lemma {:induction false} LastIsKept(log: seq<Issue>, n: nat)
    requires n < |log| && Keepable(log[n].lifetime)
    requires forall m :: n < m < |log| ==> log[m].key != log[n].key
    ensures log[n].key in Unbounded(log) && Unbounded(log)[log[n].key] == n
  {
    if n < |log| - 1 {
      LastIsKept(log[..|log| - 1], n);
    }
  }

  /** The cache is bounded, and is a part of the unbounded one. */
  lemma CacheIsSubmap(s: State, i: nat)
    requires Reached(s) && i < |s.cache|
    ensures |s.cache| <= 1024
    ensures var e, m := s.cache[i], Unbounded(s.log);
            && e.key in m && s.log[m[e.key]].token == e.token
            && s.log[m[e.key]].lifetime.Some?
            && e.until == s.log[m[e.key]].at + s.log[m[e.key]].lifetime.value - 30.0
    ensures forall j :: 0 <= j < |s.cache| && j != i ==> s.cache[j].key != s.cache[i].key
  {
    ReachedInv(s);
    var e := s.cache[i];
    assert Backed(e, s.log) && Newest(e, s.log);
    LastIsKept(s.log, e.issue);
    forall j | 0 <= j < |s.cache| && j != i ensures s.cache[j].key != s.cache[i].key {
      SortedDiffer(s.cache, s.lastUse, s.uses, i, j);
    }
  }

  /** Every answer carries a token issued for the asker's own token; from the cache, one that has
      more than 30 s left of the lifetime the endpoint gave it. */
  lemma AnswersAreOwnAndFresh(s: State, i: nat)
    requires Reached(s) && i < |s.answers|
    ensures var a := s.answers[i];
            && a.issue < |s.log| && s.log[a.issue].key == a.key && s.log[a.issue].token == a.token
            && (a.cached ==> s.log[a.issue].lifetime.Some?
                             && a.at + 30.0 < s.log[a.issue].at + s.log[a.issue].lifetime.value)
  {
    ReachedInv(s);
    assert Own(s.answers[i], s.log);
  }

  /** What an insertion pushes out was used before everything that stays. */
  lemma EvictsLeastRecent(s: State, t: Id, token: Token, lifetime: Option<real>, now: real, i: nat, j: nat)
    requires Reached(s) && EndOk(s, t, now) && i < |s.cache| && j < |s.cache|
    requires var s' := Grant(s, t, token, lifetime, now);
             !Has(s'.cache, s.cache[i].key) && Has(s'.cache, s.cache[j].key)
    ensures s.cache[i].key in s.lastUse && s.cache[j].key in s.lastUse
    ensures s.lastUse[s.cache[i].key] < s.lastUse[s.cache[j].key]
  {
    ReachedInv(s);
    GrantShape(s, t, token, lifetime, now);
    assert Has(s.cache, s.cache[i].key);
    var e := Entry(s.tasks[t].key, token, if Keepable(lifetime) then now + (lifetime.value - SKEW) else 0.0, |s.log|);
    EvictedFirst(s.cache, s.lastUse, s.uses, e, i, j);
  }

  lemma NothingTaken(cache: seq<Entry>, key: Key)
    requires !Has(cache, key)
    ensures Without(cache, key) == cache
  {
    FindMeansHas(cache, key);
  }

  lemma FindMeansHas(cache: seq<Entry>, key: Key)
    ensures Find(cache, key) < |cache| ==> Has(cache, key)
  {}

  lemma GrantShape(s: State, t: Id, token: Token, lifetime: Option<real>, now: real)
    requires Uncached(s.tasks, s.cache) && EndOk(s, t, now)
    ensures !Has(s.cache, s.tasks[t].key)
    ensures Grant(s, t, token, lifetime, now).cache ==
            if Keepable(lifetime)
            then Trim(s.cache + [Entry(s.tasks[t].key, token, now + (lifetime.value - SKEW), |s.log|)])
            else s.cache
  {
    NothingTaken(s.cache, s.tasks[t].key);
  }

  lemma Stays(cache: seq<Entry>, i: nat, d: nat, e: Entry)
    requires d <= i < |cache|
    ensures Has((cache + [e])[d..], cache[i].key)
  {
    assert (cache + [e])[d..][i - d] == cache[i];
  }

  lemma EvictedFirst(cache: seq<Entry>, lastUse: map<Key, nat>, uses: nat, e: Entry, i: nat, j: nat)
    requires Sorted(cache, lastUse, uses) && !Has(cache, e.key) && i < |cache| && j < |cache|
    requires !Has(Trim(cache + [e]), cache[i].key) && Has(Trim(cache + [e]), cache[j].key)
    ensures i < j
  {
    var r := Trim(cache + [e]);
    var d := |cache| + 1 - |r|;
    if i >= d { Stays(cache, i, d, e); }
    if j < d { OnlyOnce(cache, lastUse, uses, j, d, e); }
  }

  lemma OnlyOnce(cache: seq<Entry>, lastUse: map<Key, nat>, uses: nat, j: nat, d: nat, e: Entry)
    requires Sorted(cache, lastUse, uses) && j < d <= |cache| && !Has(cache, e.key)
    ensures !Has((cache + [e])[d..], cache[j].key)
  {
    var r := (cache + [e])[d..];
    forall n | 0 <= n < |r| ensures r[n].key != cache[j].key {
      assert r[n] == (cache + [e])[n + d];
      if n + d < |cache| { SortedDiffer(cache, lastUse, uses, j, n + d); }
    }
  }
}
