/** What the cache of the exchanger is sure to hold: nothing leaves it before its time. */
module TokenExchangeCache {
  import opened Wrappers
  import opened TokenExchangeState
  import opened TokenExchangeProofs

  /** The keys put or found in the cache after k was. */
  function UsedSince(lastUse: map<Key, nat>, k: Key): set<Key> {
    set j | j in lastUse && k in lastUse && lastUse[j] > lastUse[k]
  }

  predicate Crowded(lastUse: map<Key, nat>, k: Key) { k in lastUse && |UsedSince(lastUse, k)| >= MAX_ENTRIES }

  predicate Over(log: seq<Issue>, n: nat, now: real) {
    n < |log| && log[n].lifetime.Some? && now >= log[n].at + (log[n].lifetime.value - SKEW)
  }

  /** The last token kept for k is cached, or its time is over, or too many others were used since. */
  predicate Accounted(cache: seq<Entry>, log: seq<Issue>, lastUse: map<Key, nat>, now: real, k: Key) {
    k in Unbounded(log) ==> Has(cache, k) || Over(log, Unbounded(log)[k], now) || Crowded(lastUse, k)
  }

  ghost predicate Used(log: seq<Issue>, lastUse: map<Key, nat>, uses: nat) {
    && (forall k :: k in lastUse ==> lastUse[k] < uses)
    && (forall k :: k in Unbounded(log) ==> k in lastUse)
  }

  ghost predicate Complete(s: State) {
    && Used(s.log, s.lastUse, s.uses) && (forall c <- s.callers :: c < s.next)
    && forall k :: Accounted(s.cache, s.log, s.lastUse, s.now, k)
  }

  // ------------------------------------------------------------------ counting uses

  lemma UsedAgain(lastUse: map<Key, nat>, uses: nat, key: Key, k: Key)
    requires forall j :: j in lastUse ==> lastUse[j] < uses
    requires k != key && Crowded(lastUse, k)
    ensures Crowded(lastUse[key := uses], k)
  {
    assert UsedSince(lastUse, k) <= UsedSince(lastUse[key := uses], k);
    FewerElements(UsedSince(lastUse, k), UsedSince(lastUse[key := uses], k));
  }

  function KeysOf(cache: seq<Entry>): set<Key> { set e | e in cache :: e.key }

  lemma {:induction false} KeysCount(cache: seq<Entry>, lastUse: map<Key, nat>, uses: nat)
    requires Sorted(cache, lastUse, uses)
    ensures |KeysOf(cache)| == |cache|
  {
    if cache != [] {
      var n := |cache| - 1;
      var less, e := cache[..n], cache[n];
      assert cache == less + [e];
      assert KeysOf(cache) == KeysOf(less) + {e.key};
      forall i | 0 <= i < n ensures less[i].key != e.key {
        SortedDiffer(cache, lastUse, uses, i, n);
      }
      KeysCount(less, lastUse, uses);
    }
  }

  /** What is pushed out of a full cache is crowded out: all that stays was used after it. */
  lemma PushedOut(cache: seq<Entry>, lastUse: map<Key, nat>, uses: nat, i: nat, d: nat)
    requires Sorted(cache, lastUse, uses) && i < d && d + MAX_ENTRIES == |cache|
    ensures Crowded(lastUse, cache[i].key)
  {
    var r, k := cache[d..], cache[i].key;
    assert Cut(cache, 0, d, r);
    CutSorted(cache, 0, d, r, lastUse, uses);
    KeysCount(r, lastUse, uses);
    forall j | j in KeysOf(r) ensures j in UsedSince(lastUse, k) {
      var e :| e in r && e.key == j;
      var n :| 0 <= n < |r| && r[n] == e;
      assert cache[n + d] == e;
    }
    FewerElements(KeysOf(r), UsedSince(lastUse, k));
  }

  // ------------------------------------------------------------------ the steps

  lemma UnboundedAppend(log: seq<Issue>, x: Issue)
    ensures Unbounded(log + [x]) == if Keepable(x.lifetime) then Unbounded(log)[x.key := |log|] else Unbounded(log)
  {
    assert (log + [x])[..|log|] == log;
  }

  lemma LaterAccounted(cache: seq<Entry>, log: seq<Issue>, lastUse: map<Key, nat>, was: real, now: real, k: Key)
    requires Accounted(cache, log, lastUse, was, k) && was <= now
    ensures Accounted(cache, log, lastUse, now, k)
  {
  }

  lemma HasAppend(cache: seq<Entry>, e: Entry, k: Key)
    ensures Has(cache + [e], e.key) && (Has(cache, k) ==> Has(cache + [e], k))
  {
    assert (cache + [e])[|cache|] == e;
    if i :| 0 <= i < |cache| && cache[i].key == k {
      assert (cache + [e])[i] == cache[i];
    }
  }

  lemma HitHas(cache: seq<Entry>, key: Key, k: Key)
    requires Find(cache, key) < |cache|
    ensures Has(cache, k) ==> Has(Without(cache, key) + [cache[Find(cache, key)]], k)
  {
    HasAppend(Without(cache, key), cache[Find(cache, key)], k);
    if k != key && Has(cache, k) { MissHas(cache, key, k); }
  }

  lemma HitComplete(s: State, key: Key, now: real)
    requires Complete(s) && AskOk(s, key, now) && Hit(s, key, now)
    ensures Complete(Ask(s, key, now))
  {
    var s' := Ask(s, key, now);
    forall k ensures Accounted(s'.cache, s'.log, s'.lastUse, now, k) {
      LaterAccounted(s.cache, s.log, s.lastUse, s.now, now, k);
      HitHas(s.cache, key, k);
      HitHas(s.cache, key, key);
      FindHas(s.cache, key);
      if k != key && Crowded(s.lastUse, k) { UsedAgain(s.lastUse, s.uses, key, k); }
    }
  }

  lemma FindHas(cache: seq<Entry>, key: Key)
    ensures Has(cache, key) <==> Find(cache, key) < |cache|
  {
    if Find(cache, key) < |cache| {
      assert cache[Find(cache, key)].key == key;
    }
  }

  /** An entry is the last token kept for its key, until its time is over. */
  lemma EntryIsLast(cache: seq<Entry>, log: seq<Issue>, i: nat)
    requires Sound(cache, log) && i < |cache|
    ensures var e := cache[i];
      && e.key in Unbounded(log) && Unbounded(log)[e.key] == e.issue && e.issue < |log|
      && e.token == log[e.issue].token && log[e.issue].lifetime.Some?
      && e.until == log[e.issue].at + (log[e.issue].lifetime.value - SKEW)
  {
    var e := cache[i];
    assert Backed(e, log) && Newest(e, log);
    LastIsKept(log, e.issue);
  }

  lemma MissHas(cache: seq<Entry>, key: Key, k: Key)
    requires k != key && Has(cache, k)
    ensures Has(Without(cache, key), k)
  {
    var i, r := Find(cache, key), Without(cache, key);
    var j :| 0 <= j < |cache| && cache[j].key == k;
    if i < |cache| {
      assert r[if j < i then j else j - 1] == cache[j];
    }
  }

  lemma MissComplete(s: State, key: Key, now: real)
    requires Sound(s.cache, s.log) && Complete(s) && AskOk(s, key, now) && !Hit(s, key, now)
    ensures Complete(Ask(s, key, now))
  {
    var s' := Ask(s, key, now);
    FindHas(s.cache, key);
    forall k ensures Accounted(s'.cache, s'.log, s'.lastUse, now, k) {
      LaterAccounted(s.cache, s.log, s.lastUse, s.now, now, k);
      if k == key {
        if Has(s.cache, key) { EntryIsLast(s.cache, s.log, Find(s.cache, key)); }
      } else if Has(s.cache, k) {
        MissHas(s.cache, key, k);
      }
    }
  }

  lemma StoredHas(cache: seq<Entry>, e: Entry, lastUse: map<Key, nat>, uses: nat, k: Key)
    requires Sorted(cache + [e], lastUse, uses) && |cache| <= MAX_ENTRIES
    ensures Has(Trim(cache + [e]), e.key)
    ensures Has(cache, k) ==> Has(Trim(cache + [e]), k) || Crowded(lastUse, k)
  {
    var grown := cache + [e];
    var r := Trim(grown);
    assert r[|r| - 1] == e;
    if Has(cache, k) {
      var i :| 0 <= i < |cache| && cache[i].key == k;
      assert grown[i] == cache[i];
      var d := |grown| - |r|;
      if i < d {
        PushedOut(grown, lastUse, uses, i, d);
      } else {
        assert r[i - d] == cache[i];
      }
    }
  }

  lemma GrantComplete(s: State, t: Id, token: Token, lifetime: Option<real>, now: real)
    requires Inv(s) && Complete(s) && EndOk(s, t, now)
    ensures Complete(Grant(s, t, token, lifetime, now))
  {
    var s', key := Grant(s, t, token, lifetime, now), s.tasks[t].key;
    var x := Issue(key, token, now, lifetime);
    UnboundedAppend(s.log, x);
    GrantShape(s, t, token, lifetime, now);
    forall k ensures Accounted(s'.cache, s'.log, s'.lastUse, now, k) {
      LaterAccounted(s.cache, s.log, s.lastUse, s.now, now, k);
      LogKeepsOver(s.log, x, now, k);
      if Keepable(lifetime) {
        var e := Entry(key, token, now + (lifetime.value - SKEW), |s.log|);
        LogGrows(s.cache, s.log, x);
        AppendKeeps(s.cache, e, s'.log, s.lastUse, s.uses);
        StoredHas(s.cache, e, s'.lastUse, s'.uses, k);
        if k != key && Crowded(s.lastUse, k) { UsedAgain(s.lastUse, s.uses, key, k); }
      }
    }
  }

  lemma LogKeepsOver(log: seq<Issue>, x: Issue, now: real, k: Key)
    ensures k in Unbounded(log) && Over(log, Unbounded(log)[k], now) ==> Over(log + [x], Unbounded(log)[k], now)
  {
  }

  lemma CompleteStep(s: State, e: Event)
    requires Inv(s) && Complete(s) && Enabled(s, e)
    ensures Complete(Step(s, e))
  {
    match e
    case DoAsk(key, now) => if Hit(s, key, now) { HitComplete(s, key, now); } else { MissComplete(s, key, now); }
    case DoGrant(t, token, lifetime, now) => GrantComplete(s, t, token, lifetime, now);
    case _ =>
      forall k ensures Accounted(s.cache, s.log, s.lastUse, Step(s, e).now, k) {
        LaterAccounted(s.cache, s.log, s.lastUse, s.now, Step(s, e).now, k);
      }
  }

  lemma {:induction false} CompleteRun(now: real, es: seq<Event>)
    requires Legal(Init(now), es)
    ensures Complete(After(Init(now), es))
    decreases |es|
  {
    if es != [] {
      CompleteRun(now, es[..|es| - 1]);
      RunKeeps(now, es[..|es| - 1]);
      CompleteStep(After(Init(now), es[..|es| - 1]), es[|es| - 1]);
    }
  }

  lemma ReachedComplete(s: State)
    requires Reached(s)
    ensures Complete(s)
  {
    var now, es :| Legal(Init(now), es) && s == After(Init(now), es);
    CompleteRun(now, es);
  }

  // ------------------------------------------------------------------ who is answered from the cache

  /** A token is issued once as long as it lasts: whoever asks again more than 30 s before the last
      one kept for them expires, and before 1024 others have been used, gets that one at once, and
      nothing is exchanged. */
  lemma KeptTokenServes(s: State, key: Key, now: real)
    requires Reached(s) && AskOk(s, key, now) && key in Unbounded(s.log)
    requires var x := s.log[Unbounded(s.log)[key]]; x.lifetime.Some? ==> now + 30.0 < x.at + x.lifetime.value
    requires |UsedSince(s.lastUse, key)| < 1024
    ensures var s', n := Ask(s, key, now), Unbounded(s.log)[key];
      && s'.answers == s.answers + [Answer(key, s.log[n].token, now, true, n)]
      && s'.tasks == s.tasks && s'.inflight == s.inflight && s'.callers == s.callers
  {
    ReachedInv(s);
    ReachedComplete(s);
    assert Accounted(s.cache, s.log, s.lastUse, s.now, key);
    FindHas(s.cache, key);
    EntryIsLast(s.cache, s.log, Find(s.cache, key));
  }

  predicate Live(cache: seq<Entry>, key: Key, now: real) {
    exists i :: 0 <= i < |cache| && cache[i].key == key && cache[i].until > now
  }

  lemma LiveIsHit(s: State, key: Key, now: real)
    requires Sorted(s.cache, s.lastUse, s.uses)
    ensures Hit(s, key, now) <==> Live(s.cache, key, now)
  {
    FindHas(s.cache, key);
    forall i, j | 0 <= i < j < |s.cache| ensures s.cache[i].key != s.cache[j].key {
      SortedDiffer(s.cache, s.lastUse, s.uses, i, j);
    }
  }

  /** Exactly a live entry answers at once ... */
  lemma LiveAnswers(s: State, key: Key, now: real)
    requires Reached(s) && AskOk(s, key, now)
    ensures Live(s.cache, key, now) <==> |Ask(s, key, now).answers| == |s.answers| + 1
    ensures Live(s.cache, key, now) <==> Ask(s, key, now).callers == s.callers
  {
    ReachedInv(s);
    ReachedComplete(s);
    LiveIsHit(s, key, now);
    assert s.next !in s.callers && s.next + 1 !in s.callers;
  }

  /** ... and whoever is not answered waits: for the exchange in flight for their token, or for a new
      one. */
  lemma OthersWait(s: State, key: Key, now: real)
    requires Reached(s) && AskOk(s, key, now) && !Live(s.cache, key, now)
    ensures var s' := Ask(s, key, now);
      && key in s'.inflight && s'.inflight[key] in s'.tasks && s'.tasks[s'.inflight[key]].key == key
      && (key in s.inflight ==> s'.inflight == s.inflight && s'.tasks == s.tasks)
      && exists c :: c !in s.callers && s'.callers == s.callers[c := Caller(key, s'.inflight[key])]
  {
    ReachedInv(s);
    ReachedComplete(s);
    LiveIsHit(s, key, now);
    var c := if key in s.inflight then s.next else s.next + 1;
    assert c !in s.callers;
  }

  /** A waiter gets what its exchange was issued, for its own token. */
  lemma WaitersAreAnswered(s: State, c: Id, now: real)
    requires Reached(s) && WakeOk(s, c, now) && s.tasks[s.callers[c].task].progress.Issued?
    ensures var n := s.tasks[s.callers[c].task].progress.issue;
      && n < |s.log| && s.log[n].key == s.callers[c].key
      && Wake(s, c, now).answers == s.answers + [Answer(s.callers[c].key, s.log[n].token, now, false, n)]
      && Wake(s, c, now).callers == s.callers - {c}
  {
    ReachedInv(s);
  }
}
