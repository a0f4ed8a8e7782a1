/** What every step of CalendarState keeps: where an unclosed provider is, what the counts count,
    and which users are cached. */
module CalendarInvariant {
  import opened Wrappers
  import opened CalendarState

  // ------------------------------------------------------------------ the parts

  predicate Uses(call: Call, p: Id) { !call.phase.After? && call.provider == p }

  function Users(calls: map<Id, Call>, p: Id): set<Id> {
    set c | c in calls && Uses(calls[c], p)
  }

  /** The closes somebody will still start without looking at a count. */
  function Pending(deployment: Option<Id>, disposal: Disposal): seq<Id> {
    match disposal
    case NotYet => if deployment.Some? then [deployment.value] else []
    case Closing(rest) => rest
  }

  function Held(deployment: Option<Id>, disposal: Disposal, cache: seq<Entry>, retired: seq<Id>): multiset<Id> {
    multiset(Pending(deployment, disposal)) + multiset(Providers(cache)) + multiset(retired)
  }

  predicate Unclosed(closes: map<Id, nat>, p: Id) { p in closes && closes[p] == 0 }

  /** Every unclosed provider is in one place, once, and nothing else is anywhere. */
  ghost predicate Placed(held: multiset<Id>, closes: map<Id, nat>) {
    && (forall p :: held[p] == if Unclosed(closes, p) then 1 else 0)
    && (forall p <- closes :: closes[p] <= 1)
  }

  ghost predicate Ids(calls: map<Id, Call>, closes: map<Id, nat>, next: Id) {
    && (forall c <- calls :: c < next)
    && (forall p <- closes :: p < next)
  }

  ghost predicate Counted(calls: map<Id, Call>, inflight: map<Id, nat>) {
    forall p :: (if p in inflight then inflight[p] else 0) == |Users(calls, p)|
             && (p in inflight ==> inflight[p] > 0)
  }

  ghost predicate Waiting(retired: seq<Id>, inflight: map<Id, nat>) {
    forall p <- retired :: p in inflight
  }

  ghost predicate OneAtATime(calls: map<Id, Call>) {
    forall c <- calls :: Alone(calls[c].phase)
  }

  predicate Alone(phase: Phase) { phase.Using? || phase.rest == [] }

  ghost predicate Served(calls: map<Id, Call>, deployment: Option<Id>, builtFor: map<Id, Key>) {
    forall c <- calls :: OwnProvider(calls[c], deployment, builtFor)
  }

  predicate OwnProvider(call: Call, deployment: Option<Id>, builtFor: map<Id, Key>) {
    match call.key
    case None => deployment == Some(call.provider)
    case Some(k) => call.provider in builtFor && builtFor[call.provider] == k
  }

  ghost predicate Cached(cache: seq<Entry>, builtFor: map<Id, Key>, size: int, closes: map<Id, nat>) {
    && |cache| <= Capacity(size)
    && (forall i :: 0 <= i < |cache| ==> cache[i].provider in builtFor && builtFor[cache[i].provider] == cache[i].key)
    && (forall p <- builtFor :: p in closes)
  }

  ghost predicate Safe(calls: map<Id, Call>, closes: map<Id, nat>) {
    forall c <- calls :: !calls[c].phase.After? ==> Unclosed(closes, calls[c].provider)
  }

  /** The last position of a key in a history, or -1. */
  function LastUse(history: seq<Key>, k: Key): (r: int)
    ensures -1 <= r < |history|
    ensures r >= 0 ==> history[r] == k
    ensures forall i :: r < i < |history| ==> history[i] != k
  {
    if history == [] then -1
    else if history[|history| - 1] == k then |history| - 1
    else LastUse(history[..|history| - 1], k)
  }

  predicate Older(k: Key, keys: seq<Key>, history: seq<Key>) {
    keys == [] || LastUse(history, k) < LastUse(history, keys[0])
  }

  /** The cache holds the most recently used distinct keys, oldest first, as many as fit. */
  ghost predicate Recent(keys: seq<Key>, history: seq<Key>, size: int) {
    && (forall i :: 0 <= i < |keys| ==> keys[i] in history)
    && (forall i, j :: 0 <= i < j < |keys| ==> LastUse(history, keys[i]) < LastUse(history, keys[j]))
    && (forall k <- history :: k in keys || (|keys| == Capacity(size) && Older(k, keys, history)))
  }

  ghost predicate Inv(s: State) {
    && Placed(Held(s.deployment, s.disposal, s.cache, s.retired), s.closes)
    && Ids(s.calls, s.closes, s.next)
    && Counted(s.calls, s.inflight)
    && Waiting(s.retired, s.inflight)
    && OneAtATime(s.calls)
    && Served(s.calls, s.deployment, s.builtFor)
    && Cached(s.cache, s.builtFor, s.cacheSize, s.closes)
    && (s.disposal.NotYet? ==> Safe(s.calls, s.closes))
    && Recent(Keys(s.cache), s.history, s.cacheSize)
    && (s.deployment.Some? ==> s.deployment.value in s.closes)
  }

  // ------------------------------------------------------------------ sequences and counts

  lemma FoundInKeys(cache: seq<Entry>, k: Key)
    ensures Find(cache, k) < |cache| <==> k in Keys(cache)
  {
    if Find(cache, k) < |cache| {
      assert Keys(cache)[Find(cache, k)] == k;
    }
  }

  lemma ProvidersConcat(a: seq<Entry>, b: seq<Entry>)
    ensures Providers(a + b) == Providers(a) + Providers(b)
  {}

  lemma {:induction false} IdleAndBusy(retired: seq<Id>, inflight: map<Id, nat>)
    ensures multiset(Idle(retired, inflight)) + multiset(Busy(retired, inflight)) == multiset(retired)
  {
    if retired != [] {
      var rest := retired[1..];
      IdleAndBusy(rest, inflight);
      assert multiset(retired) == multiset([retired[0]]) + multiset(rest) by { assert retired == [retired[0]] + rest; }
    }
  }

  lemma MoveKeeps<T>(s: seq<T>, i: nat)
    requires i < |s|
    ensures multiset(s[..i] + s[i + 1..] + [s[i]]) == multiset(s)
  {
    assert s == s[..i] + [s[i]] + s[i + 1..];
  }

  /** `moved` is `s` with its element `i` taken to the end. */
  predicate Moved<T(==)>(s: seq<T>, i: nat, moved: seq<T>) {
    && i < |s| == |moved|
    && (forall j :: 0 <= j < |s| - 1 ==> moved[j] == s[if j < i then j else j + 1])
    && moved[|s| - 1] == s[i]
  }

  lemma MovedSame<T(!new)>(s: seq<T>, i: nat, moved: seq<T>)
    requires Moved(s, i, moved)
    ensures multiset(moved) == multiset(s)
    ensures forall x :: x in moved <==> x in s
  {
    assert moved == s[..i] + s[i + 1..] + [s[i]];
    MoveKeeps(s, i);
    forall x ensures x in moved <==> x in s {
      assert x in moved <==> x in multiset(moved);
    }
  }

  lemma MoveToEndKeeps(cache: seq<Entry>, i: nat)
    requires i < |cache|
    ensures Moved(Keys(cache), i, Keys(MoveToEnd(cache, i)))
    ensures multiset(Providers(MoveToEnd(cache, i))) == multiset(Providers(cache))
  {
    assert Moved(cache, i, MoveToEnd(cache, i));
    MovedSame(Providers(cache), i, Providers(MoveToEnd(cache, i)));
  }

  lemma UsersAdd(calls: map<Id, Call>, c: Id, call: Call, p: Id)
    requires c !in calls
    ensures |Users(calls[c := call], p)| == |Users(calls, p)| + if Uses(call, p) then 1 else 0
  {
    if Uses(call, p) {
      assert Users(calls[c := call], p) == Users(calls, p) + {c};
    } else {
      assert Users(calls[c := call], p) == Users(calls, p);
    }
  }

  lemma UsersRemove(calls: map<Id, Call>, c: Id, p: Id)
    requires c in calls
    ensures |Users(calls - {c}, p)| == |Users(calls, p)| - if Uses(calls[c], p) then 1 else 0
  {
    var less := calls - {c};
    assert less[c := calls[c]] == calls;
    UsersAdd(less, c, calls[c], p);
  }

  lemma UsersUpdate(calls: map<Id, Call>, c: Id, call: Call, p: Id)
    requires c in calls
    ensures |Users(calls[c := call], p)| ==
      |Users(calls, p)| - (if Uses(calls[c], p) then 1 else 0) + if Uses(call, p) then 1 else 0
  {
    UsersRemove(calls, c, p);
    UsersAdd(calls - {c}, c, call, p);
    assert (calls - {c})[c := call] == calls[c := call];
  }

  lemma NobodyUses(calls: map<Id, Call>, inflight: map<Id, nat>, p: Id)
    requires Counted(calls, inflight)
    ensures p !in inflight <==> forall c <- calls :: !Uses(calls[c], p)
  {
    forall c | c in calls && Uses(calls[c], p) ensures p in inflight {
      assert c in Users(calls, p);
    }
    if forall c <- calls :: !Uses(calls[c], p) {
      assert Users(calls, p) == {};
    }
  }

  lemma AcquireCounts(calls: map<Id, Call>, inflight: map<Id, nat>, c: Id, call: Call)
    requires Counted(calls, inflight) && c !in calls && !call.phase.After?
    ensures Counted(calls[c := call], Acquire(inflight, call.provider))
  {
    forall p ensures |Users(calls[c := call], p)| == |Users(calls, p)| + if Uses(call, p) then 1 else 0 {
      UsersAdd(calls, c, call, p);
    }
  }

  lemma ReleaseCounts(calls: map<Id, Call>, inflight: map<Id, nat>, c: Id)
    requires Counted(calls, inflight) && c in calls && !calls[c].phase.After?
    ensures Counted(calls - {c}, Release(inflight, calls[c].provider))
    ensures forall p :: p != calls[c].provider ==> (p in Release(inflight, calls[c].provider) <==> p in inflight)
  {
    forall p ensures |Users(calls - {c}, p)| == |Users(calls, p)| - if Uses(calls[c], p) then 1 else 0 {
      UsersRemove(calls, c, p);
    }
  }

  /** A phase changes, and nobody starts or stops using a provider. */
  lemma PhaseCounts(calls: map<Id, Call>, inflight: map<Id, nat>, c: Id, call: Call)
    requires Counted(calls, inflight) && c in calls && call.provider == calls[c].provider
    requires call.phase.After? <==> calls[c].phase.After?
    ensures Counted(calls[c := call], inflight)
  {
    forall p ensures |Users(calls[c := call], p)| == |Users(calls, p)| {
      UsersUpdate(calls, c, call, p);
    }
  }

  lemma AfterCounts(calls: map<Id, Call>, inflight: map<Id, nat>, c: Id, call: Call)
    requires Counted(calls, inflight) && c !in calls && call.phase.After?
    ensures Counted(calls[c := call], inflight)
  {
    forall p ensures |Users(calls[c := call], p)| == |Users(calls, p)| {
      UsersAdd(calls, c, call, p);
    }
  }

  // ------------------------------------------------------------------ the cache

  lemma LastUseAppend(history: seq<Key>, k: Key, other: Key)
    ensures LastUse(history + [k], other) == if other == k then |history| else LastUse(history, other)
  {
    assert (history + [k])[..|history|] == history;
  }

  lemma LastUseIn(history: seq<Key>, k: Key)
    ensures LastUse(history, k) >= 0 <==> k in history
  {}

  lemma Reused(history: seq<Key>, k: Key)
    ensures forall other :: LastUse(history + [k], other) == if other == k then |history| else LastUse(history, other)
  {
    forall other { LastUseAppend(history, k, other); }
  }

  /** A hit. */
  lemma RecentHit(keys: seq<Key>, history: seq<Key>, size: int, i: nat, moved: seq<Key>)
    requires Recent(keys, history, size) && Moved(keys, i, moved)
    ensures Recent(moved, history + [keys[i]], size)
  {
    var k, h := keys[i], history + [keys[i]];
    Reused(history, k);
    MovedSame(keys, i, moved);
    forall other | other in h && other !in moved ensures |moved| == Capacity(size) && Older(other, moved, h) {
      assert other in history && Older(other, keys, history);
    }
    forall a, b | 0 <= a < b < |moved| ensures LastUse(h, moved[a]) < LastUse(h, moved[b]) {
      HitOrder(keys, history, i, moved, a, b);
    }
  }

  lemma HitOrder(keys: seq<Key>, history: seq<Key>, i: nat, moved: seq<Key>, a: nat, b: nat)
    requires Moved(keys, i, moved) && a < b < |moved|
    requires forall i, j :: 0 <= i < j < |keys| ==> LastUse(history, keys[i]) < LastUse(history, keys[j])
    ensures LastUse(history + [keys[i]], moved[a]) < LastUse(history + [keys[i]], moved[b])
  {
    var a', b' := if a < i then a else a + 1, if b < i then b else b + 1;
    assert moved[a] == keys[a'];
    assert a' < i || i < a';
    LastUseAppend(history, keys[i], moved[a]);
    LastUseAppend(history, keys[i], moved[b]);
    if b < |keys| - 1 {
      assert moved[b] == keys[b'];
      assert b' < i || i < b';
    }
  }

  /** A miss that fits. */
  lemma RecentGrow(keys: seq<Key>, history: seq<Key>, size: int, k: Key)
    requires Recent(keys, history, size) && k !in keys && |keys| < Capacity(size)
    ensures Recent(keys + [k], history + [k], size)
  {
    Reused(history, k);
    assert forall other <- history :: other in keys;
  }

  lemma TailElements(keys: seq<Key>, k: Key)
    ensures var left := (keys + [k])[1..];
            && |left| == |keys|
            && (forall j :: 0 <= j < |keys| - 1 ==> left[j] == keys[j + 1])
            && (keys != [] ==> left[|keys| - 1] == k)
            && (forall other <- left :: other == k || other in keys)
            && (forall other <- keys :: other in left || other == keys[0])
  {
    if keys != [] {
      assert keys == [keys[0]] + keys[1..];
      assert (keys + [k])[1..] == keys[1..] + [k];
    }
  }

  /** A miss that evicts. */
  lemma RecentEvict(keys: seq<Key>, history: seq<Key>, size: int, k: Key)
    requires Recent(keys, history, size) && k !in keys && |keys| == Capacity(size)
    ensures Recent((keys + [k])[1..], history + [k], size)
  {
    var h, left := history + [k], (keys + [k])[1..];
    Reused(history, k);
    TailElements(keys, k);
    forall a, b | 0 <= a < b < |left| ensures LastUse(h, left[a]) < LastUse(h, left[b]) {
      assert left[a] == keys[a + 1];
      if b < |keys| - 1 { assert left[b] == keys[b + 1]; }
    }
    forall other | other in h && other !in left ensures Older(other, left, h) {
      if keys != [] {
        assert other in history;
        assert other == keys[0] || Older(other, keys, history);
        assert left[0] == k || left[0] == keys[1];
      }
    }
  }
}
