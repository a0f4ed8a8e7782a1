/**
 CalendarExecutor's own code, between two awaits.  Each contract gives every field in terms of the
 functions the steps of CalendarState are made of.
*/
module Calendar {
  import opened Wrappers
  import opened CalendarState
  import opened CalendarInvariant

  datatype UsageError = IdentityRequired | NoFactory

  class CalendarExecutor {
    const deployment: Option<Id>
    const hasFactory: bool
    const cacheSize: int
    var cache: seq<Entry>
    var inflight: map<Id, nat>
    var retired: seq<Id>
    var closes: map<Id, nat>
    var builtFor: map<Id, Key>
    var next: Id

    constructor (deployment: Option<Id>, hasFactory: bool, cacheSize: int)
      requires deployment.Some? ==> deployment.value == 0
      ensures Snapshot().(history := []) == Init(cacheSize, deployment.Some?, hasFactory)
    {
      this.deployment, this.hasFactory, this.cacheSize := deployment, hasFactory, cacheSize;
      cache, inflight, retired, builtFor, next := [], map[], [], map[], 1;
      closes := if deployment.Some? then map[0 := 0] else map[];
    }

    /** The executor as a state of the machine, the calls and the history left out. */
    ghost function Snapshot(): State
      reads this
    {
      State(cacheSize, deployment, hasFactory, cache, inflight, retired, map[], closes, builtFor, NotYet, next, [])
    }

    /** _provider_for */
    method ProviderFor(key: Option<Key>) returns (r: Result<Id, UsageError>)
      modifies this`cache, this`retired, this`closes, this`builtFor, this`next
      ensures r.Err? <==> if key.None? then deployment.None? else !hasFactory
      ensures r.Err? ==> Snapshot() == old(Snapshot()) && (r.error == IdentityRequired <==> key.None?)
      ensures r.Ok? ==> Snapshot() == Resolve(old(Snapshot()), key).0.(history := [])
      ensures r.Ok? ==> r.value == Resolve(old(Snapshot()), key).1
      ensures r.Ok? && key.None? ==> deployment == Some(r.value) && Snapshot() == old(Snapshot())
      ensures r.Ok? && key.Some? && key.value in Keys(old(cache)) ==>
        && Entry(key.value, r.value) in old(cache)
        && retired == old(retired) && closes == old(closes) && builtFor == old(builtFor) && next == old(next)
      ensures r.Ok? && key.Some? && key.value !in Keys(old(cache)) ==>
        var grown := old(cache) + [Entry(key.value, r.value)];
        && r.value == old(next) < next
        && closes == old(closes)[r.value := 0] && builtFor == old(builtFor)[r.value := key.value]
        && if |old(cache)| < cacheSize then cache == grown && retired == old(retired)
           else cache == grown[1..] && retired == old(retired) + [grown[0].provider]
    {
      if key.Some? { FoundInKeys(cache, key.value); }
      if key.None? {
        if deployment.None? {
          return Err(IdentityRequired);
        }
        return Ok(deployment.value);
      }
      if !hasFactory {
        return Err(NoFactory);
      }
      var i := Find(cache, key.value);
      if i < |cache| {
        cache := MoveToEnd(cache, i);
        return Ok(cache[|cache| - 1].provider);
      }
      var built := next;
      next := next + 1;
      closes := closes[built := 0];
      builtFor := builtFor[built := key.value];
      cache := cache + [Entry(key.value, built)];
      if |cache| > cacheSize {
        var evicted := cache[0].provider;
        cache := cache[1..];
        retired := retired + [evicted];
      }
      return Ok(built);
    }

    /** _acquire: lookup and count in one go. */
    method Acquire(key: Option<Key>) returns (r: Result<Id, UsageError>)
      modifies this
      ensures r.Err? <==> if key.None? then deployment.None? else !hasFactory
      ensures r.Err? ==> Snapshot() == old(Snapshot())
      ensures r.Ok? ==> RunOk(old(Snapshot()), key) && r.value == Resolve(old(Snapshot()), key).1
      ensures r.Ok? ==> Snapshot() == Resolve(old(Snapshot()), key).0.(
                          history := [], inflight := CalendarState.Acquire(old(inflight), r.value))
    {
      r := ProviderFor(key);
      if r.Ok? {
        var held := if r.value in inflight then inflight[r.value] else 0;
        inflight := inflight[r.value := held + 1];
      }
    }

    /** _release */
    method Release(p: Id)
      requires p in inflight && inflight[p] > 0
      modifies this`inflight
      ensures inflight == CalendarState.Release(old(inflight), p)
    {
      var left := inflight[p] - 1;
      if left > 0 {
        inflight := inflight[p := left];
      } else {
        inflight := inflight - {p};
      }
    }

    /** _close_idle_retired until its first await: the two comprehensions. */
    method DetachIdle() returns (idle: seq<Id>)
      modifies this`retired
      ensures idle == Idle(old(retired), inflight)
      ensures retired == Busy(old(retired), inflight)
      ensures multiset(idle) + multiset(retired) == multiset(old(retired))
    {
      var busy;
      idle, busy := Split(retired, inflight);
      IdleAndBusy(retired, inflight);
      if idle != [] {
        retired := busy;
      } else {
        NothingIdle(retired, inflight);
      }
    }

    /** _close_quietly, as far as the executor can tell. */
    method CloseQuietly(p: Id)
      modifies this`closes
      ensures closes == ClosedOnce(old(closes), p)
    {
      closes := closes[p := (if p in closes then closes[p] else 0) + 1];
    }

    /** aclose until its first await. */
    method DetachAll() returns (providers: seq<Id>)
      modifies this`cache, this`retired
      ensures Dispose(old(Snapshot())) == Snapshot().(disposal := Closing(providers))
      ensures multiset(providers) == Held(deployment, NotYet, old(cache), old(retired))
      ensures providers == (if deployment.Some? then [deployment.value] else []) + Providers(old(cache)) + old(retired)
    {
      providers := if deployment.Some? then [deployment.value] else [];
      providers := providers + Providers(cache) + retired;
      cache, retired := [], [];
    }
  }

  lemma {:induction false} OneMore(retired: seq<Id>, inflight: map<Id, nat>, p: Id)
    ensures Idle(retired + [p], inflight) == Idle(retired, inflight) + if p in inflight then [] else [p]
    ensures Busy(retired + [p], inflight) == Busy(retired, inflight) + if p in inflight then [p] else []
  {
    if retired != [] {
      OneMore(retired[1..], inflight, p);
      assert (retired + [p])[1..] == retired[1..] + [p];
    }
  }

  /** The two comprehensions of _close_idle_retired. */
  method Split(retired: seq<Id>, inflight: map<Id, nat>) returns (idle: seq<Id>, busy: seq<Id>)
    ensures idle == Idle(retired, inflight)
    ensures busy == Busy(retired, inflight)
  {
    idle, busy := [], [];
    for i := 0 to |retired|
      invariant idle == Idle(retired[..i], inflight)
      invariant busy == Busy(retired[..i], inflight)
    {
      OneMore(retired[..i], inflight, retired[i]);
      assert retired[..i + 1] == retired[..i] + [retired[i]];
      if retired[i] in inflight {
        busy := busy + [retired[i]];
      } else {
        idle := idle + [retired[i]];
      }
    }
    assert retired[..|retired|] == retired;
  }

  /** When nothing is idle the list is left as it is, which is what filtering it would give. */
  lemma {:induction false} NothingIdle(retired: seq<Id>, inflight: map<Id, nat>)
    requires Idle(retired, inflight) == []
    ensures Busy(retired, inflight) == retired
  {
    if retired != [] {
      assert retired[0] in inflight;
      NothingIdle(retired[1..], inflight);
    }
  }
}
