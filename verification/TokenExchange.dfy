/** TokenExchanger's own code: what `token`, `_settled` and the end of `_exchange` do to its tables. */
module TokenExchange {
  import opened Wrappers
  import opened TokenExchangeState

  /** What `token` does up to its await. */
  datatype Outcome = Cached(token: Token) | Joins(task: Id)

  class TokenExchanger {
    var cache: seq<Entry>
    var inflight: map<Key, Id>
    var tasks: map<Id, Task>
    var next: Id

    constructor ()
      ensures cache == [] && inflight == map[] && tasks == map[] && next == 0
    {
      cache, inflight, tasks, next := [], map[], map[], 0;
    }

    /** `del self._cache[key]` or `move_to_end` or neither, and then the exchange to wait for. */
    method GetToken(s: State, key: Key, now: real) returns (r: Outcome)
      requires s.cache == cache && s.inflight == inflight && s.tasks == tasks && s.next == next && AskOk(s, key, now)
      modifies this
      ensures cache == Ask(s, key, now).cache
      ensures inflight == Ask(s, key, now).inflight
      ensures tasks == Ask(s, key, now).tasks
      ensures r.Cached? <==> Hit(s, key, now)
      ensures r.Cached? ==>
        Ask(s, key, now).answers[|s.answers|..] == [Answer(key, r.token, now, true, cache[|cache| - 1].issue)]
      ensures r.Joins? ==> key in inflight && r.task == inflight[key]
    {
      var i := Find(cache, key);
      if i < |cache| {
        var hit := cache[i];
        if hit.until > now {
          cache := cache[..i] + cache[i + 1..] + [hit];
          return Cached(hit.token);
        }
        cache := cache[..i] + cache[i + 1..];
      }
      if key !in inflight {
        tasks := tasks[next := Task(key, Running, false)];
        inflight := inflight[key := next];
        next := next + 1;
      }
      return Joins(inflight[key]);
    }

    /** _settled */
    method Settled(key: Key, t: Id)
      requires t in tasks && tasks[t].key == key
      modifies this`inflight, this`tasks
      ensures inflight ==
        if key in old(inflight) && old(inflight)[key] == t then old(inflight) - {key} else old(inflight)
      ensures tasks == old(tasks)[t := old(tasks)[t].(settled := true)]
    {
      if key in inflight && inflight[key] == t {
        inflight := inflight - {key};
      }
      tasks := tasks[t := tasks[t].(settled := true)];
    }

    /** The end of _exchange: put, move to the end, and pop while there are too many. */
    method Store(key: Key, token: Token, lifetime: Option<real>, now: real, issue: nat)
      modifies this`cache
      ensures cache == Stored(old(cache), key, token, lifetime, now, issue)
    {
      if lifetime.Some? {
        var ttl := lifetime.value - SKEW;
        if ttl > 0.0 {
          var put := Without(cache, key) + [Entry(key, token, now + ttl, issue)];
          cache := PopWhileTooMany(put);
        }
      }
    }
  }

  /** while len(cache) > MAX_ENTRIES: popitem(last=False) */
  method PopWhileTooMany(cache: seq<Entry>) returns (r: seq<Entry>)
    ensures r == Trim(cache)
  {
    r := cache;
    ghost var popped := 0;
    while |r| > MAX_ENTRIES
      invariant popped <= |cache| && r == cache[popped..]
      invariant popped > 0 ==> |r| >= MAX_ENTRIES
    {
      r := r[1..];
      popped := popped + 1;
    }
  }
}
