/**
 CalendarExecutor (plugins/calendar/executor.py) as a state machine: a bounded cache of per-user
 providers, a count of the calls using each, and the evicted ones not yet closed.  A step is what
 one coroutine does between two awaits: `run` until its first await, one close returning, the
 provider's own call returning.  The factory returns a new object each time.
*/
module CalendarState {
  import opened Wrappers

  type Id = int
  type Key = string

  /** One item of the OrderedDict, oldest first. */
  datatype Entry = Entry(key: Key, provider: Id)

  /** Where a `run` is suspended.  `Before` and `After` await the close of `current` inside
      _close_idle_retired, with `rest` still to be closed; `After` has released its provider. */
  datatype Phase =
    | Before(current: Id, rest: seq<Id>)
    | Using
    | After(current: Id, rest: seq<Id>)

  datatype Call = Call(key: Option<Key>, provider: Id, phase: Phase)

  /** The one `aclose` there may be. */
  datatype Disposal = NotYet | Closing(rest: seq<Id>)

  datatype State = State(
    cacheSize: int,
    deployment: Option<Id>,
    hasFactory: bool,
    cache: seq<Entry>,
    inflight: map<Id, nat>,
    retired: seq<Id>,
    calls: map<Id, Call>,
    closes: map<Id, nat>,   // every provider there ever was, and how often it was closed
    builtFor: map<Id, Key>, // whose credentials the factory was given
    disposal: Disposal,
    next: Id,
    history: seq<Key>)      // the keys resolved since the cache was last cleared

  // ------------------------------------------------------------------ the OrderedDict

  function Keys(cache: seq<Entry>): (r: seq<Key>)
    ensures |r| == |cache| && forall i :: 0 <= i < |cache| ==> r[i] == cache[i].key
  {
    seq(|cache|, i requires 0 <= i < |cache| => cache[i].key)
  }

  function Providers(cache: seq<Entry>): (r: seq<Id>)
    ensures |r| == |cache| && forall i :: 0 <= i < |cache| ==> r[i] == cache[i].provider
  {
    seq(|cache|, i requires 0 <= i < |cache| => cache[i].provider)
  }

  /** The position of a key, or the length. */
  function Find(cache: seq<Entry>, key: Key): (i: nat)
    ensures i <= |cache| && (i < |cache| ==> cache[i].key == key)
    ensures forall j :: 0 <= j < i ==> cache[j].key != key
  {
    if cache == [] || cache[0].key == key then 0 else 1 + Find(cache[1..], key)
  }

  /** OrderedDict.move_to_end */
  function MoveToEnd(cache: seq<Entry>, i: nat): seq<Entry>
    requires i < |cache|
  {
    cache[..i] + cache[i + 1..] + [cache[i]]
  }

  function Capacity(size: int): nat { if size < 0 then 0 else size }

  // ------------------------------------------------------------------ counting calls

  function Acquire(inflight: map<Id, nat>, p: Id): map<Id, nat> {
    inflight[p := (if p in inflight then inflight[p] else 0) + 1]
  }

  function Release(inflight: map<Id, nat>, p: Id): map<Id, nat> {
    if p in inflight && inflight[p] > 1 then inflight[p := inflight[p] - 1] else inflight - {p}
  }

  /** [p for p in self._retired if id(p) not in self._inflight] */
  function Idle(retired: seq<Id>, inflight: map<Id, nat>): (r: seq<Id>)
    ensures forall p :: p in r <==> p in retired && p !in inflight
    ensures |r| <= |retired|
  {
    if retired == [] then []
    else if retired[0] in inflight then Idle(retired[1..], inflight)
    else [retired[0]] + Idle(retired[1..], inflight)
  }

  /** [p for p in self._retired if id(p) in self._inflight] */
  function Busy(retired: seq<Id>, inflight: map<Id, nat>): (r: seq<Id>)
    ensures forall p :: p in r <==> p in retired && p in inflight
    ensures |r| <= |retired|
  {
    if retired == [] then []
    else if retired[0] in inflight then [retired[0]] + Busy(retired[1..], inflight)
    else Busy(retired[1..], inflight)
  }

  function ClosedOnce(closes: map<Id, nat>, p: Id): map<Id, nat> {
    closes[p := (if p in closes then closes[p] else 0) + 1]
  }

  // ------------------------------------------------------------------ steps

  function Init(cacheSize: int, deployment: bool, hasFactory: bool): State {
    State(cacheSize, if deployment then Some(0) else None, hasFactory, [], map[], [], map[],
          if deployment then map[0 := 0] else map[], map[], NotYet, 1, [])
  }

  /** What _provider_for decides, before it touches anything. */
  datatype Choice = Refused | Shared(provider: Id) | Hit(index: nat) | Build

  function Choose(s: State, key: Option<Key>): (c: Choice)
    ensures c.Hit? ==> c.index < |s.cache|
  {
    match key
    case None => if s.deployment.Some? then Shared(s.deployment.value) else Refused
    case Some(k) =>
      if !s.hasFactory then Refused
      else if Find(s.cache, k) < |s.cache| then Hit(Find(s.cache, k)) else Build
  }

  /** The state after _provider_for, and the provider it returned. */
  function Resolve(s: State, key: Option<Key>): (r: (State, Id))
    requires !Choose(s, key).Refused?
  {
    match Choose(s, key)
    case Shared(p) => (s, p)
    case Hit(i) => (s.(cache := MoveToEnd(s.cache, i), history := s.history + [key.value]), s.cache[i].provider)
    case Build =>
      var grown := s.cache + [Entry(key.value, s.next)];
      var over := |grown| > s.cacheSize;
      (s.(cache := if over then grown[1..] else grown,
          retired := if over then s.retired + [grown[0].provider] else s.retired,
          closes := s.closes[s.next := 0], builtFor := s.builtFor[s.next := key.value],
          next := s.next + 1, history := s.history + [key.value]),
       s.next)
  }

  /** _close_idle_retired up to its first await, in call `c`: what is idle leaves the list, and
      the first of it is being closed.  `done` is what follows when nothing was idle. */
  function CloseIdle(s: State, c: Id, before: bool): State
    requires c in s.calls
  {
    var idle := Idle(s.retired, s.inflight);
    if idle == [] then
      (if before then s.(calls := s.calls[c := s.calls[c].(phase := Using)]) else s.(calls := s.calls - {c}))
    else
      s.(retired := Busy(s.retired, s.inflight), closes := ClosedOnce(s.closes, idle[0]),
         calls := s.calls[c := s.calls[c].(
           phase := if before then Before(idle[0], idle[1..]) else After(idle[0], idle[1..]))])
  }

  predicate RunOk(s: State, key: Option<Key>) { !Choose(s, key).Refused? }

  /** `run` until its first await.  A refused identity, a bad argument and a factory that raises
      leave everything as it was, and are not steps. */
  function Run(s: State, key: Option<Key>): State
    requires RunOk(s, key)
  {
    var (r, p) := Resolve(s, key);
    var c := r.next;
    CloseIdle(r.(inflight := Acquire(r.inflight, p), calls := r.calls[c := Call(key, p, Using)], next := c + 1),
              c, true)
  }

  predicate ClosedOk(s: State, c: Id) { c in s.calls && !s.calls[c].phase.Using? }

  /** The close a call awaits has returned. */
  function Closed(s: State, c: Id): State
    requires ClosedOk(s, c)
  {
    var call := s.calls[c];
    match call.phase
    case Before(_, rest) =>
      if rest == [] then s.(calls := s.calls[c := call.(phase := Using)])
      else s.(closes := ClosedOnce(s.closes, rest[0]),
              calls := s.calls[c := call.(phase := Before(rest[0], rest[1..]))])
    case After(_, rest) =>
      if rest == [] then s.(calls := s.calls - {c})
      else s.(closes := ClosedOnce(s.closes, rest[0]),
              calls := s.calls[c := call.(phase := After(rest[0], rest[1..]))])
    case Using => s
  }

  predicate FinishOk(s: State, c: Id) { c in s.calls && s.calls[c].phase.Using? }

  /** The provider's call returned or raised: the `finally` of run. */
  function Finish(s: State, c: Id): State
    requires FinishOk(s, c)
  {
    CloseIdle(s.(inflight := Release(s.inflight, s.calls[c].provider)), c, false)
  }

  predicate DisposeOk(s: State) { s.disposal.NotYet? }

  /** aclose: everything is detached, then closed one by one. */
  function Dispose(s: State): State {
    s.(disposal := Closing((if s.deployment.Some? then [s.deployment.value] else []) + Providers(s.cache) + s.retired),
       cache := [], retired := [], history := [])
  }

  predicate DisposeNextOk(s: State) { s.disposal.Closing? && s.disposal.rest != [] }

  function DisposeNext(s: State): State
    requires DisposeNextOk(s)
  {
    s.(closes := ClosedOnce(s.closes, s.disposal.rest[0]), disposal := Closing(s.disposal.rest[1..]))
  }

  datatype Event = DoRun(key: Option<Key>) | DoClosed(c: Id) | DoFinish(c: Id) | DoDispose | DoDisposeNext

  predicate Enabled(s: State, e: Event) {
    match e
    case DoRun(key) => RunOk(s, key)
    case DoClosed(c) => ClosedOk(s, c)
    case DoFinish(c) => FinishOk(s, c)
    case DoDispose => DisposeOk(s)
    case DoDisposeNext => DisposeNextOk(s)
  }

  function Step(s: State, e: Event): State
    requires Enabled(s, e)
  {
    match e
    case DoRun(key) => Run(s, key)
    case DoClosed(c) => Closed(s, c)
    case DoFinish(c) => Finish(s, c)
    case DoDispose => Dispose(s)
    case DoDisposeNext => DisposeNext(s)
  }
}
