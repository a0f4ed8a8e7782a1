/**
 TokenExchanger (tokenexchange.py) as a state machine: a bounded, expiring cache of issued tokens
 and the exchanges in flight, all under a digest of the caller's own token.  A step is what runs
 between two awaits: `token` up to its shielded wait, `_exchange` from the endpoint's answer to its
 end, the done callback `_settled`, and a waiter waking up.  One event loop.
*/
module TokenExchangeState {
  import opened Wrappers

  type Id = int
  type Key = string
  type Token = string

  /** An issued token is dropped this long before the identity provider says it expires. */
  const SKEW: real := 30.0
  const MAX_ENTRIES: nat := 1024

  /** A token the endpoint issued for `key`, when that was read, and its `expires_in`. */
  datatype Issue = Issue(key: Key, token: Token, at: real, lifetime: Option<real>)

  /** One item of the cache, oldest first; `issue` says which one put it there. */
  datatype Entry = Entry(key: Key, token: Token, until: real, issue: nat)

  datatype Progress = Running | Issued(issue: nat) | Failed

  datatype Task = Task(key: Key, progress: Progress, settled: bool)

  /** What a call of `token` for `key` returned. */
  datatype Answer = Answer(key: Key, token: Token, at: real, cached: bool, issue: nat)

  datatype Caller = Caller(key: Key, task: Id)

  datatype State = State(
    cache: seq<Entry>,
    inflight: map<Key, Id>,
    tasks: map<Id, Task>,
    callers: map<Id, Caller>,
    log: seq<Issue>,
    answers: seq<Answer>,
    lastUse: map<Key, nat>, // when each key was last put or found in the cache, in uses
    uses: nat,
    next: Id,
    now: real)

  function Init(now: real): State { State([], map[], map[], map[], [], [], map[], 0, 0, now) }

  // ------------------------------------------------------------------ the OrderedDict

  function Find(cache: seq<Entry>, key: Key): (i: nat)
    ensures i <= |cache| && (i < |cache| ==> cache[i].key == key)
    ensures forall j :: 0 <= j < i ==> cache[j].key != key
  {
    if cache == [] || cache[0].key == key then 0 else 1 + Find(cache[1..], key)
  }

  /** `del`, when the key is there. */
  function Without(cache: seq<Entry>, key: Key): (r: seq<Entry>)
    ensures |r| <= |cache|
  {
    var i := Find(cache, key);
    if i < |cache| then cache[..i] + cache[i + 1..] else cache
  }

  /** What is left when items are popped from the front while there are too many. */
  function Trim(cache: seq<Entry>): (r: seq<Entry>)
    ensures |r| == if |cache| > MAX_ENTRIES then MAX_ENTRIES else |cache|
  {
    if |cache| > MAX_ENTRIES then cache[|cache| - MAX_ENTRIES..] else cache
  }

  // ------------------------------------------------------------------ steps

  predicate Hit(s: State, key: Key, now: real) {
    var i := Find(s.cache, key);
    i < |s.cache| && s.cache[i].until > now
  }

  predicate AskOk(s: State, key: Key, now: real) { s.now <= now }

  /** token, up to its await. */
  function Ask(s: State, key: Key, now: real): State {
    if Hit(s, key, now) then
      var e := s.cache[Find(s.cache, key)];
      s.(cache := Without(s.cache, key) + [e], lastUse := s.lastUse[key := s.uses], uses := s.uses + 1,
         answers := s.answers + [Answer(key, e.token, now, true, e.issue)], now := now)
    else if key in s.inflight then
      s.(cache := Without(s.cache, key), callers := s.callers[s.next := Caller(key, s.inflight[key])],
         next := s.next + 1, now := now)
    else
      s.(cache := Without(s.cache, key), tasks := s.tasks[s.next := Task(key, Running, false)],
         inflight := s.inflight[key := s.next], callers := s.callers[s.next + 1 := Caller(key, s.next)],
         next := s.next + 2, now := now)
  }

  predicate EndOk(s: State, t: Id, now: real) { t in s.tasks && s.tasks[t].progress.Running? && s.now <= now }

  predicate Keepable(lifetime: Option<real>) { lifetime.Some? && lifetime.value - SKEW > 0.0 }

  /** The cache after the end of _exchange: put, moved to the end, and trimmed. */
  function Stored(cache: seq<Entry>, key: Key, token: Token, lifetime: Option<real>, now: real,
                  issue: nat): seq<Entry> {
    if Keepable(lifetime)
    then Trim(Without(cache, key) + [Entry(key, token, now + (lifetime.value - SKEW), issue)])
    else cache
  }

  /** The endpoint issued a token. */
  function Grant(s: State, t: Id, token: Token, lifetime: Option<real>, now: real): State
    requires EndOk(s, t, now)
  {
    var key, n := s.tasks[t].key, |s.log|;
    var done := s.(tasks := s.tasks[t := Task(key, Issued(n), false)], now := now,
                   log := s.log + [Issue(key, token, now, lifetime)]);
    if Keepable(lifetime) then
      done.(cache := Stored(s.cache, key, token, lifetime, now, n),
            lastUse := s.lastUse[key := s.uses], uses := s.uses + 1)
    else done
  }

  /** The exchange raised, or was cancelled. */
  function Fail(s: State, t: Id, now: real): State
    requires EndOk(s, t, now)
  {
    s.(tasks := s.tasks[t := Task(s.tasks[t].key, Failed, false)], now := now)
  }

  predicate SettleOk(s: State, t: Id) { t in s.tasks && !s.tasks[t].progress.Running? && !s.tasks[t].settled }

  /** _settled, which the loop runs some time after the task is done. */
  function Settle(s: State, t: Id): State
    requires SettleOk(s, t)
  {
    var key := s.tasks[t].key;
    s.(tasks := s.tasks[t := s.tasks[t].(settled := true)],
       inflight := if key in s.inflight && s.inflight[key] == t then s.inflight - {key} else s.inflight)
  }

  predicate WakeOk(s: State, c: Id, now: real) {
    && c in s.callers && s.callers[c].task in s.tasks && s.now <= now
    && !s.tasks[s.callers[c].task].progress.Running?
  }

  /** A waiter gets the result of its exchange, or its exception. */
  function Wake(s: State, c: Id, now: real): State
    requires WakeOk(s, c, now)
  {
    var p := s.tasks[s.callers[c].task].progress;
    s.(callers := s.callers - {c}, now := now,
       answers := if p.Issued? && p.issue < |s.log|
                  then s.answers + [Answer(s.callers[c].key, s.log[p.issue].token, now, false, p.issue)]
                  else s.answers)
  }

  datatype Event =
    | DoAsk(key: Key, now: real)
    | DoGrant(t: Id, token: Token, lifetime: Option<real>, now: real)
    | DoFail(t: Id, now: real)
    | DoSettle(t: Id)
    | DoWake(c: Id, now: real)

  predicate Enabled(s: State, e: Event) {
    match e
    case DoAsk(key, now) => AskOk(s, key, now)
    case DoGrant(t, _, _, now) => EndOk(s, t, now)
    case DoFail(t, now) => EndOk(s, t, now)
    case DoSettle(t) => SettleOk(s, t)
    case DoWake(c, now) => WakeOk(s, c, now)
  }

  function Step(s: State, e: Event): State
    requires Enabled(s, e)
  {
    match e
    case DoAsk(key, now) => Ask(s, key, now)
    case DoGrant(t, token, lifetime, now) => Grant(s, t, token, lifetime, now)
    case DoFail(t, now) => Fail(s, t, now)
    case DoSettle(t) => Settle(s, t)
    case DoWake(c, now) => Wake(s, c, now)
  }

  predicate Legal(s: State, es: seq<Event>)
    decreases |es|, 0
  {
    es == [] || (Legal(s, es[..|es| - 1]) && Enabled(After(s, es[..|es| - 1]), es[|es| - 1]))
  }

  function After(s: State, es: seq<Event>): State
    requires Legal(s, es)
    decreases |es|, 1
  {
    if es == [] then s else Step(After(s, es[..|es| - 1]), es[|es| - 1])
  }
}
