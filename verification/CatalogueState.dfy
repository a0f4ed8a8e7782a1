/**
 Catalogue (catalogue.py) as a state machine: the tools a backend listed last, what is derived from
 them, and the re-lists in flight.  A step is what runs between two awaits: `ensure_fresh` up to its
 await, a re-list that returned, raised or was cancelled, and the two lazy properties.
*/
module CatalogueState {
  import opened Wrappers

  type Id = int
  type Name = string

  datatype Descriptor = Descriptor(name: Name, pinned: bool, text: string)

  datatype Drift = Drift(added: set<Name>, removed: set<Name>, pinnedMissing: set<Name>)

  predicate Changed(d: Drift) { d.added != {} || d.removed != {} || d.pinnedMissing != {} }

  datatype Status = NoStatus | Fine | Drifted | Stale

  datatype Ending = Relisted(drift: Drift) | Raised | Cancelled

  /** A re-list that is over. */
  datatype Attempt = Attempt(started: real, ended: real, result: Ending)

  /** What the ToolIndex of some descriptors is stands for itself: a function of them. */
  datatype Index = IndexOf(descriptors: seq<Descriptor>)

  datatype State = State(
    ttlMs: Option<int>,       // None when there is no relister
    pinned: set<Name>,        // captured once, at attach
    attached: set<Name>,
    descriptors: seq<Descriptor>,
    index: Option<Index>,
    byName: Option<map<Name, Descriptor>>,
    fetchedAt: real,
    refreshing: bool,
    status: Status,
    drift: Drift,
    running: map<Id, real>,   // the re-lists in flight, and when each started
    attempts: seq<Attempt>,
    next: Id,
    now: real)

  function Names(ds: seq<Descriptor>): set<Name> {
    set d | d in ds :: d.name
  }

  function PinnedNames(ds: seq<Descriptor>): set<Name> {
    set d | d in ds && d.pinned :: d.name
  }

  /** {d.name: d for d in descriptors}: a later tool of the same name wins. */
  function ByName(ds: seq<Descriptor>): map<Name, Descriptor> {
    if ds == [] then map[] else ByName(ds[..|ds| - 1])[ds[|ds| - 1].name := ds[|ds| - 1]]
  }

  /** _enabled: a relister, and a TTL that is not zero. */
  predicate On(s: State) { s.ttlMs.Some? && s.ttlMs.value != 0 }

  function Init(ds: seq<Descriptor>, ttlMs: Option<int>, now: real): State {
    State(ttlMs, PinnedNames(ds), Names(ds), ds, None, None, now, false,
          if ttlMs.Some? && ttlMs.value != 0 then Fine else NoStatus, Drift({}, {}, {}), map[], [], 0, now)
  }

  /** _diff */
  function DriftTo(s: State, listed: seq<Descriptor>): Drift {
    Drift(Names(listed) - Names(s.descriptors), Names(s.descriptors) - Names(listed), s.pinned - Names(listed))
  }

  // ------------------------------------------------------------------ steps

  predicate Due(s: State, now: real) {
    On(s) && !((now - s.fetchedAt) * 1000.0 < s.ttlMs.value as real)
  }

  /** ensure_fresh, up to its await or its return. */
  function Ensure(s: State, now: real): State {
    if Due(s, now) && !s.refreshing then
      s.(refreshing := true, running := s.running[s.next := now], next := s.next + 1, now := now)
    else s.(now := now)
  }

  predicate OverOk(s: State, r: Id, now: real) { r in s.running && s.now <= now }

  function Relist(s: State, r: Id, listed: seq<Descriptor>, now: real): State
    requires OverOk(s, r, now)
  {
    var d := DriftTo(s, listed);
    s.(refreshing := false, drift := d, descriptors := listed, index := None, byName := None, fetchedAt := now,
       status := if Changed(d) then Drifted else Fine, running := s.running - {r},
       attempts := s.attempts + [Attempt(s.running[r], now, Relisted(d))], now := now)
  }

  function Raise(s: State, r: Id, now: real): State
    requires OverOk(s, r, now)
  {
    s.(refreshing := false, fetchedAt := now, status := Stale, running := s.running - {r},
       attempts := s.attempts + [Attempt(s.running[r], now, Raised)], now := now)
  }

  /** A cancellation is no Exception: only the `finally` runs. */
  function Cancel(s: State, r: Id, now: real): State
    requires OverOk(s, r, now)
  {
    s.(refreshing := false, running := s.running - {r},
       attempts := s.attempts + [Attempt(s.running[r], now, Cancelled)], now := now)
  }

  function ReadIndex(s: State): State {
    if s.index.None? then s.(index := Some(IndexOf(s.descriptors))) else s
  }

  function ReadNames(s: State): State {
    if s.byName.None? then s.(byName := Some(ByName(s.descriptors))) else s
  }

  datatype Event =
    | DoEnsure(now: real)
    | DoRelist(r: Id, listed: seq<Descriptor>, now: real)
    | DoRaise(r: Id, now: real)
    | DoCancel(r: Id, now: real)
    | DoReadIndex
    | DoReadNames

  predicate Enabled(s: State, e: Event) {
    match e
    case DoEnsure(now) => s.now <= now
    case DoRelist(r, _, now) => OverOk(s, r, now)
    case DoRaise(r, now) => OverOk(s, r, now)
    case DoCancel(r, now) => OverOk(s, r, now)
    case DoReadIndex => true
    case DoReadNames => true
  }

  function Step(s: State, e: Event): State
    requires Enabled(s, e)
  {
    match e
    case DoEnsure(now) => Ensure(s, now)
    case DoRelist(r, listed, now) => Relist(s, r, listed, now)
    case DoRaise(r, now) => Raise(s, r, now)
    case DoCancel(r, now) => Cancel(s, r, now)
    case DoReadIndex => ReadIndex(s)
    case DoReadNames => ReadNames(s)
  }

  predicate Legal(s: State, es: seq<Event>)
    decreases |es|, 0
  {
    es == [] || (Legal(s, es[..|es| - 1]) && Enabled(After(s, es[..|es| - 1]), es[|es| - 1]))
  }

  function After(s: State, es: seq<Event>): State
    requires Legal(s, es)
    decreases |es|, 1
  {
    if es == [] then s else Step(After(s, es[..|es| - 1]), es[|es| - 1])
  }
}
