/**
 killswitch.py: the shape of the state file, a reader that stats it on every call and parses it only
 when its stamp changed, and the writers of one process.
*/
module KillSwitchState {
  import opened Wrappers
  import opened JsonValues

  type Stamp = (int, int, int)
  type Table = map<string, map<string, Json>>

  datatype KillState = KillState(all: Option<map<string, Json>>, surfaces: Table, subjects: Table)

  const EMPTY := KillState(None, map[], map[])

  /** Why a surface is stopped. */
  function Disabled(s: KillState, surface: string): Option<string> {
    if s.all.Some? then Some("all") else if surface in s.surfaces then Some("surface") else None
  }

  // ------------------------------------------------------------------ parse_state

  predicate IsTable(v: Json) {
    v.Object? && forall k <- v.fields :: k != "" && v.fields[k].Object?
  }

  function TableOf(v: Json): Table
    requires IsTable(v)
  {
    map k | k in v.fields :: v.fields[k].fields
  }

  /** _table: absent is empty. */
  function ReadTable(data: map<string, Json>, kind: string): Option<Table> {
    if kind !in data then Some(map[]) else if IsTable(data[kind]) then Some(TableOf(data[kind])) else None
  }

  /** parse_state; None is a ValueError. */
  function Parse(data: Json): Option<KillState> {
    if !data.Object? || !(data.fields.Keys <= {"all", "surfaces", "subjects"}) then None
    else
      var all := if "all" in data.fields then data.fields["all"] else Null;
      var surfaces, subjects := ReadTable(data.fields, "surfaces"), ReadTable(data.fields, "subjects");
      if (!all.Null? && !all.Object?) || surfaces.None? || subjects.None? then None
      else Some(KillState(if all.Null? then None else Some(all.fields), surfaces.value, subjects.value))
  }

  function TableJson(t: Table): Json { Object(map k | k in t :: Object(t[k])) }

  /** as_json */
  function AsJson(s: KillState): Json {
    var out := map["surfaces" := TableJson(s.surfaces), "subjects" := TableJson(s.subjects)];
    Object(if s.all.Some? then out["all" := Object(s.all.value)] else out)
  }

  // ------------------------------------------------------------------ reading

  /** What one call of `state` finds.  `read` is what opening and parsing the file would give now. */
  datatype Sight = Missing | StatFails | Found(stamp: Stamp, read: Option<KillState>)

  /** `bad` is None for _NONE_BAD, Some(None) when the file could not even be stat'ed. */
  datatype Reader = Reader(stamp: Option<Stamp>, good: Option<KillState>, bad: Option<Option<Stamp>>, stale: bool)

  function NewReader(): Reader { Reader(None, None, None, false) }

  /** The error path of state. */
  function Refuse(r: Reader, stamp: Option<Stamp>): (Reader, Option<KillState>) {
    if r.good.None? then (r, None) else (r.(bad := Some(stamp), stale := true), r.good)
  }

  function Accept(stamp: Option<Stamp>, state: KillState): (Reader, Option<KillState>) {
    (Reader(stamp, Some(state), None, false), Some(state))
  }

  /** state; an answer of None is the UsageError. */
  function Look(r: Reader, sight: Sight): (Reader, Option<KillState>) {
    match sight
    case Missing => Accept(None, EMPTY)
    case StatFails => Refuse(r, None)
    case Found(stamp, read) =>
      if r.stamp == Some(stamp) && r.good.Some? then Accept(Some(stamp), r.good.value)
      else if r.bad == Some(Some(stamp)) && r.good.Some? then (r.(stale := true), r.good)
      else if read.Some? then Accept(Some(stamp), read.value)
      else Refuse(r, Some(stamp))
  }

  /** A reader that remembers only the last good state, and reads every time. */
  function PlainLook(last: Option<KillState>, sight: Sight): Option<KillState> {
    match sight
    case Missing => Some(EMPTY)
    case StatFails => last
    case Found(_, read) => if read.Some? then read else last
  }

  function After(sights: seq<Sight>): Reader {
    if sights == [] then NewReader() else Look(After(sights[..|sights| - 1]), sights[|sights| - 1]).0
  }

  function PlainAfter(sights: seq<Sight>): Option<KillState> {
    if sights == [] then None else PlainLook(PlainAfter(sights[..|sights| - 1]), sights[|sights| - 1])
  }

  // ------------------------------------------------------------------ writing

  type Id = int

  datatype File = NoFile | Malformed | Content(data: Json)

  /** _load_raw */
  function Load(f: File): Option<Json> {
    match f case NoFile => Some(Object(map[])) case Malformed => None case Content(d) => Some(d)
  }

  /** An admin's change to the raw state; None when it raises ValueError. */
  type Change = Json -> Option<Json>

  datatype Outcome = Written | BadFile | BadChange | Unwritable

  /** What an update amounts to on a file: what is there afterwards, and how it ends. */
  function Updated(f: File, change: Change): (File, Outcome) {
    var raw := Load(f);
    if raw.None? || Parse(raw.value).None? then (f, BadFile)
    else
      var changed := change(raw.value);
      if changed.None? || Parse(changed.value).None? then (f, BadChange) else (Content(changed.value), Written)
  }

  /** Where an update is: waiting for the lock, reading in a thread, or writing in a thread what it
      made of the file it read (`base` is auxiliary). */
  datatype Phase = Waiting | Reading | Writing(base: File, data: Json)

  datatype Update = Update(change: Change, phase: Phase)

  /** What happened to the file, in order: an update that ended, or whose write landed after it was
      cancelled, or a hand edit. */
  datatype Deed = Done(change: Change, outcome: Outcome) | Edited(file: File)

  datatype State = State(
    file: File,
    lock: Option<Id>,
    updates: map<Id, Update>,
    orphans: map<Id, Update>,  // those cancelled while a thread was writing for them
    deeds: seq<Deed>)

  function Init(file: File): State { State(file, None, map[], map[], []) }

  predicate AskOk(s: State, u: Id) { u !in s.updates && u !in s.orphans }

  function Ask(s: State, u: Id, change: Change): State { s.(updates := s.updates[u := Update(change, Waiting)]) }

  predicate LockOk(s: State, u: Id) { u in s.updates && s.updates[u].phase.Waiting? && s.lock.None? }

  function Lock(s: State, u: Id): State
    requires LockOk(s, u)
  {
    s.(lock := Some(u), updates := s.updates[u := s.updates[u].(phase := Reading)])
  }

  predicate ReadOk(s: State, u: Id) { u in s.updates && s.updates[u].phase.Reading? }

  /** The file is read, changed and checked; the update refuses, or hands its file to a thread. */
  function Read(s: State, u: Id): State
    requires ReadOk(s, u)
  {
    var change := s.updates[u].change;
    var (file, outcome) := Updated(s.file, change);
    if outcome.Written? && file.Content? then s.(updates := s.updates[u := Update(change, Writing(s.file, file.data))])
    else s.(lock := None, updates := s.updates - {u}, deeds := s.deeds + [Done(change, outcome)])
  }

  predicate WriteOk(s: State, u: Id) { u in s.updates && s.updates[u].phase.Writing? }

  /** os.replace, and the end of the update; or an OSError, which leaves the old file. */
  function Write(s: State, u: Id, fails: bool): State
    requires WriteOk(s, u)
  {
    s.(file := if fails then s.file else Content(s.updates[u].phase.data), lock := None, updates := s.updates - {u},
       deeds := s.deeds + [Done(s.updates[u].change, if fails then Unwritable else Written)])
  }

  predicate CancelOk(s: State, u: Id) { u in s.updates && s.lock == Some(u) }

  /** The update is cancelled while it holds the lock.  A thread that reads ends in nothing; one that
      writes goes on writing, and nobody waits for it. */
  function Cancel(s: State, u: Id): State
    requires CancelOk(s, u)
  {
    var less := s.(lock := None, updates := s.updates - {u});
    if s.updates[u].phase.Writing? then less.(orphans := s.orphans[u := s.updates[u]]) else less
  }

  predicate LandOk(s: State, u: Id) { u in s.orphans && s.orphans[u].phase.Writing? }

  /** The thread of a cancelled update replaces the file after all. */
  function Land(s: State, u: Id): State
    requires LandOk(s, u)
  {
    s.(file := Content(s.orphans[u].phase.data), orphans := s.orphans - {u},
       deeds := s.deeds + [Done(s.orphans[u].change, Written)])
  }

  predicate EditOk(s: State) { s.lock.None? }

  /** A hand edit while no update is under way. */
  function Edit(s: State, file: File): State { s.(file := file, deeds := s.deeds + [Edited(file)]) }

  datatype Event =
    | DoAsk(u: Id, change: Change)
    | DoLock(u: Id)
    | DoRead(u: Id)
    | DoWrite(u: Id, fails: bool)
    | DoCancel(u: Id)
    | DoLand(u: Id)
    | DoEdit(file: File)

  predicate Enabled(s: State, e: Event) {
    match e
    case DoAsk(u, _) => AskOk(s, u)
    case DoLock(u) => LockOk(s, u)
    case DoRead(u) => ReadOk(s, u)
    case DoWrite(u, _) => WriteOk(s, u)
    case DoCancel(u) => CancelOk(s, u)
    case DoLand(u) => LandOk(s, u)
    case DoEdit(_) => EditOk(s)
  }

  function Step(s: State, e: Event): State
    requires Enabled(s, e)
  {
    match e
    case DoAsk(u, change) => Ask(s, u, change)
    case DoLock(u) => Lock(s, u)
    case DoRead(u) => Read(s, u)
    case DoWrite(u, fails) => Write(s, u, fails)
    case DoCancel(u) => Cancel(s, u)
    case DoLand(u) => Land(s, u)
    case DoEdit(file) => Edit(s, file)
  }

  predicate Legal(s: State, es: seq<Event>)
    decreases |es|, 0
  {
    es == [] || (Legal(s, es[..|es| - 1]) && Enabled(Run(s, es[..|es| - 1]), es[|es| - 1]))
  }

  function Run(s: State, es: seq<Event>): State
    requires Legal(s, es)
    decreases |es|, 1
  {
    if es == [] then s else Step(Run(s, es[..|es| - 1]), es[|es| - 1])
  }

  /** The file after some deeds, one after the other. */
  function Serial(file: File, deeds: seq<Deed>): File {
    if deeds == [] then file
    else
      var f := Serial(file, deeds[..|deeds| - 1]);
      match deeds[|deeds| - 1]
      case Edited(g) => g
      case Done(change, outcome) => if outcome.Unwritable? then f else Updated(f, change).0
  }

  /** An update that would have written may find that it cannot. */
  predicate Ends(outcome: Outcome, would: Outcome) { outcome == would || (outcome.Unwritable? && would.Written?) }

  /** Every update ended as it would have, run alone on the file of its turn. */
  predicate SerialOutcomes(file: File, deeds: seq<Deed>) {
    deeds == [] || (
      var less, d := deeds[..|deeds| - 1], deeds[|deeds| - 1];
      && SerialOutcomes(file, less)
      && (d.Done? ==> Ends(d.outcome, Updated(Serial(file, less), d.change).1)))
  }
}
