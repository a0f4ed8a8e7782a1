/** When the updates of one process, cancelled or not, lose each other's changes. */
module KillSwitchWriters {
  import opened Wrappers
  import opened JsonValues
  import opened KillSwitchState

  // ------------------------------------------------------------------ what always holds

  predicate Busy(u: Update) { !u.phase.Waiting? }

  /** The lock is held by whoever is not waiting. */
  ghost predicate Locked(lock: Option<Id>, updates: map<Id, Update>) {
    forall u :: u in updates && Busy(updates[u]) <==> lock == Some(u)
  }

  /** What a thread writes is what the change makes of the file that was read. */
  predicate Computed(u: Update) {
    u.phase.Writing? && Updated(u.phase.base, u.change) == (Content(u.phase.data), Written)
  }

  ghost predicate Ready(s: State) {
    && (forall u <- s.updates :: s.updates[u].phase.Writing? ==> Computed(s.updates[u]))
    && (forall u <- s.orphans :: Computed(s.orphans[u]))
  }

  /** The file is one that somebody else left, or it parses. */
  ghost predicate Valid(file: File, s: State) {
    || s.file == file
    || Edited(s.file) in s.deeds
    || (s.file.Content? && Parse(s.file.data).Some?)
  }

  ghost predicate Inv(file: File, s: State) { Locked(s.lock, s.updates) && Ready(s) && Valid(file, s) }

  lemma StepKeeps(file: File, s: State, e: Event)
    requires Inv(file, s) && Enabled(s, e)
    ensures Inv(file, Step(s, e))
  {
    match e
    case DoEdit(g) => assert Edited(g) in Edit(s, g).deeds;
    case _ =>
  }

  lemma {:induction false} RunKeeps(file: File, es: seq<Event>)
    requires Legal(Init(file), es)
    ensures Inv(file, Run(Init(file), es))
    decreases |es|
  {
    if es != [] {
      RunKeeps(file, es[..|es| - 1]);
      StepKeeps(file, Run(Init(file), es[..|es| - 1]), es[|es| - 1]);
    }
  }

  ghost predicate Reached(file: File, s: State) {
    exists es :: Legal(Init(file), es) && s == Run(Init(file), es)
  }

  lemma ReachedInv(file: File, s: State)
    requires Reached(file, s)
    ensures Inv(file, s)
  {
    var es :| Legal(Init(file), es) && s == Run(Init(file), es);
    RunKeeps(file, es);
  }

  lemma Extend(s: State, es: seq<Event>, e: Event)
    requires Legal(s, es) && Enabled(Run(s, es), e)
    ensures Legal(s, es + [e]) && Run(s, es + [e]) == Step(Run(s, es), e)
  {
    assert (es + [e])[..|es|] == es;
  }

  lemma Next(file: File, s: State, e: Event)
    requires Reached(file, s) && Enabled(s, e)
    ensures Reached(file, Step(s, e))
  {
    var es :| Legal(Init(file), es) && s == Run(Init(file), es);
    Extend(Init(file), es, e);
  }

  /** Whatever the interleaving and the cancellations, no update leaves a file that does not parse. */
  lemma WrittenFilesParse(file: File, s: State)
    requires Reached(file, s)
    ensures s.file == file || Edited(s.file) in s.deeds || (s.file.Content? && Parse(s.file.data).Some?)
  {
    ReachedInv(file, s);
  }

  // ------------------------------------------------------------------ one after the other

  /** The file, and every outcome, is that of the deeds one after the other: none is lost. */
  predicate InSeries(file: File, s: State) {
    s.file == Serial(file, s.deeds) && SerialOutcomes(file, s.deeds)
  }

  lemma SerialAppend(file: File, deeds: seq<Deed>, d: Deed)
    ensures Serial(file, deeds + [d]) ==
            if d.Edited? then d.file
            else if d.outcome.Unwritable? then Serial(file, deeds)
            else Updated(Serial(file, deeds), d.change).0
    ensures SerialOutcomes(file, deeds + [d]) <==>
            && SerialOutcomes(file, deeds)
            && (d.Done? ==> Ends(d.outcome, Updated(Serial(file, deeds), d.change).1))
  {
    assert (deeds + [d])[..|deeds|] == deeds;
  }

  /** What the write of an update would leave is what the update makes of the file as it is now. */
  predicate Current(file: File, u: Update) {
    u.phase.Writing? && Updated(file, u.change) == (Content(u.phase.data), Written)
  }

  /** A step that ends a write, if it is one, does so on a file the write is right for. */
  predicate Fits(s: State, e: Event)
    requires Enabled(s, e)
  {
    match e
    case DoWrite(u, fails) =>
      if fails then Updated(s.file, s.updates[u].change).1.Written? else Current(s.file, s.updates[u])
    case DoLand(u) => Current(s.file, s.orphans[u])
    case _ => true
  }

  lemma FitStep(file: File, s: State, e: Event)
    requires InSeries(file, s) && Enabled(s, e)
    ensures InSeries(file, Step(s, e)) <==> Fits(s, e)
  {
    match e
    case DoRead(u) => ReadFits(file, s, u);
    case DoWrite(u, fails) => WriteFits(file, s, u, fails);
    case DoLand(u) => LandFits(file, s, u);
    case DoEdit(g) => SerialAppend(file, s.deeds, Edited(g));
    case _ =>
  }

  lemma WriteFits(file: File, s: State, u: Id, fails: bool)
    requires InSeries(file, s) && WriteOk(s, u)
    ensures InSeries(file, Write(s, u, fails)) <==> Fits(s, DoWrite(u, fails))
  {
    SerialAppend(file, s.deeds, Done(s.updates[u].change, if fails then Unwritable else Written));
  }

  lemma LandFits(file: File, s: State, u: Id)
    requires InSeries(file, s) && LandOk(s, u)
    ensures InSeries(file, Land(s, u)) <==> Fits(s, DoLand(u))
  {
    SerialAppend(file, s.deeds, Done(s.orphans[u].change, Written));
  }

  lemma ReadFits(file: File, s: State, u: Id)
    requires InSeries(file, s) && ReadOk(s, u)
    ensures InSeries(file, Read(s, u))
  {
    var change := s.updates[u].change;
    SerialAppend(file, s.deeds, Done(change, Updated(s.file, change).1));
  }

  /** In series at every moment of a run. */
  predicate AlwaysInSeries(file: File, es: seq<Event>)
    requires Legal(Init(file), es)
    decreases |es|
  {
    InSeries(file, Run(Init(file), es)) && (es == [] || AlwaysInSeries(file, es[..|es| - 1]))
  }

  predicate AlwaysFits(file: File, es: seq<Event>)
    requires Legal(Init(file), es)
    decreases |es|
  {
    es == [] || (AlwaysFits(file, es[..|es| - 1]) && Fits(Run(Init(file), es[..|es| - 1]), es[|es| - 1]))
  }

  /** Updates of one process, cancelled or not, and the hand edits between them, have at every moment
      of a run the effect and the outcomes of some order of them one after the other, exactly if
      every write of the run ends on a file that it is right for. */
  lemma {:induction false} UpdatesAreSerialExactly(file: File, es: seq<Event>)
    requires Legal(Init(file), es)
    ensures AlwaysInSeries(file, es) <==> AlwaysFits(file, es)
    decreases |es|
  {
    if es != [] {
      var less := es[..|es| - 1];
      UpdatesAreSerialExactly(file, less);
      if AlwaysInSeries(file, less) {
        FitStep(file, Run(Init(file), less), es[|es| - 1]);
      }
    }
  }

  /** A write that is not right for the file was computed from another one. */
  lemma MisfitsWereOvertaken(file: File, s: State, e: Event)
    requires Reached(file, s) && Enabled(s, e) && !Fits(s, e)
    ensures e.DoWrite? || e.DoLand?
    ensures var u := if e.DoWrite? then s.updates[e.u] else s.orphans[e.u];
            u.phase.Writing? && u.phase.base != s.file
  {
    ReachedInv(file, s);
  }

  // ------------------------------------------------------------------ which cancellations do harm

  /** A cancellation that comes while a thread is writing for the update. */
  predicate TooLate(s: State, e: Event) { e.DoCancel? && CancelOk(s, e.u) && s.updates[e.u].phase.Writing? }

  predicate Timely(s: State, es: seq<Event>)
    requires Legal(s, es)
    decreases |es|
  {
    es == [] || (Timely(s, es[..|es| - 1]) && !TooLate(Run(s, es[..|es| - 1]), es[|es| - 1]))
  }

  /** No thread writes for a cancelled update, and the one that writes is right for the file. */
  ghost predicate Quiet(file: File, s: State) {
    && Locked(s.lock, s.updates) && s.orphans == map[] && InSeries(file, s)
    && (forall u <- s.updates :: s.updates[u].phase.Writing? ==> Current(s.file, s.updates[u]))
  }

  lemma QuietStep(file: File, s: State, e: Event)
    requires Quiet(file, s) && Enabled(s, e) && !TooLate(s, e)
    ensures Quiet(file, Step(s, e))
  {
    FitStep(file, s, e);
  }

  lemma {:induction false} QuietRun(file: File, s: State, es: seq<Event>)
    requires Quiet(file, s) && Legal(s, es) && Timely(s, es)
    ensures Quiet(file, Run(s, es))
    decreases |es|
  {
    if es != [] {
      QuietRun(file, s, es[..|es| - 1]);
      QuietStep(file, Run(s, es[..|es| - 1]), es[|es| - 1]);
    }
  }

  /** With no such cancellation no change is lost. */
  lemma UpdatesAreSerial(file: File, es: seq<Event>)
    requires Legal(Init(file), es) && Timely(Init(file), es)
    ensures InSeries(file, Run(Init(file), es))
  {
    QuietRun(file, Init(file), es);
  }

  /** With one, the file may have become anything before the thread replaces it. */
  lemma LateCancelLoses(file: File, s: State, u: Id)
    requires Quiet(file, s) && TooLate(s, DoCancel(u))
    ensures exists fs :: Legal(Cancel(s, u), fs) && Timely(Cancel(s, u), fs) && !InSeries(file, Run(Cancel(s, u), fs))
  {
    var c := Cancel(s, u);
    var e := Edit(c, Malformed);
    TwoSteps(c, DoEdit(Malformed), DoLand(u));
    FitStep(file, c, DoEdit(Malformed));
    FitStep(file, e, DoLand(u));
    assert !InSeries(file, Run(c, [DoEdit(Malformed), DoLand(u)]));
  }

  lemma TwoSteps(s: State, d: Event, e: Event)
    requires Enabled(s, d) && Enabled(Step(s, d), e) && !d.DoCancel? && !e.DoCancel?
    ensures Legal(s, [d, e]) && Run(s, [d, e]) == Step(Step(s, d), e) && Timely(s, [d, e])
  {
    assert Legal(s, []) && Run(s, []) == s && Timely(s, []);
    Extend(s, [], d);
    assert [] + [d] == [d];
    assert [d][..0] == [];
    assert Timely(s, [d]);
    Extend(s, [d], e);
    assert [d] + [e] == [d, e];
    assert [d, e][..1] == [d];
  }

  /** Which cancellation is safe, if none before it came too late: whatever follows it, short of
      another one that does, changes are lost in no run exactly if no thread is writing yet. */
  lemma CancelIsSafeExactly(file: File, es: seq<Event>, s: State, u: Id)
    requires Legal(Init(file), es) && Timely(Init(file), es) && s == Run(Init(file), es) && CancelOk(s, u)
    ensures (forall fs :: Legal(Cancel(s, u), fs) && Timely(Cancel(s, u), fs) ==> InSeries(file, Run(Cancel(s, u), fs)))
            <==> s.updates[u].phase.Reading?
  {
    QuietRun(file, Init(file), es);
    assert Busy(s.updates[u]);
    if TooLate(s, DoCancel(u)) {
      LateCancelLoses(file, s, u);
    } else {
      QuietStep(file, s, DoCancel(u));
      forall fs | Legal(Cancel(s, u), fs) && Timely(Cancel(s, u), fs) ensures InSeries(file, Run(Cancel(s, u), fs)) {
        QuietRun(file, Cancel(s, u), fs);
      }
    }
  }

  // ------------------------------------------------------------------ such a run

  function AddKey(key: string): Change {
    (j: Json) => if j.Object? then Some(Object(j.fields[key := Object(map[])])) else None
  }

  /** An update cancelled while its thread writes lets go of the lock: the next one reads the old
      file, is told that it has written its change, and is overwritten. */
  lemma CancelledWriteLosesAnother()
    ensures exists s :: Reached(NoFile, s)
                     && s.deeds == [Done(AddKey("subjects"), Written), Done(AddKey("surfaces"), Written)]
                     && s.file == Content(Object(map["surfaces" := Object(map[])]))
  {
    var c1, c2 := AddKey("surfaces"), AddKey("subjects");
    AddKeyWorks("surfaces");
    AddKeyWorks("subjects");
    var d1 := Object(map["surfaces" := Object(map[])]);
    assert Legal(Init(NoFile), []) && Run(Init(NoFile), []) == Init(NoFile);
    Overtaken(c1, c2, d1);
  }

  /** The first half: asked, locked, read, cancelled.  The second: another update from end to end,
      and then the thread of the first. */
  lemma Overtaken(c1: Change, c2: Change, d1: Json)
    requires Reached(NoFile, Init(NoFile))
    requires Updated(NoFile, c1) == (Content(d1), Written)
    requires Updated(NoFile, c2).1.Written? && Updated(NoFile, c2).0.Content?
    ensures exists s :: Reached(NoFile, s) && s.deeds == [Done(c2, Written), Done(c1, Written)] && s.file == Content(d1)
  {
    var s := Init(NoFile);
    Next(NoFile, s, DoAsk(1, c1));
    Next(NoFile, Ask(s, 1, c1), DoLock(1));
    Next(NoFile, Lock(Ask(s, 1, c1), 1), DoRead(1));
    var w := Read(Lock(Ask(s, 1, c1), 1), 1);
    var u := Update(c1, Writing(NoFile, d1));
    assert w.updates[1] == u && w.lock == Some(1) && w.file == NoFile && w.deeds == [];
    assert w.updates - {1} == map[] && w.orphans == map[];
    Next(NoFile, w, DoCancel(1));
    Overtakes(Cancel(w, 1), u, c2);
  }

  lemma Overtakes(s: State, u: Update, c2: Change)
    requires Reached(NoFile, s) && s == State(NoFile, None, map[], map[1 := u], []) && u.phase.Writing?
    requires Updated(NoFile, c2).1.Written? && Updated(NoFile, c2).0.Content?
    ensures exists s' :: Reached(NoFile, s')
                      && s'.deeds == [Done(c2, Written), Done(u.change, Written)] && s'.file == Content(u.phase.data)
  {
    Next(NoFile, s, DoAsk(2, c2));
    Next(NoFile, Ask(s, 2, c2), DoLock(2));
    Next(NoFile, Lock(Ask(s, 2, c2), 2), DoRead(2));
    var r := Read(Lock(Ask(s, 2, c2), 2), 2);
    assert WriteOk(r, 2) && r.orphans == map[1 := u] && r.deeds == [] && r.updates[2].change == c2;
    Next(NoFile, r, DoWrite(2, false));
    var w := Write(r, 2, false);
    Next(NoFile, w, DoLand(1));
    assert Land(w, 1).deeds == [Done(c2, Written), Done(u.change, Written)] && Land(w, 1).file == Content(u.phase.data);
  }

  lemma AddKeyWorks(key: string)
    requires key == "surfaces" || key == "subjects"
    ensures Updated(NoFile, AddKey(key)) == (Content(Object(map[key := Object(map[])])), Written)
  {
    var t := Object(map[]);
    assert IsTable(t);
    var m: map<string, Json> := map[];
    assert Parse(Object(m)).Some?;
    assert m[key := t] == map[key := t];
    assert Parse(Object(map[key := t])).Some?;
  }
}
