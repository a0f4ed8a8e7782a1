/**
 Shutdown does not close everything when an app dies while it waits.  runtime.shutdown lists the
 retries of the table once; _serving_failed then starts a retry that is in no list, and nothing
 cancels it.  The first run below is the shortest such history, the second one has the app fail
 because shutdown has cancelled it.  `RuntimeTheorems.ShutdownClosesEverything` and
 `RuntimeShutdown.ShutdownClosesExactly` say when shutdown does close everything.
*/
module RuntimeLateDeath {
  import opened Wrappers
  import opened RuntimeState
  import opened RuntimeEvents
  import opened RuntimeTheorems
  import opened RuntimeShutdown

  const PRINTS: map<Name, string> := map["a" := "f"]

  /** Surface "a" attached as backend 0, before its slot exists. */
  function Attached(): State {
    Init(PRINTS).(children := map["a" := ChildOk], owned := map[InBuilt("a") := 0], closes := map[0 := 0],
                  origin := map[0 := "f"], next := 1)
  }

  /** ... in slot 1, waiting in _booted. */
  function WithSlot(c: Control): State {
    Attached().(control := c, children := map[], table := map["a" := 1],
                slots := map[1 := Slot("a", None, None, None, false)], owned := map[InBooted("a") := 0], next := 2)
  }

  /** ... being installed by supervisor 2. */
  function Starting2(phase: Phase): State {
    WithSlot(StartUp(Some(Install("a", 2)))).(
      supervisors := map[2 := Supervisor(phase, false, false, false, 0, AtControl)],
      owned := map[BySupervisor(2) := 0], next := 3)
  }

  /** ... serving. */
  function Serving2(c: Control): State {
    Starting2(Serving).(control := c, slots := map[1 := Slot("a", Some(2), Some(2), None, false)],
                        supervisors := map[2 := Supervisor(Serving, false, false, false, 0, AtSlot(1))])
  }

  /** The app has died after shutdown began; retry 3 was started. */
  function Dead(p: RetryPhase): State {
    Serving2(StopRetries({})).(
      slots := map[1 := Slot("a", None, None, Some(3), false)], failed := {"a"},
      supervisors := map[2 := Supervisor(Closed, false, false, false, 0, Gone)],
      retries := map[3 := Retry(1, p, false, "f")], owned := map[], closes := map[0 := 1], next := 4, lateDeaths := 1)
  }

  /** ... and has attached backend 4. */
  function Orphaned(c: Control): State {
    Dead(Finishing).(control := c, owned := map[ByRetry(3) := 4], closes := map[0 := 1, 4 := 0],
                        origin := map[0 := "f", 4 := "f"], next := 5)
  }

  predicate Trail(es: seq<Event>, s: State) {
    Legal(Init(PRINTS), es) && After(Init(PRINTS), es) == s
  }

  lemma Go(es: seq<Event>, s: State, e: Event, r: State) returns (fs: seq<Event>)
    requires Trail(es, s) && Enabled(s, e) && Step(s, e) == r
    ensures Trail(fs, r)
  {
    Extend(Init(PRINTS), es, e);
    fs := es + [e];
  }

  lemma AttachesA() returns (es: seq<Event>)
    ensures Trail(es, Attached())
  {
    es := [];
    var m := Attached().(children := map["a" := ChildFinishing], owned := map[ByChild("a") := 0]);
    es := Go(es, Init(PRINTS), OfAttach(DoChildBuilt("a")), m);
    es := Go(es, m, OfAttach(DoChildAttach("a")), Attached());
  }

  lemma Boots(es0: seq<Event>) returns (es: seq<Event>)
    requires Trail(es0, Attached())
    ensures Trail(es, WithSlot(StartUp(None)))
  {
    es := Go(es0, Attached(), OfBoot(DoBootOne("a")), WithSlot(Booting));
    es := Go(es, WithSlot(Booting), OfBoot(DoBootDone), WithSlot(Built));
    es := Go(es, WithSlot(Built), OfBoot(DoStart), WithSlot(StartUp(None)));
  }

  lemma Installs(es0: seq<Event>) returns (es: seq<Event>)
    requires Trail(es0, WithSlot(StartUp(None)))
    ensures Trail(es, Starting2(Entering))
  {
    es := Go(es0, WithSlot(StartUp(None)), OfBoot(DoStartInstall("a")), Starting2(Entering));
  }

  lemma GetsReady(es0: seq<Event>) returns (es: seq<Event>)
    requires Trail(es0, Starting2(Entering))
    ensures Trail(es, Starting2(Serving))
  {
    es := Go(es0, Starting2(Entering), OfSup(DoSupReady(2)), Starting2(Serving));
  }

  lemma Serves(es0: seq<Event>) returns (es: seq<Event>)
    requires Trail(es0, Starting2(Serving))
    ensures Trail(es, Serving2(StartUp(None)))
  {
    es := Go(es0, Starting2(Serving), OfBoot(DoStartInstalled), Serving2(StartUp(None)));
  }

  lemma Runs(es0: seq<Event>) returns (es: seq<Event>)
    requires Trail(es0, Serving2(StartUp(None)))
    ensures Trail(es, Serving2(Running))
  {
    es := Go(es0, Serving2(StartUp(None)), OfBoot(DoStartDone), Serving2(Running));
  }

  lemma ShutsDown(es0: seq<Event>) returns (es: seq<Event>)
    requires Trail(es0, Serving2(Running))
    ensures Trail(es, Serving2(StopRetries({})))
  {
    var s := Serving2(Running);
    assert Shutdown(s).control.wait == {} && Shutdown(s).retries == map[];
    es := Go(es0, s, OfStop(DoShutdown), Serving2(StopRetries({})));
  }

  lemma AppDies(es0: seq<Event>) returns (es: seq<Event>)
    requires Trail(es0, Serving2(StopRetries({})))
    ensures Trail(es, Dead(Sleeping))
  {
    var s := Serving2(StopRetries({}));
    assert SupDies(s, 2) == Dead(Sleeping);
    es := Go(es0, s, OfSup(DoSupDies(2)), Dead(Sleeping));
  }

  lemma Wakes(es0: seq<Event>) returns (es: seq<Event>)
    requires Trail(es0, Dead(Sleeping))
    ensures Trail(es, Dead(Building))
  {
    es := Go(es0, Dead(Sleeping), OfRetry(DoRetryWake(3)), Dead(Building));
  }

  lemma Built4()
    ensures RetryBuiltOk(Dead(Building), 3)
    ensures RetryBuilt(Dead(Building), 3) == Orphaned(StopRetries({}))
  {
  }

  lemma Attaches4(es0: seq<Event>) returns (es: seq<Event>)
    requires Trail(es0, Dead(Building))
    ensures Trail(es, Orphaned(StopRetries({})))
  {
    Built4();
    es := Go(es0, Dead(Building), OfRetry(DoRetryBuilt(3)), Orphaned(StopRetries({})));
  }

  lemma NobodyIsStopped()
    ensures StopAll(Orphaned(StopRetries({}))) == Orphaned(StopSupervisors({}))
  {
    var s := Orphaned(StopRetries({}));
    assert StopTasks(s) == {};
    StopNobody(s);
  }

  lemma StopNobody(s: State)
    requires StopTasks(s) == {}
    ensures StopAll(s) == s.(control := StopSupervisors({}))
  {
    assert StopAll(s).supervisors == s.supervisors;
    assert StopAll(s).retries == s.retries;
  }

  lemma StopsAll(es0: seq<Event>) returns (es: seq<Event>)
    requires Trail(es0, Orphaned(StopRetries({})))
    ensures Trail(es, Orphaned(StopSupervisors({})))
  {
    NobodyIsStopped();
    es := Go(es0, Orphaned(StopRetries({})), OfStop(DoStopAll), Orphaned(StopSupervisors({})));
  }

  /** A run in which shutdown returns while a backend it attached is still open. */
  lemma LateDeathLeaksABackend() returns (es: seq<Event>, s: State)
    ensures Reached(PRINTS, es, s) && s.control.Down? && s.lateDeaths == 1
    ensures 4 in s.closes && s.closes[4] == 0 && 3 in s.retries && !s.retries[3].cancelled
  {
    es := AttachesA();
    es := Boots(es);
    es := Installs(es);
    es := GetsReady(es);
    es := Serves(es);
    es := Runs(es);
    es := ShutsDown(es);
    es := AppDies(es);
    es := Wakes(es);
    es := Attaches4(es);
    es := StopsAll(es);
    es := Go(es, Orphaned(StopSupervisors({})), OfStop(DoFinish), Orphaned(Down));
    s := Orphaned(Down);
  }

  lemma StopsServing(es0: seq<Event>) returns (es: seq<Event>)
    requires Trail(es0, Serving2(StopRetries({})))
    ensures Trail(es, StopAll(Serving2(StopRetries({}))))
  {
    es := Go(es0, Serving2(StopRetries({})), OfStop(DoStopAll), StopAll(Serving2(StopRetries({}))));
  }

  /** With every supervisor cancelled and no retry left, shutdown still leaks a backend in some run
      if the app raises while it leaves its lifespan; and in none if it leaves quietly. */
  lemma ExitErrorLeaksABackend() returns (es: seq<Event>, s: State, fs: seq<Event>)
    ensures Reached(PRINTS, es, s) && s.control.StopSupervisors? && s.retries == map[]
    ensures 2 in s.supervisors && s.supervisors[2].cancelled && SupervisorTask(2) in s.control.tasks
    ensures Finishes(s, fs, true) && !AllClosed(After(s, fs))
    ensures forall gs :: Finishes(s, gs, false) ==> AllClosed(After(s, gs))
  {
    es := AttachesA();
    es := Boots(es);
    es := Installs(es);
    es := GetsReady(es);
    es := Serves(es);
    es := Runs(es);
    es := ShutsDown(es);
    es := StopsServing(es);
    s := StopAll(Serving2(StopRetries({})));
    ServingIsListed();
    ShutdownClosesExactly(PRINTS, es, s, true);
    ShutdownClosesExactly(PRINTS, es, s, false);
    fs :| Finishes(s, fs, true) && !AllClosed(After(s, fs));
  }

  lemma ServingIsListed()
    ensures var s := StopAll(Serving2(StopRetries({})));
      && s.control.StopSupervisors? && s.retries == map[]
      && 2 in s.supervisors && s.supervisors[2].cancelled && SupervisorTask(2) in s.control.tasks
      && Escapes(s, true) && !Escapes(s, false)
  {
    var p := Serving2(StopRetries({}));
    var s := StopAll(p);
    assert TableSup(p.table, p.slots, p.supervisors[2], 2);
    assert SupervisorTask(2) in StopTasks(p);
    assert CanSpawn(s, 2);
  }
}
