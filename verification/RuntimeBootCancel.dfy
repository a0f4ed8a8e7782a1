/**
 Nothing closes what a cancelled boot has attached.  build_surfaces awaits its gather outside any
 `try`, so a cancellation leaves `built` behind with its backends; only reload closes them.  The run
 below is one such boot; `RuntimeTheorems.UnownedIsClosedExactly` says which runs have one.
*/
module RuntimeBootCancel {
  import opened Wrappers
  import opened RuntimeState
  import opened RuntimeEvents
  import opened RuntimeTheorems

  const PRINTS: map<Name, string> := map["a" := "f", "b" := "g"]

  /** "a" has attached backend 0, "b" is still building. */
  function Half(): State {
    Init(PRINTS).(children := map["a" := ChildOk, "b" := ChildBuilding], owned := map[InBuilt("a") := 0],
                  closes := map[0 := 0], origin := map[0 := "f"], next := 1)
  }

  /** boot() has raised; the branch of "b" has ended. */
  function Raised(): State {
    Init(PRINTS).(control := BootAborting, children := map[], owned := map[], closes := map[0 := 0],
                  lost := {0}, origin := map[0 := "f"], next := 1)
  }

  lemma Attaches(m: State)
    requires m == Init(PRINTS).(children := map["a" := ChildFinishing, "b" := ChildBuilding],
                                owned := map[ByChild("a") := 0], closes := map[0 := 0], origin := map[0 := "f"],
                                next := 1)
    ensures ChildBuiltOk(Init(PRINTS), "a") && ChildBuilt(Init(PRINTS), "a") == m
    ensures ChildHolds(m, "a") && ChildAttach(m, "a") == Half()
  {
    assert Init(PRINTS).children == map["a" := ChildBuilding, "b" := ChildBuilding];
  }

  lemma Cancels(c: State)
    requires c == Raised().(children := map["b" := ChildBuilding])
    ensures BootCancelOk(Half()) && BootCancel(Half()) == c
    ensures AbortChildOk(c, "b") && AbortChild(c, "b") == Raised()
  {
    var h := InBuilt("a");
    assert h in Half().owned && Half().owned[h] == 0;
    assert Half().owned[h] in BootCancel(Half()).lost;
    assert BootCancel(Half()).lost == {0};
  }

  /** A run in which boot() raises and backend 0, attached, is left open with nobody to close it. */
  lemma CancelledBootLeaksABackend() returns (es: seq<Event>, s: State)
    ensures Reached(PRINTS, es, s) && s.control.BootAborting? && s.children == map[]
    ensures 0 in s.closes && s.closes[0] == 0 && !Held(s, 0)
  {
    var m := Init(PRINTS).(children := map["a" := ChildFinishing, "b" := ChildBuilding],
                           owned := map[ByChild("a") := 0], closes := map[0 := 0], origin := map[0 := "f"], next := 1);
    var c := Raised().(children := map["b" := ChildBuilding]);
    Attaches(m);
    Cancels(c);
    var a1, a2, a3, a4 := OfAttach(DoChildBuilt("a")), OfAttach(DoChildAttach("a")), OfStop(DoBootCancel),
                          OfStop(DoAbortChild("b"));
    Extend(Init(PRINTS), [], a1);
    Extend(Init(PRINTS), [] + [a1], a2);
    Extend(Init(PRINTS), [] + [a1] + [a2], a3);
    Extend(Init(PRINTS), [] + [a1] + [a2] + [a3], a4);
    es, s := [] + [a1] + [a2] + [a3] + [a4], Raised();
  }
}
