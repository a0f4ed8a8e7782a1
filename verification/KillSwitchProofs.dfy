/** The shape of the kill switch's file, and when its cached reader answers what is there. */
module KillSwitchProofs {
  import opened Wrappers
  import opened JsonValues
  import opened KillSwitchState

  // ------------------------------------------------------------------ the shape of the file

  predicate WellFormed(s: KillState) { "" !in s.surfaces && "" !in s.subjects }

  lemma TableRoundTrip(t: Table)
    requires "" !in t
    ensures IsTable(TableJson(t)) && TableOf(TableJson(t)) == t
  {}

  /** What the admin API shows is a file that means the same state. */
  lemma ParseOfAsJson(s: KillState)
    requires WellFormed(s)
    ensures Parse(AsJson(s)) == Some(s)
  {
    TableRoundTrip(s.surfaces);
    TableRoundTrip(s.subjects);
    assert AsJson(s).fields.Keys <= {"all", "surfaces", "subjects"};
  }

  lemma ParsedIsWellFormed(data: Json)
    ensures Parse(data).Some? ==> WellFormed(Parse(data).value)
  {}

  /** What a file may hold: an object of at most three keys; `all` a stop or null, and two tables of
      named stops. */
  lemma ParseExactly(data: Json)
    ensures Parse(data).Some? <==>
      && data.Object?
      && (forall k <- data.fields :: k == "all" || k == "surfaces" || k == "subjects")
      && ("all" in data.fields ==> data.fields["all"].Null? || data.fields["all"].Object?)
      && ("surfaces" in data.fields ==> NamesStops(data.fields["surfaces"]))
      && ("subjects" in data.fields ==> NamesStops(data.fields["subjects"]))
    ensures Parse(data).Some? ==>
      var s := Parse(data).value;
      && (s.all.Some? <==> "all" in data.fields && data.fields["all"].Object?)
      && (s.all.Some? ==> data.fields["all"] == Object(s.all.value))
      && (forall n :: n in s.surfaces <==>
            "surfaces" in data.fields && data.fields["surfaces"].Object? && n in data.fields["surfaces"].fields)
      && (forall n :: n in s.subjects <==>
            "subjects" in data.fields && data.fields["subjects"].Object? && n in data.fields["subjects"].fields)
  {}

  predicate NamesStops(v: Json) { v.Object? && forall k <- v.fields :: k != "" && v.fields[k].Object? }

  /** A surface is stopped by the stop of all, named as such, and otherwise by its own. */
  lemma DisabledExactly(s: KillState, surface: string)
    ensures Disabled(s, surface).None? <==> s.all.None? && surface !in s.surfaces
    ensures Disabled(s, surface) == Some("all") <==> s.all.Some?
    ensures Disabled(s, surface) == Some("surface") <==> s.all.None? && surface in s.surfaces
  {}

  /** A file that is not there stops nothing and blocks nobody, whatever was read before. */
  lemma MissingStopsNothing(r: Reader, surface: string)
    ensures var (next, answer) := Look(r, Missing);
      && answer.Some? && Disabled(answer.value, surface).None? && answer.value.subjects == map[]
      && next.good == answer && !next.stale
  {}

  // ------------------------------------------------------------------ the cached reader

  /** The reader recalls an outcome for the stamp, and does not read. */
  predicate Recalls(r: Reader, stamp: Stamp) {
    r.good.Some? && (r.stamp == Some(stamp) || r.bad == Some(Some(stamp)))
  }

  /** A file that would read as something else than the state the reader keeps is not read. */
  predicate Misses(r: Reader, sight: Sight) {
    sight.Found? && Recalls(r, sight.stamp) && sight.read.Some? && sight.read != r.good
  }

  /** Whether reading would fail is not what the reader recalls for the stamp. */
  predicate Misreports(r: Reader, sight: Sight) {
    && sight.Found? && Recalls(r, sight.stamp)
    && (sight.read.None? <==> r.stamp == Some(sight.stamp))
  }

  /** On any one call: exactly when the cached answer is not that of a reader which reads every time,
      and exactly when `stale` is not whether the file could be read. */
  lemma LookIsExact(r: Reader, sight: Sight)
    ensures Look(r, sight).1 != PlainLook(r.good, sight) <==> Misses(r, sight)
    ensures Look(r, sight).1.Some? ==> ((Look(r, sight).0.stale <==> Failed(sight)) <==> !Misreports(r, sight))
    ensures Look(r, sight).0.good == Look(r, sight).1
  {}

  predicate Same(sights: seq<Sight>, i: nat)
    requires i < |sights|
  {
    Look(After(sights[..i]), sights[i]).1 == PlainLook(PlainAfter(sights[..i]), sights[i])
  }

  predicate Missed(sights: seq<Sight>, i: nat)
    requires i < |sights|
  {
    Misses(After(sights[..i]), sights[i])
  }

  lemma SameStep(sights: seq<Sight>, i: nat)
    requires i < |sights| && After(sights[..i]).good == PlainAfter(sights[..i])
    ensures Same(sights, i) <==> !Missed(sights, i)
    ensures Same(sights, i) ==> After(sights[..i + 1]).good == PlainAfter(sights[..i + 1])
  {
    LookIsExact(After(sights[..i]), sights[i]);
    assert sights[..i + 1][..i] == sights[..i];
  }

  /** Until the first miss the cache keeps what the uncached reader would. */
  lemma {:induction false} SameUntilMissed(sights: seq<Sight>, n: nat)
    requires n <= |sights|
    ensures (forall i: nat :: i < n ==> Same(sights, i)) <==> (forall i: nat :: i < n ==> !Missed(sights, i))
    ensures (forall i: nat :: i < n ==> Same(sights, i)) ==> After(sights[..n]).good == PlainAfter(sights[..n])
  {
    if n > 0 {
      SameUntilMissed(sights, n - 1);
      if After(sights[..n - 1]).good == PlainAfter(sights[..n - 1]) {
        SameStep(sights, n - 1);
      }
    }
  }

  /** On every call of a history the cached reader answers what an uncached one would, exactly if on
      no call it misses what the file would read as. */
  lemma CacheIsInvisibleExactly(sights: seq<Sight>)
    ensures (forall i: nat :: i < |sights| ==> Same(sights, i)) <==>
            (forall i: nat :: i < |sights| ==> !Missed(sights, i))
  {
    SameUntilMissed(sights, |sights|);
  }

  /** What a read gives is a function of the stamp. */
  ghost predicate Consistent(sights: seq<Sight>) {
    forall i, j :: 0 <= i < |sights| && 0 <= j < |sights| ==> Agree(sights[i], sights[j])
  }

  predicate Agree(a: Sight, b: Sight) { a.Found? && b.Found? && a.stamp == b.stamp ==> a.read == b.read }

  predicate Gives(sight: Sight, stamp: Stamp, read: Option<KillState>) {
    sight.Found? && sight.stamp == stamp ==> sight.read == read
  }

  /** The cache is right about the stamps it knows, in all of a history. */
  ghost predicate Right(r: Reader, last: Option<KillState>, sights: seq<Sight>) {
    && r.good == last
    && (r.stamp.Some? && last.Some? ==> forall i :: 0 <= i < |sights| ==> Gives(sights[i], r.stamp.value, last))
    && (r.bad.Some? && r.bad.value.Some? ==>
          forall i :: 0 <= i < |sights| ==> Gives(sights[i], r.bad.value.value, None))
  }

  lemma LookKeeps(r: Reader, last: Option<KillState>, sights: seq<Sight>, n: nat)
    requires Right(r, last, sights) && Consistent(sights) && n < |sights|
    ensures Right(Look(r, sights[n]).0, PlainLook(last, sights[n]), sights)
    ensures Look(r, sights[n]).1 == PlainLook(last, sights[n])
    ensures PlainLook(last, sights[n]).Some? ==> (Look(r, sights[n]).0.stale <==> Failed(sights[n]))
  {
    var sight := sights[n];
    if sight.Found? {
      forall i | 0 <= i < |sights| ensures Gives(sights[i], sight.stamp, sight.read) {
        assert Agree(sights[i], sight);
      }
      if r.stamp == Some(sight.stamp) && r.good.Some? { assert Gives(sight, r.stamp.value, last); }
      if r.bad == Some(Some(sight.stamp)) { assert Gives(sight, sight.stamp, None); }
    }
  }

  /** The file could not be stat'ed, read or parsed. */
  predicate Failed(sight: Sight) { sight.StatFails? || (sight.Found? && sight.read.None?) }

  lemma {:induction false} AfterIsRight(sights: seq<Sight>, n: nat)
    requires Consistent(sights) && n <= |sights|
    ensures Right(After(sights[..n]), PlainAfter(sights[..n]), sights)
  {
    if n > 0 {
      AfterIsRight(sights, n - 1);
      LookKeeps(After(sights[..n - 1]), PlainAfter(sights[..n - 1]), sights, n - 1);
      assert sights[..n][..n - 1] == sights[..n - 1];
    }
  }

  /** On every call of every history the cached reader answers what an uncached one would: the
      content if it is valid, nothing if there is no file, else the last good state, and an error
      only if there never was one; and `stale` says that this call could not read the file. */
  lemma CacheIsInvisible(sights: seq<Sight>, n: nat)
    requires Consistent(sights) && n < |sights|
    ensures Look(After(sights[..n]), sights[n]).1 == PlainLook(PlainAfter(sights[..n]), sights[n])
    ensures Look(After(sights[..n]), sights[n]).1.None? <==>
            forall i :: 0 <= i <= n ==> Failed(sights[i])
    ensures Look(After(sights[..n]), sights[n]).1.Some? ==>
              (Look(After(sights[..n]), sights[n]).0.stale <==> Failed(sights[n]))
  {
    AfterIsRight(sights, n);
    LookKeeps(After(sights[..n]), PlainAfter(sights[..n]), sights, n);
    NeverGood(sights, n);
  }

  lemma {:induction false} NeverGood(sights: seq<Sight>, n: nat)
    requires n <= |sights|
    ensures PlainAfter(sights[..n]).None? <==> forall i :: 0 <= i < n ==> Failed(sights[i])
  {
    if n > 0 {
      NeverGood(sights, n - 1);
      assert sights[..n][..n - 1] == sights[..n - 1];
    }
  }

  /** A read that failed once for a stamp is not tried again for it: a passing error keeps the old
      state although the file is readable by now. */
  lemma PassingErrorSticks(a: Stamp, b: Stamp, was: KillState, now: KillState)
    requires a != b && was != now
    ensures var sights := [Found(a, Some(was)), Found(b, None), Found(b, Some(now))];
            && Look(After(sights[..2]), sights[2]).1 == Some(was)
            && PlainLook(PlainAfter(sights[..2]), sights[2]) == Some(now)
  {
    var sights := [Found(a, Some(was)), Found(b, None), Found(b, Some(now))];
    assert sights[..2][..1] == [sights[0]] && [sights[0]][..0] == [];
    assert After([sights[0]]) == Reader(Some(a), Some(was), None, false);
    assert After(sights[..2]) == Reader(Some(a), Some(was), Some(Some(b)), true);
  }
}
