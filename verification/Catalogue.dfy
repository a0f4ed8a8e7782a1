/** Catalogue's own code, between two awaits. */
module Catalogue {
  import opened Wrappers
  import opened CatalogueState
  import opened CatalogueProofs

  class Catalogue {
    const ttlMs: Option<int>
    const pinned: set<Name>
    ghost const attached: set<Name>
    var descriptors: seq<Descriptor>
    var index: Option<Index>
    var byName: Option<map<Name, Descriptor>>
    var fetchedAt: real
    var refreshing: bool
    var status: Status
    var drift: Drift

    constructor (ds: seq<Descriptor>, ttlMs: Option<int>, now: real)
      ensures Snapshot(map[], [], 0, now) == Init(ds, ttlMs, now)
    {
      this.ttlMs, pinned, attached, descriptors := ttlMs, PinnedNames(ds), Names(ds), ds;
      index, byName, fetchedAt, refreshing := None, None, now, false;
      status := if ttlMs.Some? && ttlMs.value != 0 then Fine else NoStatus;
      drift := Drift({}, {}, {});
    }

    /** The catalogue as a state of the machine, with what the machine knows besides. */
    ghost function Snapshot(running: map<Id, real>, attempts: seq<Attempt>, next: Id, now: real): State
      reads this
    {
      State(ttlMs, pinned, attached, descriptors, index, byName, fetchedAt, refreshing, status, drift,
            running, attempts, next, now)
    }

    /** ensure_fresh up to its await; `go` says that it re-lists, and `next` names that re-list. */
    method EnsureFresh(now: real, ghost running: map<Id, real>, ghost next: Id) returns (go: bool)
      modifies this`refreshing
      ensures go <==> && ttlMs.Some? && ttlMs.value != 0 && !old(refreshing)
                      && (now - fetchedAt) * 1000.0 >= ttlMs.value as real
      ensures Ensure(old(Snapshot(running, [], next, now)), now)
           == if go then Snapshot(running[next := now], [], next + 1, now) else Snapshot(running, [], next, now)
    {
      if ttlMs.None? || ttlMs.value == 0 {
        return false;
      }
      if (now - fetchedAt) * 1000.0 < ttlMs.value as real {
        return false;
      }
      if refreshing {
        return false;
      }
      refreshing := true;
      return true;
    }

    /** ensure_fresh when the re-list `r` has returned. */
    method Listed(listed: seq<Descriptor>, now: real, ghost running: map<Id, real>, ghost r: Id)
      requires r in running
      modifies this
      ensures Relist(old(Snapshot(running, [], 0, now)), r, listed, now)
           == Snapshot(running - {r}, [Attempt(running[r], now, Relisted(drift))], 0, now)
      ensures Names(descriptors) == Applied(old(Names(descriptors)), drift)
    {
      refreshing := false;
      drift := Diff(listed);
      DriftLeads(Snapshot(running, [], 0, now), listed);
      descriptors := listed;
      index := None;
      byName := None;
      fetchedAt := now;
      status := if Changed(drift) then Drifted else Fine;
    }

    /** _diff */
    method Diff(listed: seq<Descriptor>) returns (d: Drift)
      ensures d == DriftTo(Snapshot(map[], [], 0, 0.0), listed)
    {
      var before, now := Names(descriptors), Names(listed);
      d := Drift(now - before, before - now, pinned - now);
    }

    /** ensure_fresh when the re-list `r` has raised. */
    method ListFailed(now: real, ghost running: map<Id, real>, ghost r: Id)
      requires r in running
      modifies this
      ensures Raise(old(Snapshot(running, [], 0, now)), r, now)
           == Snapshot(running - {r}, [Attempt(running[r], now, Raised)], 0, now)
    {
      fetchedAt := now;
      status := Stale;
      refreshing := false;
    }

    /** The `index` property. */
    method GetIndex() returns (r: Index)
      modifies this`index
      ensures Snapshot(map[], [], 0, 0.0) == ReadIndex(old(Snapshot(map[], [], 0, 0.0)))
      ensures index == Some(r)
    {
      if index.None? {
        index := Some(IndexOf(descriptors));
      }
      r := index.value;
    }

    /** The `by_name` property. */
    method GetByName() returns (r: map<Name, Descriptor>)
      modifies this`byName
      ensures Snapshot(map[], [], 0, 0.0) == ReadNames(old(Snapshot(map[], [], 0, 0.0)))
      ensures byName == Some(r)
    {
      if byName.None? {
        var built := BuildByName(descriptors);
        byName := Some(built);
      }
      r := byName.value;
    }
  }

  /** {d.name: d for d in descriptors} */
  method BuildByName(ds: seq<Descriptor>) returns (m: map<Name, Descriptor>)
    ensures m == ByName(ds)
    ensures forall i :: 0 <= i < |ds| && (forall j :: i < j < |ds| ==> ds[j].name != ds[i].name) ==>
              ds[i].name in m && m[ds[i].name] == ds[i]
  {
    m := map[];
    for i := 0 to |ds|
      invariant m == ByName(ds[..i])
    {
      m := m[ds[i].name := ds[i]];
      assert ds[..i + 1][..i] == ds[..i];
    }
    assert ds[..|ds|] == ds;
    forall i | 0 <= i < |ds| && (forall j :: i < j < |ds| ==> ds[j].name != ds[i].name)
      ensures ds[i].name in m && m[ds[i].name] == ds[i]
    {
      LastWins(ds, i);
    }
  }
}
