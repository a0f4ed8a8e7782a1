/** reload.py's own code: what Reloader does between two awaits, and the diff a reload acts on. */
module Reload {
  import opened Wrappers
  import opened ReloadState
  import opened Sorting

  class Reloader {
    var task: Task
    var next: Option<nat>
    var nextTrigger: Trigger
    var closedAt: Option<Time>
    var futures: seq<Future>
    var requests: seq<Request>
    var applies: seq<Apply>
    var neverStarted: bool
    var returnedLate: bool
    var now: Time

    constructor ()
      ensures Snapshot() == Init()
    {
      task, next, nextTrigger, closedAt := NoTask, None, "", None;
      futures, requests, applies, neverStarted, returnedLate, now := [], [], [], false, false, 0;
    }

    ghost function Snapshot(): State
      reads this
    {
      State(task, next, nextTrigger, closedAt, futures, requests, applies, neverStarted, returnedLate, now)
    }

    method CreateFuture(maker: nat) returns (f: nat)
      modifies this`futures
      ensures f == |old(futures)| && futures == old(futures) + [Future(maker, Pending)]
    {
      f := |futures|;
      futures := futures + [Future(maker, Pending)];
    }

    /** request, up to its shielded wait; None is the `failed` answer. */
    method Request(trigger: Trigger) returns (waits: Option<nat>)
      modifies this
      ensures Snapshot() == Ask(old(Snapshot()), trigger)
      ensures waits == Waits(old(Snapshot()))
      ensures waits.None? <==> old(closedAt).Some?
    {
      var me := |requests|;
      if closedAt.Some? {
        waits := None;
      } else if !IsIdle(task) {
        if next.None? {
          var f := CreateFuture(me);
          next := Some(f);
          nextTrigger := trigger;
        }
        waits := next;
      } else {
        var first := CreateFuture(me);
        task := Scheduled(first, false);
        waits := Some(first);
      }
      requests := requests + [ReloadState.Request(now, trigger, waits)];
      now := now + 1;
    }

    method Finish(f: nat, o: Outcome)
      modifies this`futures
      ensures futures == Resolve(old(futures), f, o)
    {
      if f < |futures| && futures[f].outcome.Pending? {
        futures := futures[f := futures[f].(outcome := o)];
      }
    }

    method BeginApply(trigger: Trigger, f: nat)
      modifies this`applies, this`task
      ensures applies == old(applies) + [Apply(trigger, f, now, None)] && task == Applying(f, false)
    {
      applies := applies + [Apply(trigger, f, now, None)];
      task := Applying(f, false);
    }

    /** _run up to its first await. */
    method RunStarts()
      requires StartOk(Snapshot())
      modifies this
      ensures Snapshot() == Start(old(Snapshot()))
    {
      BeginApply(TriggerOf(futures, requests, task.first), task.first);
      now := now + 1;
    }

    /** _run from an apply that returned or raised to the next one, or to the end. */
    method RunResumes(ok: bool)
      requires ReturnOk(Snapshot())
      modifies this
      ensures Snapshot() == Return(old(Snapshot()), ok)
      ensures var f := old(task).pending;
        f < |old(futures)| && old(futures)[f].outcome.Pending? ==>
          futures[f].outcome == Answered(|old(applies)| - 1, ok)
    {
      Finish(task.pending, Answered(|applies| - 1, ok));
      applies := End(applies, now);
      if next.Some? {
        var pending := next.value;
        next := None;
        returnedLate := returnedLate || closedAt.Some?;
        BeginApply(nextTrigger, pending);
      } else {
        task := Done;
      }
      now := now + 1;
    }

    /** The `finally` of _run on its way out with a BaseException. */
    method RunAborts()
      requires AbortOk(Snapshot())
      modifies this
      ensures Snapshot() == Abort(old(Snapshot()))
    {
      Finish(task.pending, Cancelled);
      if next.Some? {
        Finish(next.value, Cancelled);
      }
      next := None;
      applies := End(applies, now);
      task := Done;
      now := now + 1;
    }

    /** cancel, up to its wait. */
    method CancelRun()
      modifies this
      ensures Snapshot() == Cancel(old(Snapshot()))
    {
      if closedAt.None? {
        closedAt := Some(now);
      }
      if !IsIdle(task) {
        task := task.(cancelled := true);
      }
      now := now + 1;
    }
  }

  // ------------------------------------------------------------------ diff

  type Name = string
  type Print = string

  datatype Diff = Diff(added: seq<Name>, removed: seq<Name>, changed: seq<Name>, same: seq<Name>)

  function Elements(s: seq<Name>): set<Name> { set n | n in s }

  /** The four sorted lists of a diff. */
  ghost function DiffOf(have: map<Name, Print>, want: map<Name, Print>): Diff {
    Diff(Sorted(want.Keys - have.Keys),
         Sorted(have.Keys - want.Keys),
         Sorted(set n | n in want && n in have && want[n] != have[n]),
         Sorted(set n | n in want && n in have && want[n] == have[n]))
  }

  /** Every name is in exactly one of the four lists, and in it once: each is in increasing order. */
  lemma DiffPartitions(have: map<Name, Print>, want: map<Name, Print>)
    ensures var d := DiffOf(have, want);
            && Increasing(d.added) && Increasing(d.removed) && Increasing(d.changed) && Increasing(d.same)
            && Elements(d.added) + Elements(d.removed) + Elements(d.changed) + Elements(d.same)
                 == have.Keys + want.Keys
            && Elements(d.added) !! Elements(d.removed) !! Elements(d.changed) !! Elements(d.same)
  {}

  /** Taking `removed` and `changed` out and putting `added` and `changed` in, as a reload does,
      leads from the old registry to the new one, and leaves what is unchanged alone; and no other
      increasing lists do that. */
  lemma DiffRebuilds(have: map<Name, Print>, want: map<Name, Print>)
    ensures Rebuilds(have, want, DiffOf(have, want))
    ensures forall d :: Rebuilds(have, want, d) ==> d == DiffOf(have, want)
  {
    RebuildsIts(have, want);
    forall d | Rebuilds(have, want, d) ensures d == DiffOf(have, want) {
      RebuildsOnce(have, want, d);
    }
  }

  /** The lists of d are about the names they may be about, and acting on them gives `want`. */
  ghost predicate Rebuilds(have: map<Name, Print>, want: map<Name, Print>, d: Diff) {
    var kept := have - Elements(d.removed) - Elements(d.changed);
    && Increasing(d.added) && Increasing(d.removed) && Increasing(d.changed) && Increasing(d.same)
    && Elements(d.added) !! have.Keys && Elements(d.removed) + Elements(d.changed) <= have.Keys
    && Elements(d.removed) !! Elements(d.changed) && Elements(d.added) + Elements(d.changed) <= want.Keys
    && (forall n :: n in d.changed && n in have && n in want ==> want[n] != have[n])
    && kept.Keys == Elements(d.same)
    && kept + (map n | n in want && n in Elements(d.added) + Elements(d.changed) :: want[n]) == want
  }

  lemma RebuildsIts(have: map<Name, Print>, want: map<Name, Print>)
    ensures Rebuilds(have, want, DiffOf(have, want))
  {
    var d := DiffOf(have, want);
    DiffElements(have, want);
    Rebuilt(have, want, Elements(d.added), Elements(d.removed), Elements(d.changed), Elements(d.same));
  }

  lemma DiffElements(have: map<Name, Print>, want: map<Name, Print>)
    ensures var d := DiffOf(have, want);
            && Elements(d.added) == want.Keys - have.Keys && Elements(d.removed) == have.Keys - want.Keys
            && Elements(d.changed) == (set n | n in want && n in have && want[n] != have[n])
            && Elements(d.same) == (set n | n in want && n in have && want[n] == have[n])
  {}

  lemma Rebuilt(have: map<Name, Print>, want: map<Name, Print>, added: set<Name>, removed: set<Name>,
                changed: set<Name>, same: set<Name>)
    requires added == want.Keys - have.Keys && removed == have.Keys - want.Keys
    requires changed == (set n | n in want && n in have && want[n] != have[n])
    requires same == (set n | n in want && n in have && want[n] == have[n])
    ensures var kept := have - removed - changed;
            kept.Keys == same && kept + (map n | n in want && n in added + changed :: want[n]) == want
  {
    var kept := have - removed - changed;
    var put := map n | n in want && n in added + changed :: want[n];
    forall n ensures n in kept + put <==> n in want {}
  }

  lemma RebuildsOnce(have: map<Name, Print>, want: map<Name, Print>, d: Diff)
    requires Rebuilds(have, want, d)
    ensures d == DiffOf(have, want)
  {
    var e := DiffOf(have, want);
    ListedOnce(d.added, e.added, want.Keys - have.Keys);
    ListedOnce(d.removed, e.removed, have.Keys - want.Keys);
    ListedOnce(d.changed, e.changed, set n | n in want && n in have && want[n] != have[n]);
    ListedOnce(d.same, e.same, set n | n in want && n in have && want[n] == have[n]);
  }

  lemma NothingToDoExactlyWhenEqual(have: map<Name, Print>, want: map<Name, Print>)
    ensures var d := DiffOf(have, want);
            d.added == [] && d.removed == [] && d.changed == [] <==> have == want
  {
    var d := DiffOf(have, want);
    Empty(d.added, want.Keys - have.Keys);
    Empty(d.removed, have.Keys - want.Keys);
    Empty(d.changed, set n | n in want && n in have && want[n] != have[n]);
    if d.added == [] && d.removed == [] && d.changed == [] {
      forall n ensures n in have <==> n in want {
        assert n !in want.Keys - have.Keys && n !in have.Keys - want.Keys;
      }
      forall n | n in have ensures have[n] == want[n] {
        assert n !in set m | m in want && m in have && want[m] != have[m];
      }
      assert have == want;
    }
  }
}
