/** What holds after every sequence of steps of ReloadState. */
module ReloadTheorems {
  import opened Wrappers
  import opened ReloadState
  import opened ReloadProofs

  lemma {:induction false} RunKeeps(es: seq<Event>)
    requires Legal(Init(), es)
    ensures Inv(After(Init(), es))
    decreases |es|
  {
    if es == [] {
      InitKeeps();
    } else {
      RunKeeps(es[..|es| - 1]);
      StepKeeps(After(Init(), es[..|es| - 1]), es[|es| - 1]);
    }
  }

  ghost predicate Reached(s: State) {
    exists es :: Legal(Init(), es) && s == After(Init(), es)
  }

  lemma ReachedInv(s: State)
    requires Reached(s)
    ensures Inv(s)
  {
    var es :| Legal(Init(), es) && s == After(Init(), es);
    RunKeeps(es);
  }

  // ------------------------------------------------------------------ serialized

  lemma OneApplyAtATime(s: State, a: nat, b: nat)
    requires Reached(s) && a < b < |s.applies|
    ensures s.applies[a].ended.Some? && s.applies[a].ended.value <= s.applies[b].started
  {
    ReachedInv(s);
  }

  /** Whoever is answered gets the outcome of an apply that began after the request was made, and
      has ended. */
  lemma AnsweredByALaterApply(s: State, q: nat)
    requires Reached(s) && q < |s.requests| && s.requests[q].waits.Some?
    ensures s.requests[q].waits.value < |s.futures|
    ensures var o := s.futures[s.requests[q].waits.value].outcome;
            o.Answered? ==>
              && o.apply < |s.applies|
              && s.requests[q].at < s.applies[o.apply].started
              && s.applies[o.apply].ended.Some?
  {
    ReachedInv(s);
    assert Joined(s.requests[q], q, s.futures);
    var f := s.requests[q].waits.value;
    assert Answer(s.futures[f].outcome, f, s.applies);
  }

  predicate Ended(applies: seq<Apply>, a: nat) { a < |applies| && applies[a].ended.Some? }

  /** The event of the run that ended apply a. */
  function EndOf(es: seq<Event>, a: nat): Option<Event>
    requires Legal(Init(), es)
    decreases |es|
  {
    if es == [] then None
    else if Ended(After(Init(), es[..|es| - 1]).applies, a) then EndOf(es[..|es| - 1], a)
    else if Ended(After(Init(), es).applies, a) then Some(es[|es| - 1])
    else None
  }

  /** How a future is resolved by the end of its apply: `set_result`, `_fail` with what it raised, or
      `_fail` because the apply was cancelled. */
  predicate Told(o: Outcome, a: nat, end: Event) {
    match end
    case DoReturn(ok) => o == Answered(a, ok)
    case DoAbort => o.Cancelled?
    case _ => false
  }

  lemma ToldStep(s: State, e: Event, a: nat)
    requires Inv(s) && Enabled(s, e) && !Ended(s.applies, a) && Ended(Step(s, e).applies, a)
    ensures var s' := Step(s, e);
            s'.applies[a].future < |s'.futures| && Told(s'.futures[s'.applies[a].future].outcome, a, e)
  {
    assert s.task.Applying? && s.applies[|s.applies| - 1].future == s.task.pending;
    assert Live(s.task, s.next, s.task.pending);
  }

  lemma ToldStays(s: State, e: Event, a: nat)
    requires Inv(s) && Enabled(s, e) && Ended(s.applies, a)
    ensures var s' := Step(s, e);
            && Ended(s'.applies, a) && s'.applies[a].future == s.applies[a].future < |s.futures| <= |s'.futures|
            && s'.futures[s.applies[a].future] == s.futures[s.applies[a].future]
  {
    assert a < |s.applies| - 1 || !s.task.Applying?;
    var f := s.applies[a].future;
    assert !Live(s.task, s.next, f);
  }

  /** Whoever waited for an apply hears how it ended: the result if it returned one, what it raised if
      it raised, a failure if it was cancelled. */
  lemma {:induction false} ResolvedAsItEnded(es: seq<Event>, a: nat)
    requires Legal(Init(), es) && Ended(After(Init(), es).applies, a)
    ensures var s, end := After(Init(), es), EndOf(es, a);
            && end.Some? && s.applies[a].future < |s.futures|
            && Told(s.futures[s.applies[a].future].outcome, a, end.value)
    decreases |es|
  {
    var less, e := es[..|es| - 1], es[|es| - 1];
    RunKeeps(less);
    if Ended(After(Init(), less).applies, a) {
      ResolvedAsItEnded(less, a);
      ToldStays(After(Init(), less), e, a);
    } else {
      ToldStep(After(Init(), less), e, a);
    }
  }

  /** So a request is told success exactly when the apply that served it returned success. */
  lemma AnsweredAsItEnded(es: seq<Event>, q: nat)
    requires Legal(Init(), es) && q < |After(Init(), es).requests| && After(Init(), es).requests[q].waits.Some?
    ensures var s := After(Init(), es);
            var f := s.requests[q].waits.value;
            && f < |s.futures|
            && (s.futures[f].outcome.Answered? ==>
                  EndOf(es, s.futures[f].outcome.apply) == Some(DoReturn(s.futures[f].outcome.ok)))
            && (forall a: nat :: Ended(s.applies, a) && s.applies[a].future == f ==>
                  EndOf(es, a).Some? && Told(s.futures[f].outcome, a, EndOf(es, a).value))
  {
    RunKeeps(es);
    var s := After(Init(), es);
    var f := s.requests[q].waits.value;
    assert Joined(s.requests[q], q, s.futures);
    assert Answer(s.futures[f].outcome, f, s.applies);
    forall a: nat | Ended(s.applies, a) && s.applies[a].future == f
      ensures EndOf(es, a).Some? && Told(s.futures[f].outcome, a, EndOf(es, a).value)
    {
      ResolvedAsItEnded(es, a);
    }
  }

  // ------------------------------------------------------------------ coalesced

  /** However many ask while an apply is in flight, they wait for one future; once that apply is
      over, it is the future of the apply right after it, unless it was failed. */
  lemma OneFollowUpForAll(s: State, a: nat, p: nat, q: nat)
    requires Reached(s) && a < |s.applies| && p < |s.requests| && q < |s.requests|
    requires During(s.applies[a], s.requests[p]) && During(s.applies[a], s.requests[q])
    ensures s.requests[p].waits == s.requests[q].waits
    ensures var f := s.requests[p].waits.value;
            s.applies[a].ended.Some? ==>
              || (a + 1 < |s.applies| && s.applies[a + 1].future == f)
              || (f < |s.futures| && s.futures[f].outcome.Cancelled?)
  {
    ReachedInv(s);
    assert Follows(s.futures, s.applies, s.task.Applying?, s.next, a, s.requests[p]);
  }

  function Accepted(requests: seq<Request>): set<nat> {
    set q: nat | q < |requests| && requests[q].waits.Some?
  }

  lemma {:induction false} MakersDiffer(futures: seq<Future>, requests: seq<Request>, n: nat, qs: set<nat>)
    requires Made(futures, requests) && n <= |futures|
    requires forall f :: 0 <= f < n ==> futures[f].maker in qs
    ensures n <= |qs|
  {
    if n > 0 {
      var q := futures[n - 1].maker;
      assert Made1(futures[n - 1], n - 1, requests);
      forall f | 0 <= f < n - 1 ensures futures[f].maker in qs - {q} {
        assert Made1(futures[f], f, requests);
      }
      MakersDiffer(futures, requests, n - 1, qs - {q});
    }
  }

  /** Applies never exceed the requests that were accepted, and no future is applied twice. */
  lemma AppliesDoNotExceedRequests(s: State)
    requires Reached(s)
    ensures |s.applies| <= |s.futures| <= |Accepted(s.requests)|
    ensures forall a, b :: 0 <= a < b < |s.applies| ==> s.applies[a].future != s.applies[b].future
  {
    ReachedInv(s);
    forall f | 0 <= f < |s.futures| ensures s.futures[f].maker in Accepted(s.requests) {
      assert Made1(s.futures[f], f, s.requests);
    }
    MakersDiffer(s.futures, s.requests, |s.futures|, Accepted(s.requests));
  }

  /** An apply is given the trigger of the first request it serves. */
  lemma FirstTriggerWins(s: State, a: nat, q: nat)
    requires Reached(s) && a < |s.applies| && q < |s.requests| && s.requests[q].waits == Some(s.applies[a].future)
    ensures exists p: nat :: p <= q && s.requests[p].waits == s.requests[q].waits
                          && s.requests[p].trigger == s.applies[a].trigger
                          && forall r: nat :: r < p ==> s.requests[r].waits != s.requests[q].waits
  {
    ReachedInv(s);
    var f := s.applies[a].future;
    var p := s.futures[f].maker;
    assert Made1(s.futures[f], f, s.requests);
    assert Joined(s.requests[q], q, s.futures);
    forall r: nat | r < p ensures s.requests[r].waits != s.requests[q].waits {
      assert Joined(s.requests[r], r, s.futures);
    }
    assert p <= q && s.requests[p].waits == s.requests[q].waits && s.requests[p].trigger == s.applies[a].trigger;
  }

  // ------------------------------------------------------------------ the loop ends

  function Weight(s: State): nat {
    (match s.task case Scheduled(_, _) => 2 case Applying(_, _) => 1 case _ => 0) + (if s.next.Some? then 1 else 0)
  }

  function Asks(es: seq<Event>): nat {
    if es == [] then 0 else Asks(es[..|es| - 1]) + if es[|es| - 1].DoAsk? then 1 else 0
  }

  function TaskSteps(es: seq<Event>): nat {
    if es == [] then 0
    else TaskSteps(es[..|es| - 1]) + if es[|es| - 1].DoAsk? || es[|es| - 1].DoCancel? then 0 else 1
  }

  /** _run's loop has a measure: every step the task makes was paid for by a request, at most two
      each, whatever the applies and the cancellations do. */
  lemma {:induction false} TaskStepsArePaid(es: seq<Event>)
    requires Legal(Init(), es)
    ensures TaskSteps(es) + Weight(After(Init(), es)) <= 2 * Asks(es)
    decreases |es|
  {
    if es != [] {
      TaskStepsArePaid(es[..|es| - 1]);
    }
  }

  // ------------------------------------------------------------------ the end

  /** At its i-th event the run calls cancel(), and the task it finds has not made its first step. */
  predicate CancelsUnstarted(es: seq<Event>, i: nat) {
    i < |es| && es[i].DoCancel? && Legal(Init(), es[..i]) && After(Init(), es[..i]).task.Scheduled?
  }

  ghost predicate CancelledUnstarted(es: seq<Event>) { exists i: nat :: CancelsUnstarted(es, i) }

  lemma UnstartedBefore(es: seq<Event>, n: nat)
    requires |es| == n + 1
    ensures CancelledUnstarted(es) <==> CancelledUnstarted(es[..n]) || CancelsUnstarted(es, n)
  {
    forall i: nat | i < n ensures CancelsUnstarted(es, i) <==> CancelsUnstarted(es[..n], i) {
      assert es[..n][..i] == es[..i];
    }
    if i: nat :| CancelsUnstarted(es[..n], i) {
      assert CancelsUnstarted(es, i);
    }
  }

  lemma {:induction false} UnstartedStays(es: seq<Event>)
    requires Legal(Init(), es)
    ensures var s := After(Init(), es);
            CancelledUnstarted(es) <==> s.neverStarted || (s.task.Scheduled? && s.task.cancelled)
    decreases |es|
  {
    if es != [] {
      var n := |es| - 1;
      UnstartedStays(es[..n]);
      UnstartedBefore(es, n);
      RunKeeps(es[..n]);
      UnstartedStep(After(Init(), es[..n]), es[n]);
    }
  }

  lemma UnstartedStep(s: State, e: Event)
    requires Inv(s) && Enabled(s, e)
    ensures var s' := Step(s, e);
            (s'.neverStarted || (s'.task.Scheduled? && s'.task.cancelled)) <==>
              || s.neverStarted || (s.task.Scheduled? && s.task.cancelled) || (e.DoCancel? && s.task.Scheduled?)
  {}

  /** A task that is over has resolved every future and left no follow-up, exactly when no cancel()
      of the run found a task that had not made its first step. */
  lemma NobodyHangs(es: seq<Event>, s: State)
    requires Legal(Init(), es) && s == After(Init(), es) && s.task.Done?
    ensures (s.next.None? && forall f :: 0 <= f < |s.futures| ==> !s.futures[f].outcome.Pending?)
            <==> !CancelledUnstarted(es)
  {
    RunKeeps(es);
    UnstartedStays(es);
  }

  predicate Hung(s: State, q: nat) {
    && s.task.Done? && q < |s.requests| && s.requests[q].waits.Some?
    && s.requests[q].waits.value < |s.futures| && s.futures[s.requests[q].waits.value].outcome.Pending?
  }

  lemma {:induction false} NothingMoves(s: State, fs: seq<Event>)
    requires s.task.Scheduled? && s.task.cancelled && s.closedAt.Some? && Legal(s, fs)
    ensures var r := After(s, fs);
            && (r.task == s.task || r.task.Done?) && r.futures == s.futures && r.closedAt == s.closedAt
            && |s.requests| <= |r.requests| && r.requests[..|s.requests|] == s.requests
    decreases |fs|
  {
    if fs != [] {
      NothingMoves(s, fs[..|fs| - 1]);
    }
  }

  /** What such a cancel() does: however the run goes on, once the task is over everybody who waits
      for it or for its follow-up waits for ever. */
  lemma CancelledUnstartedHangs(s: State, fs: seq<Event>, q: nat)
    requires Reached(s) && s.task.Scheduled? && Legal(Cancel(s), fs) && After(Cancel(s), fs).task.Done?
    requires q < |s.requests| && s.requests[q].waits.Some?
    requires s.requests[q].waits == Some(s.task.first) || s.requests[q].waits == s.next
    ensures Hung(After(Cancel(s), fs), q)
  {
    ReachedInv(s);
    NothingMoves(Cancel(s), fs);
    var r := After(Cancel(s), fs);
    assert r.requests[..|s.requests|][q] == s.requests[q];
  }

  lemma Next(s: State, e: Event)
    requires Reached(s) && Enabled(s, e)
    ensures Reached(Step(s, e))
  {
    var es :| Legal(Init(), es) && s == After(Init(), es);
    assert (es + [e])[..|es|] == es;
    assert Legal(Init(), es + [e]) && After(Init(), es + [e]) == Step(s, e);
  }

  lemma InitReached()
    ensures Reached(Init())
  {
    assert Legal(Init(), []) && After(Init(), []) == Init();
  }

  /** A request, then cancel() before the loop has run the new task: the requester waits for ever. */
  lemma CancelledBeforeItsFirstStep()
    ensures exists s :: Reached(s) && Hung(s, 0)
  {
    InitReached();
    Next(Init(), DoAsk("sighup"));
    var s1 := Ask(Init(), "sighup");
    Next(s1, DoCancel);
    Next(Cancel(s1), DoNeverStart);
    assert Hung(NeverStart(Cancel(s1)), 0);
  }

  // ------------------------------------------------------------------ cancel

  lemma RefusedExactlyAfterCancel(s: State, q: nat)
    requires Reached(s) && q < |s.requests|
    ensures s.requests[q].waits.None? <==> (s.closedAt.Some? && s.closedAt.value < s.requests[q].at)
  {
    ReachedInv(s);
  }

  predicate CancelledBy(es: seq<Event>, j: nat) { exists i :: 0 <= i < |es| && i < j && es[i].DoCancel? }

  lemma {:induction false} ClosedByCancel(es: seq<Event>)
    requires Legal(Init(), es)
    ensures After(Init(), es).closedAt.Some? <==> CancelledBy(es, |es|)
    decreases |es|
  {
    if es != [] {
      var n := |es| - 1;
      ClosedByCancel(es[..n]);
      CancelledByLast(es, n);
    }
  }

  lemma CancelledByLast(es: seq<Event>, n: nat)
    requires |es| == n + 1
    ensures CancelledBy(es, |es|) <==> CancelledBy(es[..n], n) || es[n].DoCancel?
  {
    if i :| 0 <= i < n && es[i].DoCancel? {
      assert es[..n][i].DoCancel?;
    }
    if i :| 0 <= i < n && es[..n][i].DoCancel? {
      assert es[i].DoCancel?;
    }
  }

  /** At the j-th event of the run, after a cancel(), an apply with a follow-up waiting returns
      instead of passing the cancellation on. */
  predicate ReturnsLate(es: seq<Event>, j: nat) {
    && j < |es| && es[j].DoReturn? && CancelledBy(es, j)
    && Legal(Init(), es[..j]) && After(Init(), es[..j]).next.Some?
  }

  ghost predicate ReturnedLate(es: seq<Event>) { exists j: nat :: ReturnsLate(es, j) }

  lemma LateBefore(es: seq<Event>, n: nat)
    requires |es| == n + 1
    ensures ReturnedLate(es) <==> ReturnedLate(es[..n]) || ReturnsLate(es, n)
  {
    forall j: nat | j < n ensures ReturnsLate(es, j) <==> ReturnsLate(es[..n], j) {
      assert es[..n][..j] == es[..j];
      CancelledPrefix(es, n, j);
    }
    if j: nat :| ReturnsLate(es[..n], j) {
      assert ReturnsLate(es, j);
    }
  }

  lemma CancelledPrefix(es: seq<Event>, n: nat, j: nat)
    requires j <= n <= |es|
    ensures CancelledBy(es, j) <==> CancelledBy(es[..n], j)
  {
    if CancelledBy(es, j) {
      var i :| 0 <= i < j && es[i].DoCancel?;
      assert es[..n][i].DoCancel?;
    }
  }

  lemma {:induction false} LateStays(es: seq<Event>)
    requires Legal(Init(), es)
    ensures ReturnedLate(es) <==> After(Init(), es).returnedLate
    decreases |es|
  {
    if es != [] {
      var n := |es| - 1;
      LateStays(es[..n]);
      LateBefore(es, n);
      ClosedByCancel(es[..n]);
      CancelledPrefix(es, n, n);
    }
  }

  predicate StartsLate(s: State, a: nat) {
    a < |s.applies| && s.closedAt.Some? && s.closedAt.value < s.applies[a].started
  }

  /** Nothing starts after cancel(), exactly when no apply that had a follow-up waiting returned
      after it instead of passing the cancellation on. */
  lemma NothingStartsAfterCancel(es: seq<Event>, s: State)
    requires Legal(Init(), es) && s == After(Init(), es)
    ensures (s.closedAt.Some? ==> forall a :: 0 <= a < |s.applies| ==> s.applies[a].started < s.closedAt.value)
            <==> !ReturnedLate(es)
  {
    RunKeeps(es);
    LateStays(es);
  }

  /** So an apply that passes its cancellation on is the last one. */
  lemma NothingStartsAfterAbort(es: seq<Event>, s: State, a: nat)
    requires Legal(Init(), es) && s == After(Init(), es)
    requires forall j :: 0 <= j < |es| && es[j].DoReturn? ==> !CancelledBy(es, j)
    ensures !StartsLate(s, a)
  {
    assert !ReturnedLate(es);
    NothingStartsAfterCancel(es, s);
  }

  /** What cancel() waits for is final: no step of anybody starts, ends or answers anything any more. */
  lemma CancelIsTerminal(s: State, e: Event)
    requires Reached(s) && s.closedAt.Some? && IsIdle(s.task) && Enabled(s, e)
    ensures var s' := Step(s, e);
            && s'.task == s.task && s'.applies == s.applies && s'.futures == s.futures && s'.next == s.next
            && s'.closedAt == s.closedAt
            && (e.DoAsk? ==> s'.requests == s.requests + [Request(s.now, e.trigger, None)])
  {}

  /** An apply that swallows its cancellation while a follow-up waits: the second apply starts after
      cancel(). */
  lemma SwallowedCancellation()
    ensures exists s :: Reached(s) && StartsLate(s, 1)
  {
    InitReached();
    var s1 := Ask(Init(), "sighup");
    Next(Init(), DoAsk("sighup"));
    Next(s1, DoStart);
    var s2 := Start(s1);
    Next(s2, DoAsk("admin"));
    var s3 := Ask(s2, "admin");
    Next(s3, DoCancel);
    var s4 := Cancel(s3);
    Next(s4, DoReturn(true));
    assert StartsLate(Return(s4, true), 1);
  }
}
