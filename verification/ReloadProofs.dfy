/** What every step of ReloadState keeps, and what holds after every sequence of steps. */
module ReloadProofs {
  import opened Wrappers
  import opened ReloadState

  // ------------------------------------------------------------------ the invariant

  predicate Live(t: Task, next: Option<nat>, f: nat) {
    (t.Scheduled? && t.first == f) || (t.Applying? && t.pending == f) || next == Some(f)
  }

  /** A future is unresolved exactly while somebody is going to resolve it. */
  ghost predicate Awaited(futures: seq<Future>, task: Task, next: Option<nat>, neverStarted: bool) {
    && (forall f :: 0 <= f < |futures| && !neverStarted ==> (futures[f].outcome.Pending? <==> Live(task, next, f)))
    && (next.Some? ==> next.value < |futures|)
    && (next.Some? && IsIdle(task) ==> neverStarted)
    && (task.Scheduled? ==> task.first < |futures| && (next.Some? ==> task.first < next.value))
    && (task.Applying? ==> task.pending < |futures| && (next.Some? ==> task.pending < next.value))
  }

  /** Nobody is waiting for what will never come, except after a task that never started. */
  ghost predicate Stuck(futures: seq<Future>, task: Task, closed: bool, neverStarted: bool) {
    neverStarted ==> closed && task.Done? && exists f :: 0 <= f < |futures| && futures[f].outcome.Pending?
  }

  predicate Made1(future: Future, f: nat, requests: seq<Request>) {
    future.maker < |requests| && requests[future.maker].waits == Some(f)
  }

  predicate Joined(r: Request, q: nat, futures: seq<Future>) {
    r.waits.Some? ==> r.waits.value < |futures| && futures[r.waits.value].maker <= q
  }

  /** Each future has the request that made it, and only later ones share it. */
  ghost predicate Made(futures: seq<Future>, requests: seq<Request>) {
    && |futures| <= |requests|
    && (forall f :: 0 <= f < |futures| ==> Made1(futures[f], f, requests))
    && (forall q :: 0 <= q < |requests| ==> Joined(requests[q], q, futures))
  }

  /** Requests are dated in order, and refused exactly after cancel(). */
  ghost predicate Asked(requests: seq<Request>, closedAt: Option<Time>, now: Time) {
    && (forall q :: 0 <= q < |requests| ==> requests[q].at < now)
    && (forall p, q :: 0 <= p < q < |requests| ==> requests[p].at < requests[q].at)
    && (closedAt.Some? ==> closedAt.value < now)
    && (forall q :: 0 <= q < |requests| ==>
          (requests[q].waits.None? <==> closedAt.Some? && closedAt.value < requests[q].at))
  }

  ghost predicate Ran(applies: seq<Apply>, now: Time) {
    && (forall a :: 0 <= a < |applies| ==> applies[a].started < now)
    && (forall a :: 0 <= a < |applies| && applies[a].ended.Some? ==> applies[a].ended.value < now)
  }

  ghost predicate Timed(requests: seq<Request>, applies: seq<Apply>, closedAt: Option<Time>, now: Time) {
    Asked(requests, closedAt, now) && Ran(applies, now)
  }

  /** Applies run one after the other, the last of them while the task is in it. */
  ghost predicate Serial(applies: seq<Apply>, task: Task) {
    && (forall a :: 0 <= a < |applies| - 1 ==> applies[a].ended.Some?)
    && (forall a, b :: 0 <= a < b < |applies| && applies[a].ended.Some? ==>
        applies[a].ended.value <= applies[b].started)
    && (applies != [] ==> (applies[|applies| - 1].ended.None? <==> task.Applying?))
    && (task.Applying? ==> applies != [] && applies[|applies| - 1].future == task.pending)
  }

  /** What a future still to be applied is. */
  ghost predicate Above(applies: seq<Apply>, f: nat) {
    forall a :: 0 <= a < |applies| ==> applies[a].future < f
  }

  /** Each apply is for a future of its own, taken in the order in which they were made. */
  ghost predicate Increasing(applies: seq<Apply>, futures: nat) {
    && (forall a :: 0 <= a < |applies| ==> a <= applies[a].future < futures)
    && (forall a, b :: 0 <= a < b < |applies| ==> applies[a].future < applies[b].future)
  }

  ghost predicate Ordered(applies: seq<Apply>, futures: seq<Future>, task: Task, next: Option<nat>) {
    && Increasing(applies, |futures|)
    && (task.Scheduled? ==> Above(applies, task.first))
    && (next.Some? ==> Above(applies, next.value))
  }

  /** An apply is given the trigger of the request that made its future: the first of those it serves. */
  ghost predicate Triggers(futures: seq<Future>, requests: seq<Request>, applies: seq<Apply>, next: Option<nat>,
                           nextTrigger: Trigger) {
    && (forall a :: 0 <= a < |applies| ==> applies[a].trigger == TriggerOf(futures, requests, applies[a].future))
    && (next.Some? ==> nextTrigger == TriggerOf(futures, requests, next.value))
  }

  /** An answer is that of the future's own apply. */
  predicate Answer(o: Outcome, f: nat, applies: seq<Apply>) {
    o.Answered? ==> o.apply < |applies| && applies[o.apply].future == f && applies[o.apply].ended.Some?
  }

  ghost predicate Answers(futures: seq<Future>, applies: seq<Apply>) {
    forall f :: 0 <= f < |futures| ==> Answer(futures[f].outcome, f, applies)
  }

  /** A future has at least as late an apply as each request waiting for it; one still to come
      cannot be early. */
  ghost predicate Fresh(requests: seq<Request>, applies: seq<Apply>) {
    forall a, q :: 0 <= a < |applies| && 0 <= q < |requests| && requests[q].waits == Some(applies[a].future) ==>
      requests[q].at < applies[a].started
  }

  predicate During(a: Apply, r: Request) {
    a.started < r.at && (a.ended.Some? ==> r.at < a.ended.value) && r.waits.Some?
  }

  /** Who asked during one apply waits for one future: that of the next apply, once it started. */
  ghost predicate Shared(requests: seq<Request>, applies: seq<Apply>) {
    forall a, p, q :: 0 <= a < |applies| && 0 <= p < |requests| && 0 <= q < |requests| ==>
      During(applies[a], requests[p]) && During(applies[a], requests[q]) ==> requests[p].waits == requests[q].waits
  }

  predicate Follows(futures: seq<Future>, applies: seq<Apply>, running: bool, next: Option<nat>, a: nat, r: Request) {
    if a == |applies| - 1 && running then r.waits == next
    else
      || (a + 1 < |applies| && r.waits == Some(applies[a + 1].future))
      || (r.waits.Some? && r.waits.value < |futures| && futures[r.waits.value].outcome.Cancelled?)
  }

  ghost predicate FollowUps(futures: seq<Future>, requests: seq<Request>, applies: seq<Apply>, running: bool,
                            next: Option<nat>) {
    forall a, q :: 0 <= a < |applies| && 0 <= q < |requests| && During(applies[a], requests[q]) ==>
      Follows(futures, applies, running, next, a, requests[q])
  }

  /** No apply starts after cancel() unless one before it returned after cancel(). */
  ghost predicate Late(applies: seq<Apply>, closedAt: Option<Time>, task: Task, returnedLate: bool) {
    && (closedAt.Some? && !returnedLate ==> forall a :: 0 <= a < |applies| ==> applies[a].started < closedAt.value)
    && (returnedLate ==> closedAt.Some? && exists a :: 0 <= a < |applies| && closedAt.value < applies[a].started)
    && (!IsIdle(task) && task.cancelled ==> closedAt.Some?)
    && (closedAt.Some? && task.Scheduled? ==> task.cancelled)
  }

  ghost predicate Inv(s: State) {
    && Awaited(s.futures, s.task, s.next, s.neverStarted)
    && Stuck(s.futures, s.task, s.closedAt.Some?, s.neverStarted)
    && Made(s.futures, s.requests)
    && Timed(s.requests, s.applies, s.closedAt, s.now)
    && Serial(s.applies, s.task)
    && Ordered(s.applies, s.futures, s.task, s.next)
    && Triggers(s.futures, s.requests, s.applies, s.next, s.nextTrigger)
    && Answers(s.futures, s.applies)
    && Fresh(s.requests, s.applies)
    && Shared(s.requests, s.applies)
    && FollowUps(s.futures, s.requests, s.applies, s.task.Applying?, s.next)
    && Late(s.applies, s.closedAt, s.task, s.returnedLate)
  }

  lemma InitKeeps()
    ensures Inv(Init())
  {}

  lemma AwaitedKeeps(s: State, e: Event)
    requires Awaited(s.futures, s.task, s.next, s.neverStarted)
    requires Stuck(s.futures, s.task, s.closedAt.Some?, s.neverStarted)
    requires Enabled(s, e)
    ensures var s' := Step(s, e); Awaited(s'.futures, s'.task, s'.next, s'.neverStarted)
  {
    match e
    case DoAsk(t) =>
    case DoStart =>
    case DoNeverStart =>
    case DoReturn(ok) =>
    case DoAbort =>
    case DoCancel =>
  }

  lemma SerialKeeps(s: State, e: Event)
    requires Serial(s.applies, s.task) && Timed(s.requests, s.applies, s.closedAt, s.now)
    requires Enabled(s, e)
    ensures var s' := Step(s, e); Serial(s'.applies, s'.task)
  {
    match e
    case DoAsk(t) =>
    case DoStart =>
    case DoNeverStart =>
    case DoReturn(ok) =>
    case DoAbort =>
    case DoCancel =>
  }

  lemma AnswersEnd(futures: seq<Future>, applies: seq<Apply>, now: Time, x: Apply)
    requires Answers(futures, applies)
    ensures Answers(futures, End(applies, now)) && Answers(futures, applies + [x])
    ensures Answers(futures, End(applies, now) + [x])
  {
    forall f | 0 <= f < |futures|
      ensures Answer(futures[f].outcome, f, End(applies, now)) && Answer(futures[f].outcome, f, applies + [x])
      ensures Answer(futures[f].outcome, f, End(applies, now) + [x])
    {
      assert Answer(futures[f].outcome, f, applies);
    }
  }

  lemma AnswersResolve(futures: seq<Future>, applies: seq<Apply>, f: nat, o: Outcome)
    requires Answers(futures, applies) && Answer(o, f, applies)
    ensures Answers(Resolve(futures, f, o), applies)
  {}

  lemma AnswersKeeps(s: State, e: Event)
    requires Answers(s.futures, s.applies) && Serial(s.applies, s.task) && Ordered(s.applies, s.futures, s.task, s.next)
    requires Enabled(s, e)
    ensures var s' := Step(s, e); Answers(s'.futures, s'.applies)
  {
    match e
    case DoReturn(ok) =>
      var ended, s' := End(s.applies, s.now), Return(s, ok);
      AnswersEnd(s.futures, s.applies, s.now, if s.next.Some? then s'.applies[|s.applies|] else s.applies[0]);
      AnswersResolve(s.futures, ended, s.task.pending, Answered(|s.applies| - 1, ok));
      AnswersResolve(s.futures, s'.applies, s.task.pending, Answered(|s.applies| - 1, ok));
    case DoAbort =>
      var ended := End(s.applies, s.now);
      AnswersEnd(s.futures, s.applies, s.now, s.applies[0]);
      AnswersResolve(s.futures, ended, s.task.pending, Cancelled);
      AnswersResolve(Resolve(s.futures, s.task.pending, Cancelled), ended, if s.next.Some? then s.next.value else 0,
                     Cancelled);
    case DoStart => AnswersEnd(s.futures, s.applies, s.now, Start(s).applies[|s.applies|]);
    case _ =>
  }

  // ------------------------------------------------------------------ who made what

  lemma MadeJoin(futures: seq<Future>, requests: seq<Request>, r: Request)
    requires Made(futures, requests) && Joined(r, |requests|, futures)
    ensures Made(futures, requests + [r])
  {
    forall f | 0 <= f < |futures| ensures Made1(futures[f], f, requests + [r]) {
      assert Made1(futures[f], f, requests);
    }
  }

  lemma MadeMake(futures: seq<Future>, requests: seq<Request>, r: Request)
    requires Made(futures, requests) && r.waits == Some(|futures|)
    ensures Made(futures + [Future(|requests|, Pending)], requests + [r])
  {
    forall f | 0 <= f < |futures| ensures Made1(futures[f], f, requests + [r]) {
      assert Made1(futures[f], f, requests);
    }
    forall q | 0 <= q < |requests| ensures Joined(requests[q], q, futures + [Future(|requests|, Pending)]) {
      assert Joined(requests[q], q, futures);
    }
  }

  lemma MadeResolve(futures: seq<Future>, requests: seq<Request>, f: nat, o: Outcome)
    requires Made(futures, requests)
    ensures Made(Resolve(futures, f, o), requests)
  {
    var r := Resolve(futures, f, o);
    forall g | 0 <= g < |r| ensures Made1(r[g], g, requests) {
      assert Made1(futures[g], g, requests);
    }
    forall q | 0 <= q < |requests| ensures Joined(requests[q], q, r) {
      assert Joined(requests[q], q, futures);
    }
  }

  lemma MadeKeeps(s: State, e: Event)
    requires Made(s.futures, s.requests) && Awaited(s.futures, s.task, s.next, s.neverStarted)
    requires Enabled(s, e)
    ensures var s' := Step(s, e); Made(s'.futures, s'.requests)
  {
    match e
    case DoAsk(t) =>
      var r := Ask(s, t).requests[|s.requests|];
      if s.closedAt.None? && (IsIdle(s.task) || s.next.None?) {
        MadeMake(s.futures, s.requests, r);
      } else {
        if s.next.Some? { assert Made1(s.futures[s.next.value], s.next.value, s.requests); }
        MadeJoin(s.futures, s.requests, r);
      }
    case DoReturn(ok) => MadeResolve(s.futures, s.requests, s.task.pending, Answered(|s.applies| - 1, ok));
    case DoAbort =>
      MadeResolve(s.futures, s.requests, s.task.pending, Cancelled);
      if s.next.Some? {
        MadeResolve(Resolve(s.futures, s.task.pending, Cancelled), s.requests, s.next.value, Cancelled);
      }
    case _ =>
  }

  // ------------------------------------------------------------------ times

  lemma AskedLater(requests: seq<Request>, closedAt: Option<Time>, now: Time)
    requires Asked(requests, closedAt, now)
    ensures Asked(requests, closedAt, now + 1)
    ensures Asked(requests, if closedAt.None? then Some(now) else closedAt, now + 1)
  {}

  lemma AskedMore(requests: seq<Request>, closedAt: Option<Time>, now: Time, r: Request)
    requires Asked(requests, closedAt, now) && r.at == now && (r.waits.None? <==> closedAt.Some?)
    ensures Asked(requests + [r], closedAt, now + 1)
  {}

  lemma RanLater(applies: seq<Apply>, now: Time)
    requires Ran(applies, now)
    ensures Ran(applies, now + 1) && Ran(End(applies, now), now + 1)
  {}

  lemma RanMore(applies: seq<Apply>, now: Time, x: Apply)
    requires Ran(applies, now + 1) && x.started == now && x.ended.None?
    ensures Ran(applies + [x], now + 1)
  {}

  lemma AskEffect(s: State, t: Trigger)
    ensures Ask(s, t).requests == s.requests + [Request(s.now, t, Waits(s))]
    ensures Ask(s, t).closedAt == s.closedAt && Ask(s, t).now == s.now + 1 && Ask(s, t).applies == s.applies
  {}

  lemma OtherEffect(s: State, e: Event)
    requires Enabled(s, e) && !e.DoAsk?
    ensures var s' := Step(s, e);
            && s'.requests == s.requests && s'.now == s.now + 1
            && s'.closedAt == (if e.DoCancel? && s.closedAt.None? then Some(s.now) else s.closedAt)
  {}

  lemma AskedKeeps(s: State, e: Event, s': State)
    requires Asked(s.requests, s.closedAt, s.now) && Enabled(s, e) && s' == Step(s, e)
    ensures Asked(s'.requests, s'.closedAt, s'.now)
  {
    AskedLater(s.requests, s.closedAt, s.now);
    if e.DoAsk? {
      AskEffect(s, e.trigger);
      AskedMore(s.requests, s.closedAt, s.now, Request(s.now, e.trigger, Waits(s)));
    } else {
      OtherEffect(s, e);
    }
  }

  lemma RanKeeps(s: State, e: Event)
    requires Ran(s.applies, s.now) && Enabled(s, e)
    ensures var s' := Step(s, e); Ran(s'.applies, s'.now)
  {
    RanLater(s.applies, s.now);
    match e
    case DoStart => RanMore(s.applies, s.now, Start(s).applies[|s.applies|]);
    case DoReturn(ok) =>
      if s.next.Some? {
        RanMore(End(s.applies, s.now), s.now, Return(s, ok).applies[|s.applies|]);
      }
    case _ =>
  }

  lemma TimedKeeps(s: State, e: Event)
    requires Timed(s.requests, s.applies, s.closedAt, s.now) && Enabled(s, e)
    ensures var s' := Step(s, e); Timed(s'.requests, s'.applies, s'.closedAt, s'.now)
  {
    AskedKeeps(s, e, Step(s, e));
    RanKeeps(s, e);
  }

  // ------------------------------------------------------------------ the order of the futures

  lemma IncreasingApply(applies: seq<Apply>, futures: nat, x: Apply)
    requires Increasing(applies, futures) && Above(applies, x.future) && x.future < futures
    ensures Increasing(applies + [x], futures)
  {
    if applies != [] { assert applies[|applies| - 1].future < x.future; }
  }

  lemma OrderedEnd(applies: seq<Apply>, futures: nat, f: nat, now: Time)
    requires Increasing(applies, futures)
    ensures Increasing(End(applies, now), futures)
    ensures Above(applies, f) ==> Above(End(applies, now), f)
  {}

  lemma OrderedKeeps(s: State, e: Event)
    requires Ordered(s.applies, s.futures, s.task, s.next) && Awaited(s.futures, s.task, s.next, s.neverStarted)
    requires Enabled(s, e)
    ensures var s' := Step(s, e); Ordered(s'.applies, s'.futures, s'.task, s'.next)
  {
    match e
    case DoAsk(t) => assert Above(s.applies, |s.futures|);
    case DoStart => IncreasingApply(s.applies, |s.futures|, Start(s).applies[|s.applies|]);
    case DoReturn(ok) =>
      OrderedEnd(s.applies, |s.futures|, if s.next.Some? then s.next.value else 0, s.now);
      if s.next.Some? {
        IncreasingApply(End(s.applies, s.now), |s.futures|, Return(s, ok).applies[|s.applies|]);
      }
    case DoAbort => OrderedEnd(s.applies, |s.futures|, 0, s.now);
    case _ =>
  }

  // ------------------------------------------------------------------ triggers and answers

  lemma StuckKeeps(s: State, e: Event)
    requires Stuck(s.futures, s.task, s.closedAt.Some?, s.neverStarted)
    requires Awaited(s.futures, s.task, s.next, s.neverStarted)
    requires Late(s.applies, s.closedAt, s.task, s.returnedLate)
    requires Enabled(s, e)
    ensures var s' := Step(s, e); Stuck(s'.futures, s'.task, s'.closedAt.Some?, s'.neverStarted)
  {
    match e
    case DoNeverStart => assert s.neverStarted || s.futures[s.task.first].outcome.Pending?;
    case _ =>
  }

  lemma LateKeeps(s: State, e: Event)
    requires Late(s.applies, s.closedAt, s.task, s.returnedLate) && Timed(s.requests, s.applies, s.closedAt, s.now)
    requires Enabled(s, e)
    ensures var s' := Step(s, e); Late(s'.applies, s'.closedAt, s'.task, s'.returnedLate)
  {
    var s' := Step(s, e);
    forall a | 0 <= a < |s.applies| ensures s'.applies[a].started == s.applies[a].started {}
    if e.DoReturn? && s.next.Some? && s.closedAt.Some? {
      assert s'.closedAt.value < s'.applies[|s.applies|].started;
    }
  }

  lemma TriggersSame(s: State, s': State)
    requires Made(s.futures, s.requests) && Ordered(s.applies, s.futures, s.task, s.next)
    requires Triggers(s.futures, s.requests, s.applies, s.next, s.nextTrigger)
    requires s.next.Some? ==> s.next.value < |s.futures|
    requires |s.futures| <= |s'.futures| && s.requests <= s'.requests
    requires forall f :: 0 <= f < |s.futures| ==> s'.futures[f].maker == s.futures[f].maker
    ensures forall f :: 0 <= f < |s.futures| ==>
              TriggerOf(s'.futures, s'.requests, f) == TriggerOf(s.futures, s.requests, f)
  {
    forall f | 0 <= f < |s.futures|
      ensures TriggerOf(s'.futures, s'.requests, f) == TriggerOf(s.futures, s.requests, f)
    {
      assert Made1(s.futures[f], f, s.requests);
    }
  }

  lemma TriggersMore(futures: seq<Future>, requests: seq<Request>, applies: seq<Apply>, x: Apply)
    requires Triggers(futures, requests, applies, None, "") && x.trigger == TriggerOf(futures, requests, x.future)
    ensures Triggers(futures, requests, applies + [x], None, "")
  {}

  lemma TriggersEnd(futures: seq<Future>, requests: seq<Request>, applies: seq<Apply>, now: Time)
    requires Triggers(futures, requests, applies, None, "")
    ensures Triggers(futures, requests, End(applies, now), None, "")
  {}

  lemma TriggersCarry(s: State, s': State)
    requires Made(s.futures, s.requests) && Ordered(s.applies, s.futures, s.task, s.next)
    requires Triggers(s.futures, s.requests, s.applies, s.next, s.nextTrigger)
    requires s.next.Some? ==> s.next.value < |s.futures|
    requires |s.futures| <= |s'.futures| && s.requests <= s'.requests
    requires forall f :: 0 <= f < |s.futures| ==> s'.futures[f].maker == s.futures[f].maker
    ensures Triggers(s'.futures, s'.requests, s.applies, s.next, s.nextTrigger)
  {
    TriggersSame(s, s');
  }

  lemma TriggersKeeps(s: State, e: Event)
    requires Triggers(s.futures, s.requests, s.applies, s.next, s.nextTrigger)
    requires Made(s.futures, s.requests)
    requires Ordered(s.applies, s.futures, s.task, s.next)
    requires Awaited(s.futures, s.task, s.next, s.neverStarted)
    requires Enabled(s, e)
    ensures var s' := Step(s, e); Triggers(s'.futures, s'.requests, s'.applies, s'.next, s'.nextTrigger)
  {
    var s' := Step(s, e);
    TriggersCarry(s, s');
    match e
    case DoAsk(t) =>
      if s'.next != s.next { assert TriggerOf(s'.futures, s'.requests, |s.futures|) == t; }
    case DoStart => TriggersMore(s'.futures, s'.requests, s.applies, s'.applies[|s.applies|]);
    case DoReturn(ok) =>
      TriggersEnd(s'.futures, s'.requests, s.applies, s.now);
      if s.next.Some? { TriggersMore(s'.futures, s'.requests, End(s.applies, s.now), s'.applies[|s.applies|]); }
    case DoAbort => TriggersEnd(s'.futures, s'.requests, s.applies, s.now);
    case _ =>
  }

  lemma FreshKeeps(s: State, e: Event)
    requires Fresh(s.requests, s.applies)
    requires Made(s.futures, s.requests)
    requires Ordered(s.applies, s.futures, s.task, s.next)
    requires Timed(s.requests, s.applies, s.closedAt, s.now)
    requires Serial(s.applies, s.task)
    requires Enabled(s, e)
    ensures var s' := Step(s, e); Fresh(s'.requests, s'.applies)
  {
    match e
    case _ =>
  }

  /** Who asks while an apply is in flight joins whoever asked before during it. */
  lemma SharedAsk(s: State, r: Request)
    requires Shared(s.requests, s.applies) && Ran(s.applies, s.now) && Serial(s.applies, s.task)
    requires FollowUps(s.futures, s.requests, s.applies, s.task.Applying?, s.next)
    requires r.at == s.now && (s.task.Applying? && s.next.Some? && r.waits.Some? ==> r.waits == s.next)
    ensures Shared(s.requests + [r], s.applies)
  {
    forall a, p | 0 <= a < |s.applies| && 0 <= p < |s.requests| && During(s.applies[a], s.requests[p])
                  && During(s.applies[a], r)
      ensures s.requests[p].waits == r.waits
    {
      assert s.applies[a].ended.None?;
      assert Follows(s.futures, s.applies, true, s.next, a, s.requests[p]);
    }
  }

  /** The other steps make nobody join an apply. */
  lemma DuringBefore(s: State, e: Event, a: nat, q: nat)
    requires Timed(s.requests, s.applies, s.closedAt, s.now) && Serial(s.applies, s.task)
    requires Enabled(s, e) && !e.DoAsk? && a < |Step(s, e).applies| && q < |s.requests|
    requires During(Step(s, e).applies[a], Step(s, e).requests[q])
    ensures a < |s.applies| && During(s.applies[a], s.requests[q])
  {}

  lemma SharedKeeps(s: State, e: Event)
    requires Shared(s.requests, s.applies)
    requires Timed(s.requests, s.applies, s.closedAt, s.now)
    requires FollowUps(s.futures, s.requests, s.applies, s.task.Applying?, s.next)
    requires Serial(s.applies, s.task)
    requires Enabled(s, e)
    ensures var s' := Step(s, e); Shared(s'.requests, s'.applies)
  {
    if e.DoAsk? {
      SharedAsk(s, Request(s.now, e.trigger, Waits(s)));
    } else {
      var s' := Step(s, e);
      forall a, p, q | 0 <= a < |s'.applies| && 0 <= p < |s'.requests| && 0 <= q < |s'.requests|
                       && During(s'.applies[a], s'.requests[p]) && During(s'.applies[a], s'.requests[q])
        ensures s'.requests[p].waits == s'.requests[q].waits
      {
        DuringBefore(s, e, a, p);
        DuringBefore(s, e, a, q);
      }
    }
  }

  lemma FollowUpsAsk(s: State, r: Request, futures: seq<Future>, running: bool, next: Option<nat>)
    requires FollowUps(s.futures, s.requests, s.applies, s.task.Applying?, s.next)
    requires Serial(s.applies, s.task)
    requires Timed(s.requests, s.applies, s.closedAt, s.now)
    requires r.at == s.now && s.futures <= futures && (s.next.Some? ==> next == s.next)
    requires running <==> s.task.Applying?
    requires s.task.Applying? && r.waits.Some? ==> r.waits == next
    ensures FollowUps(futures, s.requests + [r], s.applies, running, next)
  {
    forall a, q | 0 <= a < |s.applies| && 0 <= q <= |s.requests| && During(s.applies[a], (s.requests + [r])[q])
      ensures Follows(futures, s.applies, running, next, a, (s.requests + [r])[q])
    {
      if q == |s.requests| {
        assert s.applies[a].ended.None?;
      } else {
        assert During(s.applies[a], s.requests[q]);
      }
    }
  }

  lemma FollowUpsOthers(s: State, e: Event)
    requires FollowUps(s.futures, s.requests, s.applies, s.task.Applying?, s.next)
    requires Timed(s.requests, s.applies, s.closedAt, s.now)
    requires Serial(s.applies, s.task) && Enabled(s, e) && (e.DoStart? || e.DoNeverStart? || e.DoCancel?)
    ensures var s' := Step(s, e); FollowUps(s'.futures, s'.requests, s'.applies, s'.task.Applying?, s'.next)
  {
    var s' := Step(s, e);
    forall a, q | 0 <= a < |s'.applies| && 0 <= q < |s'.requests| && During(s'.applies[a], s'.requests[q])
      ensures Follows(s'.futures, s'.applies, s'.task.Applying?, s'.next, a, s'.requests[q])
    {
      assert During(s.applies[a], s.requests[q]);
    }
  }

  lemma FollowUpsReturn(s: State, ok: bool)
    requires FollowUps(s.futures, s.requests, s.applies, s.task.Applying?, s.next)
    requires Timed(s.requests, s.applies, s.closedAt, s.now)
    requires Serial(s.applies, s.task) && ReturnOk(s)
    requires s.task.pending < |s.futures| && s.futures[s.task.pending].outcome.Pending?
    ensures var s' := Return(s, ok); FollowUps(s'.futures, s'.requests, s'.applies, s'.task.Applying?, s'.next)
  {
    var s' := Return(s, ok);
    forall a, q | 0 <= a < |s'.applies| && 0 <= q < |s'.requests| && During(s'.applies[a], s'.requests[q])
      ensures Follows(s'.futures, s'.applies, s'.task.Applying?, s'.next, a, s'.requests[q])
    {
      assert During(s.applies[a], s.requests[q]);
    }
  }

  lemma FollowUpsAbort(s: State)
    requires FollowUps(s.futures, s.requests, s.applies, s.task.Applying?, s.next)
    requires Timed(s.requests, s.applies, s.closedAt, s.now)
    requires Serial(s.applies, s.task) && AbortOk(s)
    requires s.next.Some? ==> s.next.value < |s.futures| && s.futures[s.next.value].outcome.Pending?
    requires s.next.Some? ==> s.next.value != s.task.pending
    requires s.task.pending < |s.futures| && s.futures[s.task.pending].outcome.Pending?
    ensures var s' := Abort(s); FollowUps(s'.futures, s'.requests, s'.applies, s'.task.Applying?, s'.next)
  {
    var s' := Abort(s);
    forall a, q | 0 <= a < |s'.applies| && 0 <= q < |s'.requests| && During(s'.applies[a], s'.requests[q])
      ensures Follows(s'.futures, s'.applies, s'.task.Applying?, s'.next, a, s'.requests[q])
    {
      assert During(s.applies[a], s.requests[q]);
    }
  }

  lemma FollowUpsKeeps(s: State, e: Event)
    requires FollowUps(s.futures, s.requests, s.applies, s.task.Applying?, s.next)
    requires Timed(s.requests, s.applies, s.closedAt, s.now)
    requires Serial(s.applies, s.task)
    requires Awaited(s.futures, s.task, s.next, s.neverStarted)
    requires Ordered(s.applies, s.futures, s.task, s.next)
    requires Stuck(s.futures, s.task, s.closedAt.Some?, s.neverStarted)
    requires Enabled(s, e)
    ensures var s' := Step(s, e); FollowUps(s'.futures, s'.requests, s'.applies, s'.task.Applying?, s'.next)
  {
    match e
    case DoAsk(t) =>
      var s' := Ask(s, t);
      FollowUpsAsk(s, Request(s.now, t, Waits(s)), s'.futures, s'.task.Applying?, s'.next);
    case DoReturn(ok) => FollowUpsReturn(s, ok);
    case DoAbort => FollowUpsAbort(s);
    case _ => FollowUpsOthers(s, e);
  }

  lemma StepKeeps(s: State, e: Event)
    requires Inv(s) && Enabled(s, e)
    ensures Inv(Step(s, e))
  {
    AwaitedKeeps(s, e);
    StuckKeeps(s, e);
    MadeKeeps(s, e);
    TimedKeeps(s, e);
    SerialKeeps(s, e);
    OrderedKeeps(s, e);
    TriggersKeeps(s, e);
    AnswersKeeps(s, e);
    FreshKeeps(s, e);
    SharedKeeps(s, e);
    FollowUpsKeeps(s, e);
    LateKeeps(s, e);
  }
}
