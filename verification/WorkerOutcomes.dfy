/** What each step of a worker does to the event it holds, case by case, in any state of any run. */
module WorkerOutcomes {
  import opened Prelude
  import opened SortedSets
  import opened QueueScripts
  import opened QueueRefinement
  import opened QueueExpiry
  import opened ProcessOne
  import opened WorkerEffects
  import opened DispatchRuns
  import opened DispatchTheorems

  // ------------------------------------------------------------------------------------ the delay

  /** The base delay, doubled with every further attempt, and never above the cap. */
  ghost function Delay(attempt: int, route: Route): int {
    if attempt <= 1 then (if route.baseBackoff < route.maxBackoff then route.baseBackoff else route.maxBackoff)
    else
      var before := 2 * Delay(attempt - 1, route);
      if before < route.maxBackoff then before else route.maxBackoff
  }

  lemma {:induction false} BackoffDoubles(attempt: int, route: Route)
    requires 0 <= route.baseBackoff && 0 <= route.maxBackoff
    ensures Backoff(attempt, route) == Delay(attempt, route) >= 0
    decreases if attempt < 1 then 0 else attempt
  {
    if attempt > 1 {
      BackoffDoubles(attempt - 1, route);
      var p := Pow2(attempt - 2);
      assert Pow2(attempt - 1) == 2 * p;
      assert route.baseBackoff * (2 * p) == 2 * (route.baseBackoff * p);
      ScaledGrows(route.baseBackoff, 0, attempt - 2);
    } else {
      assert Pow2(0) == 1;
    }
  }

  // --------------------------------------------------------------------------------- the outcomes

  /** Back to ready with the attempt kept while attempts are left, dead-lettered at the limit. */
  ghost function Retried(cfg: Config, en: Entry, route: Route, now: int, meta: Body): Option<Entry>
    requires en.InFlight?
  {
    if en.attempt < route.maxAttempts then Some(Waiting(en.body, en.attempt, now + Delay(en.attempt, route)))
    else Corpse(cfg, en, now, meta)
  }

  /** The event's entry after its current holder's step. */
  ghost function Outcome(cfg: Config, en: Entry, p: Phase, i: Input): Option<Entry>
    requires en.InFlight? && Fits(p, i)
  {
    match i
    case MissDecision(checkedAt, actedAt, meta) =>
      if checkedAt - p.firstSeen < 15 * 60 * 1000 then Some(Waiting(en.body, en.attempt - 1, actedAt + 5000))
      else Corpse(cfg, en, actedAt, meta)
    case Capacity(now, free, poll, meta) =>
      if en.attempt > p.route.maxAttempts then Corpse(cfg, en, now, meta)
      else if free then Some(en)
      else Some(Waiting(en.body, en.attempt - 1, now + poll))
    case DeliverFailed(now, retry, meta) =>
      if retry then Retried(cfg, en, p.route, now, meta) else Corpse(cfg, en, now, meta)
    case Heartbeat(now, duration) =>
      if p.lost || duration <= 0 then Some(en) else Some(en.(until := now + duration))
    case Finalized(now, ok, meta) =>
      if p.lost then Some(en) else if ok then None else Retried(cfg, en, p.route, now, meta)
    case _ => Some(en)
  }

  /** Where the worker goes. */
  ghost predicate GoesOn(p: Phase, i: Input, n: Phase, marker: Option<int>)
    requires Fits(p, i)
  {
    match i
    case RouteAbsent(_) => marker.Some? && n == Missed(p.l, marker.value)
    case RouteFound(route) => n == Cleared(p.l, route)
    case Capacity(_, free, _, _) =>
      n == if free && p.Cleared? && p.l.attempt <= p.route.maxAttempts then Delivering(p.l, p.route) else Idle
    case DeliverOk => p.Delivering? && n == Finalizing(p.l, p.route, false)
    case Heartbeat(_, duration) => p.Finalizing? && n == Finalizing(p.l, p.route, p.lost || duration <= 0)
    case _ => n == Idle
  }

  ghost function MarkerOf(d: Data, id: Id): Option<int> {
    if id in d.missing then Some(d.missing[id]) else None
  }

  lemma HolderFacts(y: System, cfg: Config, cap: Id -> nat, w: nat, i: Input)
    requires Sound(y, cap) && cfg.Valid() && Enabled(y, Work(w, i), cap)
    requires y.store.data.Holds(y.Worker(w).l.id, y.Worker(w).l.token)
    ensures var p, e := y.Worker(w), Abs(y.store.data);
            var t := Apply(y, cfg, Work(w, i)).store;
            && Domains(y.store.data) && w in y.workers && GoodWorker(p, y.h, cap) && p.l.token in y.h.issued
            && Owns(e, p.l.id, p.l.token) && e[p.l.id].attempt == p.l.attempt && 1 <= p.l.attempt
            && t == Perform(y.store, cfg, p.l, Plan(p, i)).0 && Domains(t.data)
            && Moved(cfg, e[p.l.id], At(Abs(t.data), p.l.id), Plan(p, i))
            && (p.l.id in t.data.missing <==> MarkedAfter(p.l.id in y.store.data.missing, Plan(p, i)))
  {
    var p := y.Worker(w);
    SoundParts(y, cap);
    assert w in y.workers && GoodWorker(p, y.h, cap);
    CurrentLease(y.store, y.h, p, cap);
    HolderEffect(y.store, cfg, p.l, Plan(p, i));
    AdvanceStore(y.store, cfg, p, i);
    hide Sound, Abs, Domains, Perform, Plan, Advance, Record, Moved, GoodWorker, GoodEntries, GoodWorkers;
  }

  lemma PlansOutcome(cfg: Config, en: Entry, after: Option<Entry>, p: Phase, i: Input)
    requires en.InFlight? && Fits(p, i) && 1 <= en.attempt == p.l.attempt
    requires p.Cleared? || p.Delivering? || p.Finalizing? ==> 1 <= p.route.maxAttempts && 0 <= p.route.baseBackoff && 0 <= p.route.maxBackoff
    requires Moved(cfg, en, after, Plan(p, i))
    ensures after == Outcome(cfg, en, p, i)
  {
    if p.Cleared? || p.Delivering? || p.Finalizing? {
      BackoffDoubles(p.l.attempt, p.route);
    }
    hide Backoff, Delay;
  }

  /** A step of the current holder, in any state a run can reach: the event goes exactly where the case
      at hand sends it. A permanent failure, a window that is over and an exhausted budget dead-letter; a
      retryable one goes back with the doubled delay until the attempts are used up; waiting for a route
      or a slot gives the claim's attempt back; only a finalized delivery removes the event. */
  lemma HolderOutcome(y: System, cfg: Config, cap: Id -> nat, w: nat, i: Input)
    requires Sound(y, cap) && cfg.Valid() && Enabled(y, Work(w, i), cap)
    requires y.store.data.Holds(y.Worker(w).l.id, y.Worker(w).l.token)
    ensures Domains(y.store.data) && Domains(Apply(y, cfg, Work(w, i)).store.data)
    ensures var id, z := y.Worker(w).l.id, Apply(y, cfg, Work(w, i));
            var e := Abs(y.store.data);
            && id in e && e[id].InFlight? && At(Abs(z.store.data), id) == Outcome(cfg, e[id], y.Worker(w), i)
  {
    HolderFacts(y, cfg, cap, w, i);
    var p, id := y.Worker(w), y.Worker(w).l.id;
    hide Sound, Abs, Domains, Apply, Moved, Plan, Perform, Outcome, Enabled;
    EnabledFits(y, w, i, cap);
    PlansOutcome(cfg, Abs(y.store.data)[id], At(Abs(Apply(y, cfg, Work(w, i)).store.data), id), p, i);
  }

  lemma EnabledFits(y: System, w: nat, i: Input, cap: Id -> nat)
    requires Enabled(y, Work(w, i), cap)
    ensures Fits(y.Worker(w), i)
  {
  }

  lemma NextUncalled(s: Store, cfg: Config, p: Phase, i: Input, marker: Option<int>)
    requires Fits(p, i) && !i.RouteAbsent? && !i.RouteFound? && !i.Heartbeat?
    ensures GoesOn(p, i, Advance(s, cfg, p, i).phase, marker)
  {
    hide Perform, Plan;
  }

  lemma NextMarked(s: Store, cfg: Config, p: Phase, i: Input)
    requires Domains(s.data) && Fits(p, i) && (i.RouteAbsent? || i.RouteFound?) && Owns(Abs(s.data), p.l.id, p.l.token)
    ensures var o := Advance(s, cfg, p, i); GoesOn(p, i, o.phase, MarkerOf(o.store.data, p.l.id))
  {
    hide Abs, Domains, RouteMissingScript, ClearRouteMissingScript;
    MarkerScriptsRefine(s, cfg, p.l.id, p.l.token, if i.RouteAbsent? then i.now else 0);
  }

  lemma NextBeating(s: Store, cfg: Config, p: Phase, i: Input, marker: Option<int>)
    requires Domains(s.data) && Fits(p, i) && i.Heartbeat? && Owns(Abs(s.data), p.l.id, p.l.token)
    ensures GoesOn(p, i, Advance(s, cfg, p, i).phase, marker)
  {
    hide Abs, Domains, RenewScript;
    RenewRefines(s, cfg, p.l.id, p.l.token, i.now + i.duration);
  }

  lemma NextOfHolder(s: Store, cfg: Config, p: Phase, i: Input)
    requires Domains(s.data) && Fits(p, i) && Owns(Abs(s.data), p.l.id, p.l.token)
    ensures var o := Advance(s, cfg, p, i); GoesOn(p, i, o.phase, MarkerOf(o.store.data, p.l.id))
  {
    hide Abs, Domains, Advance, GoesOn;
    if i.RouteAbsent? || i.RouteFound? {
      NextMarked(s, cfg, p, i);
    } else if i.Heartbeat? {
      NextBeating(s, cfg, p, i, MarkerOf(Advance(s, cfg, p, i).store.data, p.l.id));
    } else {
      NextUncalled(s, cfg, p, i, MarkerOf(Advance(s, cfg, p, i).store.data, p.l.id));
    }
  }

  /** The marker is stamped by a miss, gone once the route is found or the lease ends in an ack or a
      dead letter or a requeue, and otherwise as before. */
  ghost predicate MarkerFollows(p: Phase, i: Input, marked: bool, still: bool)
    requires Fits(p, i)
  {
    match i
    case RouteAbsent(_) => still
    case RouteFound(_) => !still
    case MissDecision(checkedAt, _, _) => still == (marked && checkedAt - p.firstSeen < 15 * 60 * 1000)
    case Capacity(_, _, _, _) => still == (marked && p.l.attempt <= p.route.maxAttempts)
    case DeliverFailed(_, _, _) => !still
    case Finalized(_, _, _) => still == (marked && p.lost)
    case _ => still == marked
  }

  lemma PlansMarker(p: Phase, i: Input, marked: bool)
    requires Fits(p, i) && 1 <= p.l.attempt
    requires p.Cleared? || p.Delivering? || p.Finalizing? ==> 1 <= p.route.maxAttempts && 0 <= p.route.baseBackoff && 0 <= p.route.maxBackoff
    ensures MarkerFollows(p, i, marked, MarkedAfter(marked, Plan(p, i)))
  {
    if p.Cleared? || p.Delivering? || p.Finalizing? {
      BackoffDoubles(p.l.attempt, p.route);
    }
    hide Backoff, Delay;
  }

  /** And the worker, the marker and the history follow. The callback is called exactly by a holder, or
      former holder, that is past its route, within budget, and finds a slot free; the event is acked
      exactly when its finalization succeeded with the lease still held. */
  lemma HolderGoesOn(y: System, cfg: Config, cap: Id -> nat, w: nat, i: Input)
    requires Sound(y, cap) && cfg.Valid() && Enabled(y, Work(w, i), cap)
    requires y.store.data.Holds(y.Worker(w).l.id, y.Worker(w).l.token)
    ensures var p, z := y.Worker(w), Apply(y, cfg, Work(w, i));
            && p.l.token in y.h.issued
            && GoesOn(p, i, z.Worker(w), MarkerOf(z.store.data, p.l.id))
            && MarkerFollows(p, i, p.l.id in y.store.data.missing, p.l.id in z.store.data.missing)
            && z.h.calls == (if Calls(p, i) then y.h.calls + [y.h.issued[p.l.token]] else y.h.calls)
            && z.h.acks == (if i.Finalized? && i.ok && p.Finalizing? && !p.lost
                            then y.h.acks + [Birth(p.l.id, y.h.issued[p.l.token].epoch)] else y.h.acks)
  {
    var p := y.Worker(w);
    HolderFacts(y, cfg, cap, w, i);
    NextOfHolder(y.store, cfg, p, i);
    RecordShape(y.store, cfg, y.h, p, i);
    PlansMarker(p, i, p.l.id in y.store.data.missing);
    AcksAndCalls(p, i);
    hide Sound, Abs, Domains, Advance, Moved, Plan, Perform, Record, GoesOn, MarkerFollows, MarkedAfter, Delivers, Calls, Ends;
  }

  predicate Calls(p: Phase, i: Input) {
    p.Cleared? && i.Capacity? && i.free && p.l.attempt <= p.route.maxAttempts
  }

  lemma AcksAndCalls(p: Phase, i: Input)
    requires Fits(p, i)
    ensures Delivers(p, i) <==> Calls(p, i)
    ensures Ends(Plan(p, i)) && Plan(p, i).Finish? <==> i.Finalized? && i.ok && p.Finalizing? && !p.lost
  {
    hide Backoff;
  }

  /** A worker whose lease is gone changes no table, except that it may stamp a miss; it learns of the
      loss at its next call and goes idle, or on heartbeat remembers it. */
  lemma StaleOutcome(y: System, cfg: Config, cap: Id -> nat, w: nat, i: Input)
    requires Sound(y, cap) && Enabled(y, Work(w, i), cap)
    requires !y.store.data.Holds(y.Worker(w).l.id, y.Worker(w).l.token)
    ensures Domains(y.store.data) && Domains(Apply(y, cfg, Work(w, i)).store.data)
    ensures var p, z := y.Worker(w), Apply(y, cfg, Work(w, i));
            && (if i.RouteAbsent? then Abs(z.store.data) == Abs(y.store.data) else z.store == y.store)
            && z.h.acks == y.h.acks && z.h.endings == y.h.endings
            && (i.RouteFound? || i.MissDecision? || i.Finalized? || i.DeliverFailed? ==> z.Worker(w).Idle?)
            && (i.Heartbeat? && p.Finalizing? ==> z.Worker(w) == p.(lost := true))
  {
    var p := y.Worker(w);
    SoundParts(y, cap);
    assert w in y.workers && GoodWorker(p, y.h, cap);
    RecordShape(y.store, cfg, y.h, p, i);
    if i.RouteAbsent? {
      StampEffect(y.store, cfg, p.l, i.now);
    } else {
      StaleCallIsNoop(y.store, cfg, p.l, Plan(p, i));
    }
    hide Sound, Abs, Domains, Perform, Record, Backoff;
  }

  // ------------------------------------------------------------ a whole handling, undisturbed

  /** What becomes of an event under a lease with nobody else around, by what the handling meets. */
  ghost function Settled(cfg: Config, en: Entry, p: Phase, h: Handling, marker: Option<int>): Option<Entry>
    requires en.InFlight?
    decreases if p.Holding? then 3 else if p.Missed? || p.Cleared? then 2 else if p.Delivering? then 1 else 0
  {
    match p
    case Holding(l) =>
      if h.route.Some? then Settled(cfg, en, Cleared(l, h.route.value), h, None)
      else Settled(cfg, en, Missed(l, if marker.Some? then marker.value else h.seenAt), h, marker)
    case Missed(_, firstSeen) =>
      if h.checkedAt - firstSeen < 15 * 60 * 1000 then Some(Waiting(en.body, en.attempt - 1, h.decideAt + 5000))
      else Corpse(cfg, en, h.decideAt, h.meta)
    case Cleared(l, route) =>
      if en.attempt > route.maxAttempts then Corpse(cfg, en, h.decideAt, h.meta)
      else if !h.free then Some(Waiting(en.body, en.attempt - 1, h.decideAt + h.poll))
      else Settled(cfg, en, Delivering(l, route), h, marker)
    case Delivering(l, route) =>
      if h.delivery.Applied? then Settled(cfg, en, Finalizing(l, route, false), h, marker)
      else if h.delivery.retry then Retried(cfg, en, route, h.decideAt, h.meta)
      else Corpse(cfg, en, h.decideAt, h.meta)
    case Finalizing(_, route, _) =>
      if h.finalized then None else Retried(cfg, en, route, h.decideAt, h.meta)
    case Idle => Some(en)
  }

  /** Deliver calls still to come: one if the route is found, the budget not exhausted and a slot free. */
  ghost function CallsToCome(p: Phase, h: Handling): nat {
    match p
    case Holding(l) => if h.route.Some? && l.attempt <= h.route.value.maxAttempts && h.free then 1 else 0
    case Cleared(l, route) => if l.attempt <= route.maxAttempts && h.free then 1 else 0
    case _ => 0
  }

  /** A worker that holds the current lease, and may go on. */
  ghost predicate Steady(s: Store, p: Phase, h: Handling) {
    && Domains(s.data) && !p.Idle? && Owns(Abs(s.data), p.l.id, p.l.token)
    && Abs(s.data)[p.l.id].attempt == p.l.attempt && 1 <= p.l.attempt && h.duration > 0
    && (h.route.Some? ==> h.route.value.Valid())
    && (p.Cleared? || p.Delivering? || p.Finalizing? ==> p.route.Valid())
    && (p.Finalizing? ==> !p.lost)
  }

  lemma AdvanceOutcome(s: Store, cfg: Config, p: Phase, i: Input, h: Handling)
    requires Steady(s, p, h) && Fits(p, i)
    ensures var o := Advance(s, cfg, p, i);
            && Domains(o.store.data)
            && At(Abs(o.store.data), p.l.id) == Outcome(cfg, Abs(s.data)[p.l.id], p, i)
            && GoesOn(p, i, o.phase, MarkerOf(o.store.data, p.l.id))
            && (o.delivered <==> Calls(p, i))
  {
    HolderEffect(s, cfg, p.l, Plan(p, i));
    AdvanceStore(s, cfg, p, i);
    NextOfHolder(s, cfg, p, i);
    AcksAndCalls(p, i);
    hide Abs, Domains, Perform, Plan, Moved, GoesOn, Outcome, Calls;
    PlansOutcome(cfg, Abs(s.data)[p.l.id], At(Abs(Advance(s, cfg, p, i).store.data), p.l.id), p, i);
  }

  lemma StampedFirst(s: Store, cfg: Config, p: Phase, i: Input)
    requires Domains(s.data) && p.Holding? && i.RouteAbsent?
    ensures MarkerOf(Advance(s, cfg, p, i).store.data, p.l.id)
         == if p.l.id in s.data.missing then Some(s.data.missing[p.l.id]) else Some(i.now)
  {
    hide Abs, Domains, RouteMissingScript;
    MarkerScriptsRefine(s, cfg, p.l.id, p.l.token, i.now);
  }

  /** The phase a handling may be in. */
  ghost predicate Ready(p: Phase, h: Handling) {
    && !p.Idle? && 1 <= p.l.attempt && h.duration > 0 && (h.route.Some? ==> h.route.value.Valid())
    && (p.Cleared? || p.Delivering? || p.Finalizing? ==> p.route.Valid())
    && (p.Finalizing? ==> !p.lost)
  }

  lemma SettledStep(cfg: Config, en: Entry, after: Option<Entry>, p: Phase, i: Input, n: Phase, h: Handling,
                    marker: Option<int>, later: Option<int>)
    requires Ready(p, h) && Fits(p, i) && Reports(i, h) && en.InFlight? && en.attempt == p.l.attempt
    requires GoesOn(p, i, n, later) && after == Outcome(cfg, en, p, i)
    requires i.RouteAbsent? ==> later == Some(if marker.Some? then marker.value else i.now)
    ensures n.Idle? ==> after == Settled(cfg, en, p, h, marker)
    ensures !n.Idle? ==>
              && Ready(n, h) && n.l == p.l && after.Some? && after.value.InFlight?
              && after.value == en.(until := after.value.until)
              && Settled(cfg, en, p, h, marker) == Settled(cfg, after.value, n, h, later)
    ensures CallsToCome(p, h) == (if Calls(p, i) then 1 else 0) + CallsToCome(n, h)
  {
    hide Delay;
    if !n.Idle? {
      SettledIgnores(cfg, en, after.value, n, h, marker, later);
      SettledIgnores(cfg, en, after.value, n, h, None, later);
    }
  }

  /** Past the miss, the marker no longer matters, and the lease's expiry never does. */
  lemma {:induction false} SettledIgnores(cfg: Config, en: Entry, more: Entry, p: Phase, h: Handling, a: Option<int>, b: Option<int>)
    requires en.InFlight? && more.InFlight? && more == en.(until := more.until) && !p.Holding? && !p.Idle?
    ensures Settled(cfg, en, p, h, a) == Settled(cfg, more, p, h, b)
    decreases if p.Cleared? then 2 else if p.Delivering? then 1 else 0
  {
    if p.Cleared? {
      SettledIgnores(cfg, en, more, Delivering(p.l, p.route), h, a, b);
    } else if p.Delivering? {
      SettledIgnores(cfg, en, more, Finalizing(p.l, p.route, false), h, a, b);
    }
  }

  lemma SteadyIs(s: Store, p: Phase, h: Handling)
    ensures Steady(s, p, h) <==>
              Ready(p, h) && Domains(s.data) && Owns(Abs(s.data), p.l.id, p.l.token) && Abs(s.data)[p.l.id].attempt == p.l.attempt
  {
  }

  /** One step of the handling: either it ends there, or what is still to come decides. */
  lemma SettlesOn(s: Store, cfg: Config, p: Phase, i: Input, h: Handling)
    requires Steady(s, p, h) && Fits(p, i) && Reports(i, h)
    ensures var o, id := Advance(s, cfg, p, i), p.l.id;
            var en, settled := Abs(s.data)[id], Settled(cfg, Abs(s.data)[id], p, h, MarkerOf(s.data, id));
            && Domains(o.store.data)
            && CallsToCome(p, h) == (if o.delivered then 1 else 0) + CallsToCome(o.phase, h)
            && if o.phase.Idle? then At(Abs(o.store.data), id) == settled
               else
                 && Steady(o.store, o.phase, h) && o.phase.l == p.l
                 && settled == Settled(cfg, Abs(o.store.data)[id], o.phase, h, MarkerOf(o.store.data, id))
  {
    AdvanceOutcome(s, cfg, p, i, h);
    if p.Holding? && i.RouteAbsent? {
      StampedFirst(s, cfg, p, i);
    }
    var o, id := Advance(s, cfg, p, i), p.l.id;
    AtIn(Abs(o.store.data), id);
    SteadyIs(s, p, h);
    SteadyIs(o.store, o.phase, h);
    hide Abs, Domains, Advance, At, Settled, Outcome, GoesOn, Reports, Steady, Ready, MarkerOf, Calls, CallsToCome;
    SettledStep(cfg, Abs(s.data)[id], At(Abs(o.store.data), id), p, i, o.phase, h, MarkerOf(s.data, id), MarkerOf(o.store.data, id));
  }

  /** The worker's steps, with nobody else around, settle the event as its case says. */
  lemma {:induction false} HandlingSettles(s: Store, cfg: Config, p: Phase, steps: seq<Input>, h: Handling)
    requires Steady(s, p, h) && AllReport(steps, h)
    requires Drive(s, cfg, p, steps).Some? && Drive(s, cfg, p, steps).value.phase.Idle?
    ensures var t := Drive(s, cfg, p, steps).value.store;
            && Domains(t.data)
            && At(Abs(t.data), p.l.id) == Settled(cfg, Abs(s.data)[p.l.id], p, h, MarkerOf(s.data, p.l.id))
    ensures Drive(s, cfg, p, steps).value.deliveries == CallsToCome(p, h)
    decreases |steps|
  {
    hide Steady, Settled, Advance, Abs, Domains, Reports, Fits, MarkerOf, Ready;
    SteadyIs(s, p, h);
    ReadyIsBusy(p, h);
    assert Reports(steps[0], h);
    SettlesOn(s, cfg, p, steps[0], h);
    var o := Advance(s, cfg, p, steps[0]);
    if o.phase.Idle? {
      IdleFitsNothing(o.store, cfg, steps[1..]);
    } else {
      assert forall k :: 0 <= k < |steps[1..]| ==> steps[1..][k] == steps[k + 1];
      HandlingSettles(o.store, cfg, o.phase, steps[1..], h);
    }
  }

  lemma ReadyIsBusy(p: Phase, h: Handling)
    requires Ready(p, h)
    ensures !p.Idle?
  {
  }

  lemma IdleFitsNothing(s: Store, cfg: Config, steps: seq<Input>)
    requires Drive(s, cfg, Idle, steps).Some?
    ensures Drive(s, cfg, Idle, steps).value == Run(s, Idle, 0)
  {
  }

  /** ProcessOne without interference, from the claim on: the first due event is settled by what the
      handling meets, under the attempt after its last, with at most one Deliver call. */
  lemma ClaimedSettles(s: Store, cfg: Config, id: Id, h: Handling, steps: seq<Input>)
    requires Domains(s.data) && id in s.data.ready && h.duration > 0 && (h.route.Some? ==> h.route.value.Valid())
    requires var (t, lease) := ClaimScript(s, cfg, Some(id), h.claimAt + h.duration, h.token);
             && lease.Some? && AllReport(steps, h)
             && Drive(t, cfg, Holding(lease.value), steps).Some?
             && Drive(t, cfg, Holding(lease.value), steps).value.phase.Idle?
    ensures var (t, lease) := ClaimScript(s, cfg, Some(id), h.claimAt + h.duration, h.token);
            var e, end := Abs(s.data), Drive(t, cfg, Holding(lease.value), steps).value;
            && id in e && e[id].Waiting? && Domains(end.store.data)
            && var en := InFlight(e[id].body, e[id].attempt + 1, h.claimAt + h.duration, h.token);
               && lease == Some(Lease(id, h.token, en.attempt))
               && At(Abs(end.store.data), id) == Settled(cfg, en, Holding(lease.value), h, MarkerOf(s.data, id))
               && end.deliveries == CallsToCome(Holding(lease.value), h) <= 1
  {
    hide Abs, Domains, Consistent, View, ClaimScript, Drive, Settled, Steady, Fits, AllReport;
    ClaimRefines(s, cfg, Some(id), h.claimAt + h.duration, h.token);
    AttemptsCount(s.data, id);
    var (t, lease) := ClaimScript(s, cfg, Some(id), h.claimAt + h.duration, h.token);
    SteadyIs(t, Holding(lease.value), h);
    HandlingSettles(t, cfg, Holding(lease.value), steps, h);
  }

  lemma AttemptsCount(d: Data, id: Id)
    requires Domains(d)
    ensures id in Abs(d) && Abs(d)[id].Waiting? ==> 0 <= Abs(d)[id].attempt
  {
    AbsMatches(d, id);
  }
}
