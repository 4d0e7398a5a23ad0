/** Events whose route is absent: waiting consumes no attempt, never restarts the window, and ends in
    the dead-letter keys at the first decision after the window; and when the window itself is early. */
module RouteAbsence {
  import opened Prelude
  import opened SortedSets
  import opened QueueScripts
  import opened QueueRefinement
  import opened QueueExpiry
  import opened ProcessOne
  import opened WorkerEffects
  import opened DispatchRuns
  import opened DispatchTheorems

  // ------------------------------------------------------------------------- waiting for a route

  /** Event id waits for its route: stamped at m, n attempts consumed; its lease, if any, has only got
      as far as the miss. */
  ghost predicate Riding(y: System, id: Id, m: int, n: int) {
    && Domains(y.store.data)
    && id in y.store.data.missing && y.store.data.missing[id] == m
    && Uncharged(At(Abs(y.store.data), id), n)
    && forall w :: w in y.workers ==> Patient(y.workers[w], y.store.data, id, m)
  }

  /** Waiting with n attempts, or leased with the one its claim took on top. */
  ghost predicate Uncharged(en: Option<Entry>, n: int) {
    match en
    case Some(Waiting(_, attempt, _)) => attempt == n
    case Some(InFlight(_, attempt, _, _)) => attempt == n + 1
    case _ => false
  }

  ghost predicate Patient(p: Phase, d: Data, id: Id, m: int) {
    !p.Idle? && p.l.id == id && d.Holds(id, p.l.token) ==> p.Holding? || (p.Missed? && p.firstSeen == m)
  }

  /** The route stays absent for the current lease, its decisions come within the window, and the keys
      of the event do not expire. */
  ghost predicate StillAbsent(y: System, ev: Event, id: Id, m: int) {
    match ev
    case Work(w, input) =>
      var p := y.Worker(w);
      !p.Idle? && p.l.id == id && y.store.data.Holds(id, p.l.token) ==>
        !input.RouteFound? && (input.MissDecision? ==> !RouteMissingExpired(m, input.checkedAt))
    case Elapse(clock) =>
      var d := Tick(y.store, clock).data;
      id in d.missing && id in d.payload
    case _ => true
  }

  ghost predicate AbsentThroughout(y: System, cfg: Config, cap: Id -> nat, evs: seq<Event>, id: Id, m: int)
    requires Legal(y, cfg, cap, evs)
    decreases |evs|
  {
    evs == [] || (StillAbsent(y, evs[0], id, m) && AbsentThroughout(Apply(y, cfg, evs[0]), cfg, cap, evs[1..], id, m))
  }

  /** Nothing about the event, its marker or its leases changes. */
  lemma Unaffected(y: System, z: System, id: Id, m: int, n: int)
    requires Riding(y, id, m, n) && Domains(z.store.data) && z.workers == y.workers
    requires id in z.store.data.missing && z.store.data.missing[id] == m
    requires At(Abs(z.store.data), id) == At(Abs(y.store.data), id)
    ensures Riding(z, id, m, n)
  {
    AbsMatches(y.store.data, id);
    AbsMatches(z.store.data, id);
    forall w | w in z.workers ensures Patient(z.workers[w], z.store.data, id, m) {
      assert Patient(y.workers[w], y.store.data, id, m);
    }
  }

  /** The event left its lease. */
  lemma BackToReady(y: System, z: System, id: Id, m: int, n: int)
    requires Domains(z.store.data) && id in z.store.data.missing && z.store.data.missing[id] == m
    requires At(Abs(z.store.data), id).Some? && At(Abs(z.store.data), id).value.Waiting?
    requires At(Abs(z.store.data), id).value.attempt == n
    ensures Riding(z, id, m, n)
  {
    AbsMatches(z.store.data, id);
  }

  lemma RidingEnqueue(y: System, cfg: Config, cap: Id -> nat, ev: Event, id: Id, m: int, n: int)
    requires Sound(y, cap) && cfg.Valid() && (ev.Enqueue? || ev.Replay?) && Riding(y, id, m, n)
    ensures Riding(Apply(y, cfg, ev), id, m, n)
  {
    var d := y.store.data;
    if ev.Enqueue? {
      EnqueueRefines(y.store, cfg, ev.id, ev.body, ev.due);
    } else {
      ReplayRefines(y.store, cfg, ev.id, ev.due);
    }
    hide Domains, Abs, EnqueueScript, ReplayScript, Sound, Riding;
    var z := Apply(y, cfg, ev);
    RidingFacts(y, id, m, n);
    Unaffected(y, z, id, m, n);
  }

  lemma RidingFacts(y: System, id: Id, m: int, n: int)
    requires Riding(y, id, m, n)
    ensures Domains(y.store.data) && id in y.store.data.missing && y.store.data.missing[id] == m
    ensures var e := Abs(y.store.data);
            && id in e && !e[id].Dead?
            && (e[id].Waiting? ==> e[id].attempt == n)
            && (e[id].InFlight? ==> e[id].attempt == n + 1)
  {
  }

  lemma RidingPrune(y: System, cfg: Config, cap: Id -> nat, ev: Event, id: Id, m: int, n: int)
    requires Sound(y, cap) && ev.Prune? && Riding(y, id, m, n)
    ensures Riding(Apply(y, cfg, ev), id, m, n)
  {
    PruneRefines(y.store, ev.cutoff);
    hide Domains, Abs, PruneScript, Sound, Riding;
    RidingFacts(y, id, m, n);
    Unaffected(y, Apply(y, cfg, ev), id, m, n);
  }

  lemma RidingElapse(y: System, cfg: Config, cap: Id -> nat, ev: Event, id: Id, m: int, n: int)
    requires Sound(y, cap) && Enabled(y, ev, cap) && ev.Elapse? && Riding(y, id, m, n) && StillAbsent(y, ev, id, m)
    ensures Riding(Apply(y, cfg, ev), id, m, n)
  {
    TickRefines(y.store, ev.clock);
    hide Domains, Abs, Tick, Sound, Riding;
    RidingFacts(y, id, m, n);
    AbsMatches(Tick(y.store, ev.clock).data, id);
    Unaffected(y, Apply(y, cfg, ev), id, m, n);
  }

  /** A reclaim refunds the marked lease. */
  lemma RidingReclaim(y: System, cfg: Config, cap: Id -> nat, ev: Event, id: Id, m: int, n: int)
    requires Sound(y, cap) && ev.Reclaim? && Riding(y, id, m, n)
    ensures Riding(Apply(y, cfg, ev), id, m, n)
  {
    ReclaimRefines(y.store, cfg, ev.ids, ev.now);
    hide Domains, Abs, ReclaimScript, Sound, Riding;
    RidingFacts(y, id, m, n);
    var z := Apply(y, cfg, ev);
    var e := Abs(y.store.data);
    if e[id].InFlight? && id in ev.ids {
      BackToReady(y, z, id, m, n);
    } else {
      Unaffected(y, z, id, m, n);
    }
  }

  lemma ClaimPatience(y: System, z: System, cap: Id -> nat, w: nat, l: Lease, id: Id, m: int, n: int)
    requires GoodWorkers(y, cap) && Riding(y, id, m, n) && l.token !in y.h.issued
    requires z.workers == y.workers || z.workers == y.workers[w := Holding(l)]
    requires forall t :: z.store.data.Holds(id, t) && t != l.token ==> y.store.data.Holds(id, t)
    ensures forall v :: v in z.workers ==> Patient(z.workers[v], z.store.data, id, m)
  {
    hide Domains, Abs;
    forall v | v in z.workers ensures Patient(z.workers[v], z.store.data, id, m) {
      if v in y.workers {
        assert Patient(y.workers[v], y.store.data, id, m) && GoodWorker(y.workers[v], y.h, cap);
      }
    }
  }

  lemma ClaimTokens(s: Store, cfg: Config, first: Option<Id>, until: int, token: Token, id: Id)
    ensures var t := ClaimScript(s, cfg, first, until, token).0;
            forall x :: t.data.Holds(id, x) && x != token ==> s.data.Holds(id, x)
  {
  }

  lemma ClaimOutcome(y: System, cfg: Config, ev: Event)
    requires ev.Claim?
    ensures var z := Apply(y, cfg, ev);
            var (t, lease) := ClaimScript(y.store, cfg, ev.first, ev.until, ev.token);
            && z.store == t
            && z.workers == (if lease.Some? then y.workers[ev.w := Holding(lease.value)] else y.workers)
            && (lease.Some? ==> lease.value.token == ev.token)
  {
    hide Exists, Claimed, Unclaimable;
  }

  /** A claim of the event takes one attempt, and its fresh lease is only holding it. */
  lemma RidingClaim(y: System, cfg: Config, cap: Id -> nat, ev: Event, id: Id, m: int, n: int)
    requires Sound(y, cap) && cfg.Valid() && Enabled(y, ev, cap) && ev.Claim? && Riding(y, id, m, n)
    ensures Riding(Apply(y, cfg, ev), id, m, n)
  {
    ClaimRefines(y.store, cfg, ev.first, ev.until, ev.token);
    ClaimOutcome(y, cfg, ev);
    ClaimTokens(y.store, cfg, ev.first, ev.until, ev.token, id);
    var z := Apply(y, cfg, ev);
    var lease := ClaimScript(y.store, cfg, ev.first, ev.until, ev.token).1;
    RidingFacts(y, id, m, n);
    assert GoodWorkers(y, cap);
    hide Domains, Abs, ClaimScript, Apply, Sound, Patient, IsFirstDue, GoodWorkers;
    ClaimPatience(y, z, cap, ev.w, if lease.Some? then lease.value else Lease(id, ev.token, 0), id, m, n);
  }

  /** A step of a worker that does not hold the current lease of the event. */
  lemma RidingOther(y: System, cfg: Config, cap: Id -> nat, w: nat, i: Input, id: Id, m: int, n: int)
    requires Sound(y, cap) && cfg.Valid() && Enabled(y, Work(w, i), cap) && Riding(y, id, m, n)
    requires var l := y.Worker(w).l; l.id != id || !y.store.data.Holds(id, l.token)
    ensures Riding(Apply(y, cfg, Work(w, i)), id, m, n)
  {
    var p := y.Worker(w);
    OtherStep(y.store, cfg, p, i, id);
    AdvanceStore(y.store, cfg, p, i);
    NextKeepsLease(y.store, cfg, p, i);
    var z := Apply(y, cfg, Work(w, i));
    AbsMatches(y.store.data, id);
    AbsMatches(z.store.data, id);
    hide Domains, Abs, Advance, Perform, Plan, Record;
    forall v | v in z.workers ensures Patient(z.workers[v], z.store.data, id, m) {
      assert v in y.workers && Patient(y.workers[v], y.store.data, id, m);
    }
  }

  lemma NextKeepsLease(s: Store, cfg: Config, p: Phase, i: Input)
    requires Fits(p, i)
    ensures var o := Advance(s, cfg, p, i); o.phase.Idle? || o.phase.l == p.l
  {
    hide Perform, Plan;
  }

  /** The event's entry and its marker are as before. */
  ghost predicate EntryKept(s: Store, t: Store, id: Id)
    requires Domains(s.data)
  {
    && Domains(t.data) && At(Abs(t.data), id) == At(Abs(s.data), id)
    && id in s.data.missing && id in t.data.missing && t.data.missing[id] == s.data.missing[id]
  }

  lemma OtherStep(s: Store, cfg: Config, p: Phase, i: Input, id: Id)
    requires Inv(s) && cfg.Valid() && Fits(p, i) && (p.l.id != id || !s.data.Holds(id, p.l.token))
    requires id in s.data.missing && At(Abs(s.data), id).Some? && !At(Abs(s.data), id).value.Dead?
    ensures EntryKept(s, Perform(s, cfg, p.l, Plan(p, i)).0, id)
  {
    var l, a := p.l, Plan(p, i);
    hide Plan, Exists, In, Domains, Abs, Perform;
    if l.id != id {
      OtherEffect(s, cfg, l, a, id);
    } else if a.Mark? {
      StampedAlready(s, cfg, l, a.now);
    } else {
      StaleCallIsNoop(s, cfg, l, a);
    }
  }

  lemma StampedAlready(s: Store, cfg: Config, l: Lease, now: int)
    requires Domains(s.data) && l.id in s.data.missing
    ensures EntryKept(s, Perform(s, cfg, l, Mark(now)).0, l.id)
  {
    MarkerScriptsRefine(s, cfg, l.id, l.token, now);
    hide Domains, Abs;
  }

  /** A step of the worker that holds the event's current lease. */
  lemma RidingOwn(y: System, cfg: Config, cap: Id -> nat, w: nat, i: Input, id: Id, m: int, n: int)
    requires Sound(y, cap) && cfg.Valid() && Enabled(y, Work(w, i), cap) && Riding(y, id, m, n)
    requires y.Worker(w).l.id == id && y.store.data.Holds(id, y.Worker(w).l.token)
    requires StillAbsent(y, Work(w, i), id, m)
    ensures Riding(Apply(y, cfg, Work(w, i)), id, m, n)
  {
    var p := y.Worker(w);
    assert Patient(p, y.store.data, id, m);
    if i.MissDecision? {
      assert w in y.workers && GoodWorker(p, y.h, cap);
      RidingDefer(y, cfg, w, i, id, m, n);
    } else {
      RidingMark(y, cfg, cap, w, i, id, m, n);
    }
  }

  lemma DecisionCall(s: Store, cfg: Config, p: Phase, checkedAt: int, now: int, meta: Body)
    requires p.Missed? && 1 <= p.l.attempt
    ensures var t := Advance(s, cfg, p, MissDecision(checkedAt, now, meta)).store;
            if RouteMissingExpired(p.firstSeen, checkedAt)
            then t == NackScript(s, cfg, p.l.id, p.l.token, now, 0, p.l.attempt, meta).0
            else t == DeferScript(s, cfg, p.l.id, p.l.token, now + ROUTE_MISSING_DEFER_MS).0
  {
    hide DeferScript, NackScript;
  }

  lemma InTimeEffect(s: Store, cfg: Config, p: Phase, checkedAt: int, now: int, meta: Body)
    requires Domains(s.data) && p.Missed? && 1 <= p.l.attempt && s.data.Holds(p.l.id, p.l.token)
    requires !RouteMissingExpired(p.firstSeen, checkedAt)
    ensures var t, e := Advance(s, cfg, p, MissDecision(checkedAt, now, meta)).store, Abs(s.data);
            && p.l.id in e && e[p.l.id].InFlight?
            && Domains(t.data) && t.data.missing == s.data.missing
            && At(Abs(t.data), p.l.id) == Some(Waiting(e[p.l.id].body, e[p.l.id].attempt - 1, now + ROUTE_MISSING_DEFER_MS))
  {
    DecisionCall(s, cfg, p, checkedAt, now, meta);
    AbsMatches(s.data, p.l.id);
    hide Domains, Abs, DeferScript, NackScript, Advance, Exists;
    DeferRefines(s, cfg, p.l.id, p.l.token, now + ROUTE_MISSING_DEFER_MS);
  }

  lemma OverdueEffect(s: Store, cfg: Config, p: Phase, checkedAt: int, now: int, meta: Body)
    requires Domains(s.data) && p.Missed? && 1 <= p.l.attempt && s.data.Holds(p.l.id, p.l.token)
    requires p.l.attempt == s.data.Attempt(p.l.id) && RouteMissingExpired(p.firstSeen, checkedAt)
    ensures var t, e := Advance(s, cfg, p, MissDecision(checkedAt, now, meta)).store, Abs(s.data);
            && p.l.id in e && e[p.l.id].InFlight?
            && Domains(t.data) && t.data.missing == s.data.missing - {p.l.id}
            && At(Abs(t.data), p.l.id) == if cfg.dlqRetention > 0 then Some(Dead(e[p.l.id].body, now, meta)) else None
  {
    DecisionCall(s, cfg, p, checkedAt, now, meta);
    AbsMatches(s.data, p.l.id);
    hide Domains, Abs, DeferScript, NackScript, Advance, Exists;
    NackRefines(s, cfg, p.l.id, p.l.token, now, 0, p.l.attempt, meta);
    NackedAt(Abs(s.data), cfg, p.l.id, now, 0, p.l.attempt, meta);
    hide NackEntries;
  }

  lemma NackedAt(e: Entries, cfg: Config, id: Id, now: int, delay: int, maxAttempts: int, meta: Body)
    requires id in e && e[id].InFlight? && e[id].attempt >= maxAttempts
    ensures At(NackEntries(e, cfg, id, now, delay, maxAttempts, meta), id)
         == if cfg.dlqRetention > 0 then Some(Dead(e[id].body, now, meta)) else None
  {
  }

  lemma WorkStore(y: System, cfg: Config, w: nat, i: Input)
    requires Fits(y.Worker(w), i)
    ensures Apply(y, cfg, Work(w, i)).store == Advance(y.store, cfg, y.Worker(w), i).store
  {
    hide Advance, Record;
  }

  lemma RidingDefer(y: System, cfg: Config, w: nat, i: Input, id: Id, m: int, n: int)
    requires Riding(y, id, m, n) && y.Worker(w).Missed? && 1 <= y.Worker(w).l.attempt
    requires i.MissDecision? && y.Worker(w).firstSeen == m
    requires y.Worker(w).l.id == id && y.store.data.Holds(id, y.Worker(w).l.token)
    requires !RouteMissingExpired(m, i.checkedAt)
    ensures var z := Apply(y, cfg, Work(w, i));
            && Riding(z, id, m, n)
            && id in Abs(y.store.data)
            && At(Abs(z.store.data), id) == Some(Waiting(Abs(y.store.data)[id].body, n, i.actedAt + ROUTE_MISSING_DEFER_MS))
  {
    RidingFacts(y, id, m, n);
    hide Domains, Abs, Riding, Advance, Record, Uncharged, Patient, Apply;
    InTimeEffect(y.store, cfg, y.Worker(w), i.checkedAt, i.actedAt, i.meta);
    WorkStore(y, cfg, w, i);
    BackToReady(y, Apply(y, cfg, Work(w, i)), id, m, n);
  }

  lemma RidingMark(y: System, cfg: Config, cap: Id -> nat, w: nat, i: Input, id: Id, m: int, n: int)
    requires Sound(y, cap) && cfg.Valid() && Enabled(y, Work(w, i), cap) && Riding(y, id, m, n)
    requires y.Worker(w).l.id == id && y.store.data.Holds(id, y.Worker(w).l.token)
    requires i.RouteAbsent? || i.Crash?
    ensures Riding(Apply(y, cfg, Work(w, i)), id, m, n)
  {
    var p := y.Worker(w);
    assert w in y.workers && Patient(p, y.store.data, id, m);
    MarkedAgain(y.store, cfg, p, i, id, m);
    var z := Apply(y, cfg, Work(w, i));
    AbsMatches(y.store.data, id);
    AbsMatches(z.store.data, id);
    hide Domains, Abs, Advance, Perform, Plan, Record;
    forall v | v in z.workers ensures Patient(z.workers[v], z.store.data, id, m) {
      assert v in y.workers && Patient(y.workers[v], y.store.data, id, m);
    }
  }

  lemma MarkedAgain(s: Store, cfg: Config, p: Phase, i: Input, id: Id, m: int)
    requires Domains(s.data) && Fits(p, i) && (i.RouteAbsent? || i.Crash?) && p.l.id == id
    requires id in s.data.missing && s.data.missing[id] == m
    ensures var o := Advance(s, cfg, p, i);
            && Domains(o.store.data) && Abs(o.store.data) == Abs(s.data)
            && id in o.store.data.missing && o.store.data.missing[id] == m
            && o.phase == if i.Crash? then Idle else Missed(p.l, m)
  {
    hide Abs, Domains;
    if i.RouteAbsent? {
      MarkerScriptsRefine(s, cfg, id, p.l.token, i.now);
    }
  }

  lemma RidingStep(y: System, cfg: Config, cap: Id -> nat, ev: Event, id: Id, m: int, n: int)
    requires Sound(y, cap) && cfg.Valid() && Enabled(y, ev, cap) && Riding(y, id, m, n) && StillAbsent(y, ev, id, m)
    ensures Riding(Apply(y, cfg, ev), id, m, n)
  {
    hide Sound, Riding, Apply, StillAbsent;
    match ev
    case Enqueue(_, _, _) => RidingEnqueue(y, cfg, cap, ev, id, m, n);
    case Replay(_, _) => RidingEnqueue(y, cfg, cap, ev, id, m, n);
    case Reclaim(_, _, _) => RidingReclaim(y, cfg, cap, ev, id, m, n);
    case Prune(_) => RidingPrune(y, cfg, cap, ev, id, m, n);
    case Elapse(_) => RidingElapse(y, cfg, cap, ev, id, m, n);
    case Claim(_, _, _, _, _) => RidingClaim(y, cfg, cap, ev, id, m, n);
    case Work(w, i) =>
      if y.Worker(w).l.id == id && y.store.data.Holds(id, y.Worker(w).l.token) {
        RidingOwn(y, cfg, cap, w, i, id, m, n);
      } else {
        RidingOther(y, cfg, cap, w, i, id, m, n);
      }
  }

  /** Route absence is neutral: through any number of claims, misses, defers, crashes and reclaims, by
      any workers, the attempt counter and the first-miss stamp stay what they were. */
  lemma {:induction false} AbsenceIsNeutral(y: System, cfg: Config, cap: Id -> nat, evs: seq<Event>, id: Id, m: int, n: int)
    requires Sound(y, cap) && cfg.Valid() && Legal(y, cfg, cap, evs) && Riding(y, id, m, n)
    requires AbsentThroughout(y, cfg, cap, evs, id, m)
    ensures Riding(Exec(y, cfg, cap, evs), id, m, n)
    decreases |evs|
  {
    if evs != [] {
      hide Sound, Riding, Enabled, Apply, StillAbsent;
      StepKeepsSound(y, cfg, cap, evs[0]);
      RidingStep(y, cfg, cap, evs[0], id, m, n);
      AbsenceIsNeutral(Apply(y, cfg, evs[0]), cfg, cap, evs[1..], id, m, n);
    }
  }

  /** The first miss of a fresh lease starts the wait; a later one joins it. */
  lemma MissStartsRiding(y: System, cfg: Config, cap: Id -> nat, w: nat, now: int)
    requires Sound(y, cap) && cfg.Valid() && y.Worker(w).Holding?
    requires y.store.data.Holds(y.Worker(w).l.id, y.Worker(w).l.token)
    ensures var l, d := y.Worker(w).l, y.store.data;
            var m := if l.id in d.missing then d.missing[l.id] else now;
            var z := Apply(y, cfg, Work(w, RouteAbsent(now)));
            Riding(z, l.id, m, l.attempt - 1) && z.Worker(w) == Missed(l, m)
  {
    var p, s := y.Worker(w), y.store;
    var id := p.l.id;
    assert w in y.workers && GoodWorker(p, y.h, cap);
    CurrentLease(s, y.h, p, cap);
    MarkEffect(s, cfg, p, now);
    var z := Apply(y, cfg, Work(w, RouteAbsent(now)));
    var m := if id in s.data.missing then s.data.missing[id] else now;
    hide Domains, Abs, Advance, GoodEntries, GoodEntry, Record;
    forall v | v in z.workers ensures Patient(z.workers[v], z.store.data, id, m) {
      if v != w {
        assert GoodWorker(y.workers[v], y.h, cap) && Apart(p, y.workers[v]);
      }
    }
  }

  lemma MarkEffect(s: Store, cfg: Config, p: Phase, now: int)
    requires Domains(s.data) && p.Holding?
    ensures var id := p.l.id;
            var m := if id in s.data.missing then s.data.missing[id] else now;
            var o := Advance(s, cfg, p, RouteAbsent(now));
            && Domains(o.store.data) && Abs(o.store.data) == Abs(s.data) && o.store.data.tokens == s.data.tokens
            && id in o.store.data.missing && o.store.data.missing[id] == m && o.phase == Missed(p.l, m)
  {
    MarkerScriptsRefine(s, cfg, p.l.id, p.l.token, now);
    hide Domains, Abs, Exists, In;
  }

  /** The decision after a miss: inside the window the event goes back unharmed; from the window's end
      on it is dead-lettered, at the first decision, and its marker is gone. */
  lemma DecisionAtWindow(y: System, cfg: Config, cap: Id -> nat, w: nat, checkedAt: int, now: int, meta: Body, id: Id, m: int, n: int)
    requires Sound(y, cap) && cfg.Valid() && Riding(y, id, m, n) && y.Worker(w).Missed?
    requires y.Worker(w).l.id == id && y.store.data.Holds(id, y.Worker(w).l.token)
    ensures var z := Apply(y, cfg, Work(w, MissDecision(checkedAt, now, meta)));
            var body := Abs(y.store.data)[id].body;
            && Domains(z.store.data)
            && if checkedAt - m < 15 * 60 * 1000 then
                 Riding(z, id, m, n) && At(Abs(z.store.data), id) == Some(Waiting(body, n, now + 5000))
               else
                 && id !in z.store.data.missing
                 && At(Abs(z.store.data), id) == if cfg.dlqRetention > 0 then Some(Dead(body, now, meta)) else None
  {
    var p, i := y.Worker(w), MissDecision(checkedAt, now, meta);
    assert w in y.workers && Patient(p, y.store.data, id, m) && GoodWorker(p, y.h, cap);
    hide Domains, Abs, Advance, Record, GoodEntries, GoodWorkers, GoodWorker;
    if RouteMissingExpired(m, checkedAt) {
      HolderKnowsAttempt(y, cap, w);
      OverdueEffect(y.store, cfg, p, checkedAt, now, meta);
    } else {
      RidingDefer(y, cfg, w, i, id, m, n);
    }
  }

  // ---------------------------------------------------------------------------- the clock's units

  const NANOS_PER_MILLI := 1_000_000

  /** Go's integer division truncates toward zero. */
  function UnixMillis(nanos: int): int {
    if nanos >= 0 then nanos / NANOS_PER_MILLI else -((-nanos) / NANOS_PER_MILLI)
  }

  /** The test as the code makes it: a nanosecond clock against a first miss kept in milliseconds. */
  predicate WindowIsOver(firstMiss: nat, now: nat) {
    now - UnixMillis(firstMiss) * NANOS_PER_MILLI >= ROUTE_MISSING_WINDOW_MS * NANOS_PER_MILLI
  }

  /** That is the comparison of truncated clocks, and ends the window early by the truncated part of the
      first miss: up to a millisecond short of 15 minutes, never late. */
  lemma WindowInNanos(firstMiss: nat, now: nat)
    ensures WindowIsOver(firstMiss, now) <==> RouteMissingExpired(UnixMillis(firstMiss), UnixMillis(now))
    ensures WindowIsOver(firstMiss, now) <==>
            now - firstMiss >= ROUTE_MISSING_WINDOW_MS * NANOS_PER_MILLI - firstMiss % NANOS_PER_MILLI
  {
    var a, b := UnixMillis(firstMiss), UnixMillis(now);
    assert firstMiss == a * NANOS_PER_MILLI + firstMiss % NANOS_PER_MILLI;
    assert now == b * NANOS_PER_MILLI + now % NANOS_PER_MILLI;
  }

  /** A first miss just before the end of its millisecond: the window ends almost a millisecond early. */
  lemma WindowEndsEarly()
    ensures var firstMiss, now := 999_999, 900_000_000_000;
            WindowIsOver(firstMiss, now) && now - firstMiss < ROUTE_MISSING_WINDOW_MS * NANOS_PER_MILLI
  {
  }

  /** No event is given up before its 15 minutes are over exactly when its first miss falls on a whole
      millisecond. */
  lemma WindowIsExactIff(firstMiss: nat)
    ensures (forall now: nat :: WindowIsOver(firstMiss, now) ==> now - firstMiss >= ROUTE_MISSING_WINDOW_MS * NANOS_PER_MILLI)
       <==> firstMiss % NANOS_PER_MILLI == 0
  {
    forall now: nat ensures WindowIsOver(firstMiss, now) <==>
        now - firstMiss >= ROUTE_MISSING_WINDOW_MS * NANOS_PER_MILLI - firstMiss % NANOS_PER_MILLI
    {
      WindowInNanos(firstMiss, now);
    }
    var last := firstMiss + ROUTE_MISSING_WINDOW_MS * NANOS_PER_MILLI - firstMiss % NANOS_PER_MILLI;
    assert WindowIsOver(firstMiss, last);
  }
}
