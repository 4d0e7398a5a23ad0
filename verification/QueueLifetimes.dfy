/** How long keys live: which script renews which group, by how much, and what outlives a tick. */
module QueueLifetimes {
  import opened Prelude
  import opened SortedSets
  import opened QueueScripts
  import opened QueueRefinement
  import opened QueueExpiry
  import opened ProcessOne
  import opened WorkerEffects
  import opened DispatchRuns
  import opened DispatchTheorems
  import opened DispatchConservation
  import opened WorkerOutcomes

  // ----------------------------------------------------------------------------------- renewals

  /** The existing keys of the group expire at this moment. */
  ghost predicate Until(s: Store, g: Group, at: int) {
    forall k :: In(k, g) ==> (Exists(s.data, k) ==> k in s.deadline) && (k in s.deadline ==> s.deadline[k] == at)
  }

  /** The other keys keep the deadlines they had. */
  ghost predicate Others(s: Store, t: Store, g: Group) {
    forall k :: !In(k, g) && k in t.deadline ==> k in s.deadline && t.deadline[k] == s.deadline[k]
  }

  ghost predicate Renewed(s: Store, t: Store, g: Group, life: int) {
    t.clock == s.clock && Until(t, g, s.clock + life) && Others(s, t, g)
  }

  lemma WithRenews(s: Store, d: Data, g: Group, ttl: int)
    ensures Renewed(s, s.With(d, g, ttl), g, ttl)
  {
    hide Exists, In;
  }

  /** Every producer's and worker's call that succeeds gives the live keys a full LiveTTL. */
  lemma LiveRenewals(s: Store, cfg: Config, id: Id, body: Body, token: Token, at: int, ids: seq<Id>)
    ensures var (t, ok) := EnqueueScript(s, cfg, id, body, at); ok ==> Renewed(s, t, LiveKeys, cfg.liveTTL)
    ensures var (t, lease) := ClaimScript(s, cfg, Some(id), at, token); lease.Some? ==> Renewed(s, t, LiveKeys, cfg.liveTTL)
    ensures var (t, ok) := RenewScript(s, cfg, id, token, at); ok ==> Renewed(s, t, LiveKeys, cfg.liveTTL)
    ensures var (t, ok) := DeferScript(s, cfg, id, token, at); ok ==> Renewed(s, t, LiveKeys, cfg.liveTTL)
    ensures var (t, ok) := ReplayScript(s, cfg, id, at); ok ==> Renewed(s, t, LiveKeys, cfg.liveTTL)
    ensures Renewed(s, ReclaimScript(s, cfg, ids, at), LiveKeys, cfg.liveTTL)
  {
    hide Renewed;
    WithRenews(s, Enqueued(s.data, id, body, at), LiveKeys, cfg.liveTTL);
    WithRenews(s, Claimed(s.data, id, at, token), LiveKeys, cfg.liveTTL);
    WithRenews(s, s.data.(leased := s.data.leased[id := at]), LiveKeys, cfg.liveTTL);
    WithRenews(s, Deferred(s.data, id, at), LiveKeys, cfg.liveTTL);
    if id in s.data.dlqPayload {
      WithRenews(s, Replayed(s.data, id, at), LiveKeys, cfg.liveTTL);
    }
    WithRenews(s, ReclaimedAll(s.data, ids, at), LiveKeys, cfg.liveTTL);
  }

  /** A requeue does too; a burial gives the dead-letter keys the full retention instead. */
  lemma NackRenewals(s: Store, cfg: Config, id: Id, token: Token, now: int, delay: int, maxAttempts: int, meta: Body)
    ensures var (t, r) := NackScript(s, cfg, id, token, now, delay, maxAttempts, meta);
            && (r.Requeued? ==> Renewed(s, t, LiveKeys, cfg.liveTTL))
            && (r.DeadLettered? && cfg.dlqRetention > 0 ==> Renewed(s, t, DeadKeys, cfg.dlqRetention))
  {
    hide Renewed;
    if s.data.Holds(id, token) {
      var d := Dropped(s.data, id);
      WithRenews(s, Requeue(d, id, now + delay), LiveKeys, cfg.liveTTL);
      if id in s.data.payload {
        WithRenews(s, Grave(d, cfg, id, s.data.payload[id], meta, now), DeadKeys, cfg.dlqRetention);
      }
    }
    hide Grave, Requeue, Dropped, Store.With;
  }

  /** A miss, first or later, gives the markers a full LiveTTL. */
  lemma MissRenewal(s: Store, cfg: Config, id: Id, now: int)
    ensures Renewed(s, RouteMissingScript(s, cfg, id, now).0, MarkerKey, cfg.liveTTL)
  {
    hide Renewed;
    var stamp := RouteMissingScript(s, cfg, id, now).1;
    WithRenews(s, s.data.(missing := s.data.missing[id := stamp]), MarkerKey, cfg.liveTTL);
  }

  // ------------------------------------------------------------------------------- over runs

  lemma RefreshKeepsNotBefore(s: Store, t: Store, cfg: Config, g: Group, at: int)
    requires Refreshed(s, t, cfg) && NotBefore(s, g, at) && g != NoKeys && at <= s.clock + Life(cfg, g)
    ensures NotBefore(t, g, at) && t.clock == s.clock
  {
  }

  /** No step moves a deadline closer. */
  lemma StepKeepsNotBefore(y: System, cfg: Config, cap: Id -> nat, ev: Event, g: Group, at: int)
    requires Sound(y, cap) && cfg.Valid() && Enabled(y, ev, cap) && g != NoKeys
    requires NotBefore(y.store, g, at) && at <= y.store.clock + Life(cfg, g)
    ensures var z := Apply(y, cfg, ev);
            y.store.clock <= z.store.clock && NotBefore(z.store, g, at) && at <= z.store.clock + Life(cfg, g)
  {
    hide Sound, Apply, NotBefore, Refreshed, Inv;
    if ev.Elapse? {
      ElapsedStore(y, cfg, ev.clock);
      TickKeepsNotBefore(y.store, g, at, ev.clock);
    } else {
      StepRefreshes(y, cfg, cap, ev);
      RefreshKeepsNotBefore(y.store, Apply(y, cfg, ev).store, cfg, g, at);
    }
  }

  lemma {:induction false} RunKeepsNotBefore(y: System, cfg: Config, cap: Id -> nat, evs: seq<Event>, g: Group, at: int)
    requires Sound(y, cap) && cfg.Valid() && Legal(y, cfg, cap, evs) && g != NoKeys
    requires NotBefore(y.store, g, at) && at <= y.store.clock + Life(cfg, g)
    ensures NotBefore(Exec(y, cfg, cap, evs).store, g, at) && Sound(Exec(y, cfg, cap, evs), cap)
    decreases |evs|
  {
    if evs != [] {
      hide Sound, Enabled, Apply, NotBefore;
      StepKeepsSound(y, cfg, cap, evs[0]);
      StepKeepsNotBefore(y, cfg, cap, evs[0], g, at);
      RunKeepsNotBefore(Apply(y, cfg, evs[0]), cfg, cap, evs[1..], g, at);
    }
  }

  /** What a tick before that moment leaves of the group: everything. */
  lemma TickSpares(s: Store, g: Group, at: int, clock: int)
    requires Inv(s) && NotBefore(s, g, at) && clock < at
    ensures var f := Tick(s, clock).data;
            && (g == LiveKeys ==> LiveKept(s.data, f))
            && (g == DeadKeys ==> DeadKept(s.data, f))
            && (g == MarkerKey ==> f.missing == s.data.missing)
  {
    assert OneDeadline(s, g);
  }

  /** Whatever gave the keys of a group their full life: in every continuation, a tick short of it leaves
      all of them alone. */
  lemma RenewedOutlives(y: System, s: Store, cfg: Config, cap: Id -> nat, evs: seq<Event>, g: Group, clock: int)
    requires Sound(y, cap) && cfg.Valid() && Legal(y, cfg, cap, evs) && g != NoKeys
    requires Renewed(s, y.store, g, Life(cfg, g)) && clock < s.clock + Life(cfg, g)
    ensures var d := Exec(y, cfg, cap, evs).store.data;
            var f := Tick(Exec(y, cfg, cap, evs).store, clock).data;
            && (g == LiveKeys ==> LiveKept(d, f))
            && (g == DeadKeys ==> DeadKept(d, f))
            && (g == MarkerKey ==> f.missing == d.missing)
  {
    var at := s.clock + Life(cfg, g);
    RunKeepsNotBefore(y, cfg, cap, evs, g, at);
    hide Sound, Legal, Exec, NotBefore, Tick, Renewed, Inv, LiveKept, DeadKept;
    SoundIsInv(Exec(y, cfg, cap, evs), cap);
    TickSpares(Exec(y, cfg, cap, evs).store, g, at, clock);
  }

  lemma BurialRenews(s: Store, cfg: Config, l: Lease, a: Action)
    requires Domains(s.data) && Owns(Abs(s.data), l.id, l.token)
    requires Domains(Perform(s, cfg, l, a).0.data)
             && Moved(cfg, Abs(s.data)[l.id], At(Abs(Perform(s, cfg, l, a).0.data), l.id), a)
    requires At(Abs(Perform(s, cfg, l, a).0.data), l.id).Some? && At(Abs(Perform(s, cfg, l, a).0.data), l.id).value.Dead?
    ensures cfg.dlqRetention > 0 && Renewed(s, Perform(s, cfg, l, a).0, DeadKeys, cfg.dlqRetention)
  {
    hide Domains, Abs, NackScript, Renewed, At;
    assert a.Reject? && !BadPolicy(a);
    NackRefines(s, cfg, l.id, l.token, a.now, a.delay, a.maxAttempts, a.meta);
    NackRenewals(s, cfg, l.id, l.token, a.now, a.delay, a.maxAttempts, a.meta);
  }

  /** A dead-lettered event stays for its full retention: after the burial, in every continuation, a tick
      short of one retention from the burial removes nothing dead. */
  lemma BurialOutlives(y: System, cfg: Config, cap: Id -> nat, w: nat, i: Input, evs: seq<Event>, clock: int)
    requires Sound(y, cap) && cfg.Valid() && Enabled(y, Work(w, i), cap)
    requires y.store.data.Holds(y.Worker(w).l.id, y.Worker(w).l.token)
    requires var z := Apply(y, cfg, Work(w, i));
             && Domains(z.store.data) && At(Abs(z.store.data), y.Worker(w).l.id).Some?
             && At(Abs(z.store.data), y.Worker(w).l.id).value.Dead? && Legal(z, cfg, cap, evs)
    requires clock < y.store.clock + cfg.dlqRetention
    ensures var x := Exec(Apply(y, cfg, Work(w, i)), cfg, cap, evs).store;
            DeadKept(x.data, Tick(x, clock).data)
  {
    var z := Apply(y, cfg, Work(w, i));
    HolderFacts(y, cfg, cap, w, i);
    StepKeepsSound(y, cfg, cap, Work(w, i));
    hide Sound, Apply, Legal, Exec, Domains, Abs, Perform, Plan, Moved, At, Renewed, DeadKept, Tick, Enabled, GoodWorker;
    EnabledFits(y, w, i, cap);
    BurialRenews(y.store, cfg, y.Worker(w).l, Plan(y.Worker(w), i));
    RenewedOutlives(z, y.store, cfg, cap, evs, DeadKeys, clock);
  }

  lemma MissRenews(y: System, cfg: Config, w: nat, now: int)
    requires y.Worker(w).Holding?
    ensures Renewed(y.store, Apply(y, cfg, Work(w, RouteAbsent(now))).store, MarkerKey, cfg.liveTTL)
  {
    MissRenewal(y.store, cfg, y.Worker(w).l.id, now);
    AdvanceStore(y.store, cfg, y.Worker(w), RouteAbsent(now));
    hide Renewed, RouteMissingScript, Advance, Record;
  }

  /** A marker lives on for a LiveTTL after every miss, first or later, of any event. */
  lemma MissOutlives(y: System, cfg: Config, cap: Id -> nat, w: nat, now: int, evs: seq<Event>, clock: int)
    requires Sound(y, cap) && cfg.Valid() && y.Worker(w).Holding?
    requires Legal(Apply(y, cfg, Work(w, RouteAbsent(now))), cfg, cap, evs) && clock < y.store.clock + cfg.liveTTL
    ensures var x := Exec(Apply(y, cfg, Work(w, RouteAbsent(now))), cfg, cap, evs).store;
            Tick(x, clock).data.missing == x.data.missing
  {
    StepKeepsSound(y, cfg, cap, Work(w, RouteAbsent(now)));
    MissRenews(y, cfg, w, now);
    hide Sound, Apply, Legal, Exec, Renewed, Tick;
    RenewedOutlives(Apply(y, cfg, Work(w, RouteAbsent(now))), y.store, cfg, cap, evs, MarkerKey, clock);
  }

  lemma BeatRenews(y: System, cfg: Config, w: nat, now: int, duration: int)
    requires Domains(y.store.data) && y.Worker(w).Finalizing? && !y.Worker(w).lost && duration > 0
    requires y.store.data.Holds(y.Worker(w).l.id, y.Worker(w).l.token)
    ensures Renewed(y.store, Apply(y, cfg, Work(w, Heartbeat(now, duration))).store, LiveKeys, cfg.liveTTL)
  {
    var l := y.Worker(w).l;
    ExtendRenews(y.store, cfg, l.id, l.token, now + duration);
    AdvanceStore(y.store, cfg, y.Worker(w), Heartbeat(now, duration));
    hide Renewed, Advance, Record, RenewScript, Domains;
  }

  lemma ExtendRenews(s: Store, cfg: Config, id: Id, token: Token, until: int)
    requires Domains(s.data) && s.data.Holds(id, token)
    ensures Renewed(s, RenewScript(s, cfg, id, token, until).0, LiveKeys, cfg.liveTTL)
  {
    assert Consistent(s.data, id);
    hide Renewed, Domains, Store.With;
    WithRenews(s, s.data.(leased := s.data.leased[id := until]), LiveKeys, cfg.liveTTL);
  }

  /** A heartbeat keeps the live keys for another LiveTTL. */
  lemma HeartbeatOutlives(y: System, cfg: Config, cap: Id -> nat, w: nat, now: int, duration: int, evs: seq<Event>, clock: int)
    requires Sound(y, cap) && cfg.Valid() && y.Worker(w).Finalizing? && !y.Worker(w).lost && duration > 0
    requires y.store.data.Holds(y.Worker(w).l.id, y.Worker(w).l.token)
    requires Legal(Apply(y, cfg, Work(w, Heartbeat(now, duration))), cfg, cap, evs) && clock < y.store.clock + cfg.liveTTL
    ensures var x := Exec(Apply(y, cfg, Work(w, Heartbeat(now, duration))), cfg, cap, evs).store;
            LiveKept(x.data, Tick(x, clock).data)
  {
    StepKeepsSound(y, cfg, cap, Work(w, Heartbeat(now, duration)));
    SoundIsInv(y, cap);
    BeatRenews(y, cfg, w, now, duration);
    hide Sound, Apply, Legal, Exec, Renewed, Tick, LiveKept;
    RenewedOutlives(Apply(y, cfg, Work(w, Heartbeat(now, duration))), y.store, cfg, cap, evs, LiveKeys, clock);
  }
}
