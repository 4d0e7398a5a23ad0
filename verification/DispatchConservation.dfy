/** No event is created or lost: what was accepted is acked, pruned, expired or still in the queue. */
module DispatchConservation {
  import opened Prelude
  import opened SortedSets
  import opened QueueScripts
  import opened QueueRefinement
  import opened QueueExpiry
  import opened ProcessOne
  import opened WorkerEffects
  import opened DispatchRuns
  import opened DispatchTheorems

  ghost function Size(d: Data): nat {
    |d.payload| + |d.dlq|
  }

  lemma SizeWithout<K, V>(m: map<K, V>, s: set<K>)
    requires s <= m.Keys
    ensures |m - s| == |m| - |s|
  {
    assert (m - s).Keys == m.Keys - s;
    assert |m.Keys - s| == |m.Keys| - |s|;
    SizeOfKeys(m);
    SizeOfKeys(m - s);
  }

  lemma SizeWithoutOne<K, V>(m: map<K, V>, k: K)
    requires k in m
    ensures |m - {k}| == |m| - 1
  {
    SizeWithout(m, {k});
  }

  lemma SizeWith<K, V>(m: map<K, V>, k: K, v: V)
    ensures |m[k := v]| == if k in m then |m| else |m| + 1
  {
    SizeOfKeys(m);
    SizeOfKeys(m[k := v]);
    assert m[k := v].Keys == m.Keys + {k};
  }

  lemma {:induction false} ReclaimSize(d: Data, ids: seq<Id>, now: int)
    ensures var f := ReclaimedAll(d, ids, now);
            f.payload == d.payload && f.dlq == d.dlq
  {
    if ids != [] {
      ReclaimSize(d, ids[..|ids| - 1], now);
    }
  }

  lemma InterredSize(d: Data, id: Id, now: int, cutoff: int, body: Body, meta: Body)
    requires id in d.payload && id !in d.dlq
    ensures var f := Interred(d, id, now, cutoff, body, meta);
            |f.payload| == |d.payload| - 1 && |f.dlq| == |d.dlq| - |UpTo(d.dlq, cutoff)| + 1
  {
    SizeWithoutOne(d.payload, id);
    SizeWithout(d.dlq, UpTo(d.dlq, cutoff));
    SizeWith(d.dlq - UpTo(d.dlq, cutoff), id, now);
  }

  lemma RetainedSize(d: Data, retention: int)
    ensures var f := Retained(d, retention);
            |f.payload| == |d.payload| && |f.dlq| + (if retention > 0 then 0 else |d.dlq|) == |d.dlq|
  {
  }

  lemma DroppedSize(d: Data, id: Id, due: int)
    ensures Size(Dropped(d, id)) == Size(d) == Size(Requeue(Dropped(d, id), id, due))
    ensures Dropped(d, id).payload == d.payload && Dropped(d, id).dlq == d.dlq
  {
  }

  lemma BuriedSize(d: Data, cfg: Config, id: Id, now: int, body: Body, meta: Body)
    requires id in d.payload && id !in d.dlq
    ensures var cutoff := now - cfg.dlqRetention;
            Size(Grave(d, cfg, id, body, meta, now)) + |UpTo(d.dlq, cutoff)|
            + (if cfg.dlqRetention > 0 then 0 else |Interred(d, id, now, cutoff, meta, meta).dlq|) == Size(d)
  {
    var cutoff := now - cfg.dlqRetention;
    hide Interred, Retained, UpTo;
    InterredSize(d, id, now, cutoff, body, meta);
    InterredSize(d, id, now, cutoff, meta, meta);
    RetainedSize(Interred(d, id, now, cutoff, body, meta), cfg.dlqRetention);
  }

  /** The nine keys after a nack that found its lease. */
  lemma NackData(s: Store, cfg: Config, l: Lease, now: int, delay: int, maxAttempts: int, meta: Body)
    requires s.data.Holds(l.id, l.token) && l.id in s.data.payload
    ensures NackScript(s, cfg, l.id, l.token, now, delay, maxAttempts, meta).0.data
         == if s.data.Attempt(l.id) >= maxAttempts
            then Grave(Dropped(s.data, l.id), cfg, l.id, s.data.payload[l.id], meta, now)
            else Requeue(Dropped(s.data, l.id), l.id, now + delay)
  {
    hide Grave, Dropped, Requeue, Exists;
  }

  lemma NackLossIs(s: Store, cfg: Config, l: Lease, now: int, maxAttempts: int, meta: Body)
    ensures var cutoff := now - cfg.dlqRetention;
            var lost := |UpTo(s.data.dlq, cutoff)|
                        + if cfg.dlqRetention > 0 then 0 else |Interred(Dropped(s.data, l.id), l.id, now, cutoff, meta, meta).dlq|;
            NackLoss(s, cfg, l, now, maxAttempts, meta) == if s.data.Attempt(l.id) < maxAttempts then 0 else lost
  {
    hide Interred, Dropped, UpTo;
  }

  /** A nack keeps the event, and loses exactly the dead entries counted as pruned. */
  lemma NackSize(s: Store, cfg: Config, l: Lease, now: int, delay: int, maxAttempts: int, meta: Body)
    requires Domains(s.data) && cfg.Valid() && s.data.Holds(l.id, l.token)
    ensures var t := NackScript(s, cfg, l.id, l.token, now, delay, maxAttempts, meta).0;
            Size(t.data) + NackLoss(s, cfg, l, now, maxAttempts, meta) == Size(s.data)
  {
    assert Consistent(s.data, l.id);
    assert l.id in s.data.payload && l.id !in s.data.dlq;
    hide NackScript, Dropped, Grave, Requeue, Interred, UpTo, Size, NackLoss, Domains, Consistent;
    NackData(s, cfg, l, now, delay, maxAttempts, meta);
    DroppedSize(s.data, l.id, now + delay);
    NackLossIs(s, cfg, l, now, maxAttempts, meta);
    if s.data.Attempt(l.id) >= maxAttempts {
      BuriedSize(Dropped(s.data, l.id), cfg, l.id, now, s.data.payload[l.id], meta);
    }
  }

  lemma RejectSize(s: Store, cfg: Config, h: History, p: Phase, i: Input)
    requires Domains(s.data) && cfg.Valid() && Fits(p, i) && p.l.token in h.issued
    requires s.data.Holds(p.l.id, p.l.token) && Plan(p, i).Reject?
    ensures var t := Perform(s, cfg, p.l, Plan(p, i)).0;
            var k := Record(s, cfg, h, p, i);
            && k.accepted == h.accepted && k.expired == h.expired && k.acks == h.acks
            && k.pruned + Size(t.data) == h.pruned + Size(s.data)
  {
    var a := Plan(p, i);
    assert !Delivers(p, i);
    hide NackScript, NackLoss, Plan, Size, Delivers;
    if a.maxAttempts >= 1 && a.delay >= 0 {
      NackSize(s, cfg, p.l, a.now, a.delay, a.maxAttempts, a.meta);
    }
  }

  lemma FinishSize(s: Store, l: Lease)
    requires Domains(s.data)
    ensures var (t, ok) := AckScript(s, l.id, l.token);
            Size(t.data) + (if ok then 1 else 0) == Size(s.data)
  {
    assert Consistent(s.data, l.id);
    if s.data.Holds(l.id, l.token) {
      SizeWithoutOne(s.data.payload, l.id);
    }
  }

  lemma PlainAction(s: Store, cfg: Config, l: Lease, a: Action)
    requires !a.Reject? && !a.Finish?
    ensures var t := Perform(s, cfg, l, a).0;
            t.data.payload == s.data.payload && t.data.dlq == s.data.dlq
  {
    hide Exists, In;
  }

  lemma PlainRecord(s: Store, cfg: Config, h: History, p: Phase, i: Input)
    requires Fits(p, i) && ((!Plan(p, i).Reject? && !Plan(p, i).Finish?) || !s.data.Holds(p.l.id, p.l.token))
    ensures var k := Record(s, cfg, h, p, i);
            k.accepted == h.accepted && k.expired == h.expired && k.acks == h.acks && k.pruned == h.pruned
  {
    hide NackLoss;
  }

  lemma ActionSize(s: Store, cfg: Config, h: History, p: Phase, i: Input)
    requires Domains(s.data) && cfg.Valid() && Fits(p, i) && p.l.token in h.issued
    ensures var t := Perform(s, cfg, p.l, Plan(p, i)).0;
            var k := Record(s, cfg, h, p, i);
            && k.accepted == h.accepted && k.expired == h.expired
            && |k.acks| + k.pruned + Size(t.data) == |h.acks| + h.pruned + Size(s.data)
  {
    var l, a := p.l, Plan(p, i);
    if !a.Reject? && !a.Finish? {
      PlainAction(s, cfg, l, a);
      PlainRecord(s, cfg, h, p, i);
      hide Perform, Plan, Record;
    } else if !s.data.Holds(l.id, l.token) {
      StaleCallIsNoop(s, cfg, l, a);
      PlainRecord(s, cfg, h, p, i);
      hide Perform, Plan, Size, Record;
    } else if a.Reject? {
      RejectSize(s, cfg, h, p, i);
      hide Perform, Plan, Size, Record;
    } else {
      FinishSize(s, l);
      hide AckScript, Size;
    }
  }

  lemma TickSize(s: Store, clock: int)
    requires Inv(s) && s.clock <= clock
    ensures var t := Tick(s, clock);
            Size(t.data) + (if t.data.payload == map[] then |s.data.payload| else 0)
                         + (if t.data.dlq == map[] then |s.data.dlq| else 0) == Size(s.data)
  {
    LiveCoExpiry(s, clock);
    DeadCoExpiry(s, clock);
  }

  ghost predicate Balanced(y: System) {
    y.h.accepted == |y.h.acks| + y.h.pruned + y.h.expired + Size(y.store.data)
  }

  lemma ProducerSize(s: Store, cfg: Config, id: Id, body: Body, due: int)
    requires Domains(s.data)
    ensures var (t, ok) := EnqueueScript(s, cfg, id, body, due); Size(t.data) == Size(s.data) + if ok then 1 else 0
    ensures Size(ReplayScript(s, cfg, id, due).0.data) == Size(s.data)
  {
    var d := s.data;
    assert Consistent(d, id);
    SizeWith(d.payload, id, body);
    if id in d.dlqPayload {
      SizeWith(d.payload, id, d.dlqPayload[id]);
      SizeWithoutOne(d.dlq, id);
    }
  }

  lemma ClaimSize(s: Store, cfg: Config, first: Option<Id>, until: int, token: Token)
    requires Domains(s.data) && (first.Some? ==> first.value in s.data.ready)
    ensures Size(ClaimScript(s, cfg, first, until, token).0.data) == Size(s.data)
  {
    if first.Some? {
      assert Consistent(s.data, first.value);
    }
  }

  lemma StepBalanced(y: System, cfg: Config, cap: Id -> nat, ev: Event)
    requires Sound(y, cap) && cfg.Valid() && Enabled(y, ev, cap) && Balanced(y)
    ensures Balanced(Apply(y, cfg, ev))
  {
    hide Sound, EnqueueScript, ReplayScript, ClaimScript, Tick, Size;
    SoundParts(y, cap);
    match ev
    case Enqueue(id, body, due) => ProducerSize(y.store, cfg, id, body, due);
    case Replay(id, due) => ProducerSize(y.store, cfg, id, Body(""), due);
    case Reclaim(_, _, _) => PassBalanced(y, cfg, ev);
    case Prune(_) => PassBalanced(y, cfg, ev);
    case Elapse(clock) => TickSize(y.store, clock);
    case Claim(_, _, first, until, token) => ClaimSize(y.store, cfg, first, until, token);
    case Work(_, _) => WorkBalanced(y, cfg, cap, ev);
  }

  lemma PassBalanced(y: System, cfg: Config, ev: Event)
    requires Domains(y.store.data) && Balanced(y) && (ev.Reclaim? || ev.Prune?)
    ensures Balanced(Apply(y, cfg, ev))
  {
    var d := y.store.data;
    if ev.Reclaim? {
      ReclaimSize(d, ev.ids, ev.now);
    } else {
      SizeWithout(d.dlq, UpTo(d.dlq, ev.cutoff));
    }
  }

  lemma WorkBalanced(y: System, cfg: Config, cap: Id -> nat, ev: Event)
    requires Sound(y, cap) && cfg.Valid() && Enabled(y, ev, cap) && Balanced(y) && ev.Work?
    ensures Balanced(Apply(y, cfg, ev))
  {
    var p := y.Worker(ev.w);
    assert ev.w in y.workers && GoodWorker(p, y.h, cap);
    ActionSize(y.store, cfg, y.h, p, ev.input);
    AdvanceStore(y.store, cfg, p, ev.input);
    hide Sound, Perform, Plan, Record, Advance, Size;
  }

  lemma {:induction false} RunBalanced(y: System, cfg: Config, cap: Id -> nat, evs: seq<Event>)
    requires Sound(y, cap) && cfg.Valid() && Legal(y, cfg, cap, evs) && Balanced(y)
    ensures Balanced(Exec(y, cfg, cap, evs))
    decreases |evs|
  {
    if evs != [] {
      hide Sound, Enabled, Apply, Balanced;
      StepKeepsSound(y, cfg, cap, evs[0]);
      StepBalanced(y, cfg, cap, evs[0]);
      RunBalanced(Apply(y, cfg, evs[0]), cfg, cap, evs[1..]);
    }
  }

  /** Accepted enqueues = acks + prunes + expiries + ready + leased + dead, after every run. */
  lemma Conservation(cfg: Config, cap: Id -> nat, evs: seq<Event>)
    requires cfg.Valid() && Legal(START, cfg, cap, evs)
    ensures var y := Exec(START, cfg, cap, evs);
            y.h.accepted == |y.h.acks| + y.h.pruned + y.h.expired
                            + |y.store.data.ready| + |y.store.data.leased| + |y.store.data.dlq|
  {
    StartIsSound(cap);
    RunKeepsSound(START, cfg, cap, evs);
    RunBalanced(START, cfg, cap, evs);
    var d := Exec(START, cfg, cap, evs).store.data;
    hide Legal, Exec;
    LiveSize(d);
  }

  lemma SplitSize<K, U, V, W>(m: map<K, U>, a: map<K, V>, b: map<K, W>)
    requires forall k :: (k in m <==> k in a || k in b) && !(k in a && k in b)
    ensures |m| == |a| + |b|
  {
    assert m.Keys == a.Keys + b.Keys && a.Keys !! b.Keys;
    DisjointSize(a.Keys, b.Keys);
    SizeOfKeys(m);
    SizeOfKeys(a);
    SizeOfKeys(b);
  }

  lemma LiveSize(d: Data)
    requires Domains(d)
    ensures |d.payload| == |d.ready| + |d.leased|
  {
    forall id ensures (id in d.payload <==> id in d.ready || id in d.leased) && !(id in d.ready && id in d.leased) {
      assert Consistent(d, id);
    }
    hide Domains;
    SplitSize(d.payload, d.ready, d.leased);
  }

  // ------------------------------------------------------------------------------ no event expires

  /** A server clock that never gets a LiveTTL past the last reclaim pass. */
  ghost predicate Timely(y: System, cfg: Config, cap: Id -> nat, last: int, evs: seq<Event>)
    requires Legal(y, cfg, cap, evs)
    decreases |evs|
  {
    evs == [] || (
      && (evs[0].Elapse? ==> evs[0].clock < last + cfg.liveTTL)
      && Timely(Apply(y, cfg, evs[0]), cfg, cap, if evs[0].Reclaim? then y.store.clock else last, evs[1..]))
  }

  /** Live events removed by expiry over a run. */
  ghost function LiveExpired(y: System, cfg: Config, cap: Id -> nat, evs: seq<Event>): nat
    requires Legal(y, cfg, cap, evs)
    decreases |evs|
  {
    if evs == [] then 0
    else
      var z := Apply(y, cfg, evs[0]);
      (if evs[0].Elapse? && z.store.data.payload != y.store.data.payload then |y.store.data.payload| else 0)
      + LiveExpired(z, cfg, cap, evs[1..])
  }

  lemma ReclaimRenewsAll(s: Store, cfg: Config, ids: seq<Id>, now: int)
    ensures NotBefore(ReclaimScript(s, cfg, ids, now), LiveKeys, s.clock + cfg.liveTTL)
    ensures ReclaimScript(s, cfg, ids, now).clock == s.clock
  {
  }

  lemma TimelyStep(y: System, cfg: Config, cap: Id -> nat, last: int, ev: Event)
    requires Sound(y, cap) && cfg.Valid() && Enabled(y, ev, cap)
    requires last <= y.store.clock && NotBefore(y.store, LiveKeys, last + cfg.liveTTL)
    requires ev.Elapse? ==> ev.clock < last + cfg.liveTTL
    ensures var z := Apply(y, cfg, ev);
            var next := if ev.Reclaim? then y.store.clock else last;
            && next <= z.store.clock && NotBefore(z.store, LiveKeys, next + cfg.liveTTL)
            && (ev.Elapse? ==> z.store.data.payload == y.store.data.payload)
  {
    hide Sound, Apply;
    if ev.Elapse? {
      SoundIsInv(y, cap);
      ElapsedStore(y, cfg, ev.clock);
      TickLasts(y.store, ev.clock, last + cfg.liveTTL);
    } else {
      StepRefreshes(y, cfg, cap, ev);
      if ev.Reclaim? {
        ReclaimRenewsAll(y.store, cfg, ev.ids, ev.now);
        ReclaimedStore(y, cfg, ev);
      }
    }
  }

  lemma SoundIsInv(y: System, cap: Id -> nat)
    requires Sound(y, cap)
    ensures Inv(y.store)
  {
  }

  lemma ElapsedStore(y: System, cfg: Config, clock: int)
    ensures Apply(y, cfg, Elapse(clock)).store == Tick(y.store, clock)
  {
    hide Tick;
  }

  lemma ReclaimedStore(y: System, cfg: Config, ev: Event)
    requires ev.Reclaim?
    ensures Apply(y, cfg, ev).store == ReclaimScript(y.store, cfg, ev.ids, ev.now)
  {
    hide ReclaimScript;
  }

  /** Every step but the passing of time leaves each deadline as it was, or at its key's full life. */
  lemma StepRefreshes(y: System, cfg: Config, cap: Id -> nat, ev: Event)
    requires Sound(y, cap) && cfg.Valid() && Enabled(y, ev, cap) && !ev.Elapse?
    ensures Kept(y.store, Apply(y, cfg, ev).store, cfg)
  {
    var s := y.store;
    hide Kept;
    match ev
    case Enqueue(id, body, due) =>
      EnqueueKeepsInv(s, cfg, id, body, due);
      hide EnqueueScript;
    case Replay(id, due) =>
      ReplayKeepsInv(s, cfg, id, due);
      hide ReplayScript;
    case Reclaim(ids, now, _) =>
      ReclaimKeepsInv(s, cfg, ids, now);
      hide ReclaimScript;
    case Prune(cutoff) =>
      PruneKeepsInv(s, cfg, cutoff);
      hide PruneScript;
    case Claim(_, _, first, until, token) =>
      ClaimKeepsInv(s, cfg, first, until, token);
      hide ClaimScript;
    case Work(w, input) =>
      var p := y.Worker(w);
      PerformKeeps(s, cfg, p.l, Plan(p, input));
      AdvanceStore(s, cfg, p, input);
      hide Perform, Plan, Advance, Record;
  }

  lemma TickLasts(s: Store, clock: int, until: int)
    requires Inv(s) && s.clock <= clock < until && NotBefore(s, LiveKeys, until)
    ensures var t := Tick(s, clock);
            t.data.payload == s.data.payload && NotBefore(t, LiveKeys, until) && t.clock == clock
  {
    TickKeepsNotBefore(s, LiveKeys, until, clock);
    ExpiredKey(s, clock, Payload);
    LiveCoExpiry(s, clock);
    assert OneDeadline(s, LiveKeys) && In(Payload, LiveKeys);
    hide Tick;
    if s.data.payload != map[] {
      assert Exists(s.data, Payload) && Payload in s.deadline;
      assert Outlives(s, LiveKeys, clock);
    }
  }

  lemma {:induction false} NoEventExpires(y: System, cfg: Config, cap: Id -> nat, last: int, evs: seq<Event>)
    requires Sound(y, cap) && cfg.Valid() && Legal(y, cfg, cap, evs) && Timely(y, cfg, cap, last, evs)
    requires last <= y.store.clock && NotBefore(y.store, LiveKeys, last + cfg.liveTTL)
    ensures LiveExpired(y, cfg, cap, evs) == 0
    decreases |evs|
  {
    if evs != [] {
      hide Sound, Enabled, Apply, NotBefore;
      StepKeepsSound(y, cfg, cap, evs[0]);
      TimelyStep(y, cfg, cap, last, evs[0]);
      NoEventExpires(Apply(y, cfg, evs[0]), cfg, cap, if evs[0].Reclaim? then y.store.clock else last, evs[1..]);
    }
  }

  /** With a reclaim pass at least once per LiveTTL of server time, no live event ever expires. */
  lemma ReclaimKeepsEventsAlive(cfg: Config, cap: Id -> nat, evs: seq<Event>)
    requires cfg.Valid() && Legal(START, cfg, cap, evs) && Timely(START, cfg, cap, 0, evs)
    ensures LiveExpired(START, cfg, cap, evs) == 0
  {
    StartIsSound(cap);
    NoEventExpires(START, cfg, cap, 0, evs);
  }
}
