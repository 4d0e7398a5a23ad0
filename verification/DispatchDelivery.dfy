/** How often the callback is called. Runs here are those in which no first-miss stamp lands on an event
    that is out for delivery under its current attempt; StaleMark shows what the others can do. */
module DispatchDelivery {
  import opened Prelude
  import opened SortedSets
  import opened QueueScripts
  import opened QueueRefinement
  import opened QueueExpiry
  import opened ProcessOne
  import opened WorkerEffects
  import opened DispatchRuns
  import opened DispatchTheorems

  /** Past the marker, within budget, and not yet at its capacity check. */
  predicate AboutToCall(p: Phase) {
    p.Cleared? && p.l.attempt <= p.route.maxAttempts
  }

  /** The grant a worker is about to call with. */
  predicate Pending(y: System, w: nat, g: Grant) {
    && w in y.workers && AboutToCall(y.workers[w])
    && y.workers[w].l.token in y.h.issued && y.h.issued[y.workers[w].l.token] == g
  }

  /** Grants called with, or about to be. */
  ghost function Outs(y: System): set<Grant> {
    (set g | g in y.h.calls)
    + (set w | w in y.workers && AboutToCall(y.workers[w]) && y.workers[w].l.token in y.h.issued ::
         y.h.issued[y.workers[w].l.token])
  }

  lemma OutsAre(y: System, g: Grant)
    ensures g in Outs(y) <==> g in y.h.calls || exists w :: Pending(y, w, g)
  {
    if g in Outs(y) && g !in y.h.calls {
      var w :| w in y.workers && AboutToCall(y.workers[w]) && y.workers[w].l.token in y.h.issued
               && y.h.issued[y.workers[w].l.token] == g;
      assert Pending(y, w, g);
    }
  }

  /** The event's current lease has been, or is about to be, called with. */
  ghost predicate Exposed(y: System, id: Id) {
    var d := y.store.data;
    id in d.tokens && d.tokens[id] in y.h.issued && y.h.issued[d.tokens[id]] in Outs(y)
  }

  /** The first-miss stamp is the one write no token fences. */
  ghost predicate Careful(y: System, ev: Event) {
    ev.Work? && Fits(y.Worker(ev.w), ev.input) && ev.input.RouteAbsent? ==> !Exposed(y, y.Worker(ev.w).l.id)
  }

  // ------------------------------------------------------------------------------- the invariant

  ghost predicate UpTo(h: History, outs: set<Grant>, id: Id, n: int) {
    id in h.epoch ==> forall g :: g in outs && g.id == id && g.epoch == h.epoch[id] ==> g.attempt <= n
  }

  ghost predicate EntrySafe(en: Option<Entry>, marked: bool, h: History, outs: set<Grant>, id: Id) {
    match en
    case Some(Waiting(_, attempt, _)) => UpTo(h, outs, id, attempt)
    case Some(InFlight(_, attempt, _, token)) =>
      && UpTo(h, outs, id, attempt)
      && (id in h.epoch && Grant(id, h.epoch[id], attempt) in outs ==> token in h.cleared && !marked)
    case _ => true
  }

  ghost predicate WorkerSafe(p: Phase, h: History) {
    && (p.Holding? || p.Missed? ==> p.l.token !in h.cleared)
    && (AboutToCall(p) && p.l.token in h.issued ==> h.issued[p.l.token] !in h.calls)
  }

  ghost predicate GrantSafe(g: Grant, h: History, cap: Id -> nat) {
    g.id in h.epoch && g.epoch <= h.epoch[g.id] && 1 <= g.attempt <= cap(g.id)
  }

  ghost predicate Distinct(calls: seq<Grant>) {
    forall i, j :: 0 <= i < j < |calls| ==> calls[i] != calls[j]
  }

  ghost predicate WorkersSafe(y: System) {
    && (forall w :: w in y.workers ==> WorkerSafe(y.workers[w], y.h))
    && (forall v, w, g :: Pending(y, v, g) && Pending(y, w, g) ==> v == w)
  }

  ghost predicate EntriesSafe(y: System) {
    && Domains(y.store.data)
    && forall id :: EntrySafe(At(Abs(y.store.data), id), id in y.store.data.missing, y.h, Outs(y), id)
  }

  /** No grant is called with twice, nor can be from here. */
  ghost predicate Unrepeated(y: System, cap: Id -> nat) {
    && EntriesSafe(y) && WorkersSafe(y) && Distinct(y.h.calls)
    && (forall g :: g in Outs(y) ==> GrantSafe(g, y.h, cap))
  }

  // ---------------------------------------------------------------------------- entries, one by one

  /** Fewer grants out, fewer markers, more leases cleared. */
  lemma EntryKeeps(en: Option<Entry>, marked: bool, still: bool, h: History, k: History,
                   outs: set<Grant>, less: set<Grant>, id: Id)
    requires EntrySafe(en, marked, h, outs, id) && (still ==> marked)
    requires forall g :: g in less && g.id == id ==> g in outs
    requires (id in k.epoch ==> id in h.epoch && h.epoch[id] == k.epoch[id]) && h.cleared <= k.cleared
    ensures EntrySafe(en, still, k, less, id) && EntrySafe(None, still, k, less, id)
  {
  }

  /** A fresh enqueue or replay starts a new epoch, of which nothing is out. */
  lemma EntryFresh(h: History, k: History, outs: set<Grant>, id: Id, body: Body, due: int, marked: bool)
    requires k.epoch == h.epoch[id := if id in h.epoch then h.epoch[id] + 1 else 0]
    requires forall g :: g in outs ==> g.id in h.epoch && g.epoch <= h.epoch[g.id]
    ensures EntrySafe(Some(Waiting(body, 0, due)), marked, k, outs, id)
  {
  }

  lemma EntryClaimed(body: Body, n: int, due: int, until: int, marked: bool, h: History, outs: set<Grant>, id: Id, token: Token)
    requires EntrySafe(Some(Waiting(body, n, due)), marked, h, outs, id)
    ensures EntrySafe(Some(InFlight(body, n + 1, until, token)), marked, h, outs, id)
  {
  }

  lemma EntryReclaimed(en: Entry, marked: bool, h: History, outs: set<Grant>, id: Id, now: int)
    requires en.InFlight? && EntrySafe(Some(en), marked, h, outs, id)
    ensures EntrySafe(Some(Waiting(en.body, Refund(en.attempt, marked), now)), marked, h, outs, id)
  {
    if marked && id in h.epoch {
      forall g | g in outs && g.id == id && g.epoch == h.epoch[id] ensures g.attempt <= en.attempt - 1 {
        assert g == Grant(id, h.epoch[id], g.attempt);
      }
    }
  }

  // ------------------------------------------------------------------------------ producer steps

  /** Steps that leave workers, grants and calls alone. */
  lemma Untouched(y: System, z: System)
    requires z.workers == y.workers && z.h.calls == y.h.calls && z.h.issued == y.h.issued && z.h.cleared == y.h.cleared
    ensures Outs(z) == Outs(y) && (WorkersSafe(y) ==> WorkersSafe(z))
  {
    forall v, g ensures Pending(z, v, g) <==> Pending(y, v, g) {
    }
    if WorkersSafe(y) {
      forall w | w in z.workers ensures WorkerSafe(z.workers[w], z.h) {
        assert WorkerSafe(y.workers[w], y.h);
      }
    }
  }

  lemma GrantsSafe(y: System, z: System, cap: Id -> nat)
    requires (forall g :: g in Outs(y) ==> GrantSafe(g, y.h, cap)) && Outs(z) == Outs(y)
    requires forall id :: id in y.h.epoch ==> id in z.h.epoch && y.h.epoch[id] <= z.h.epoch[id]
    ensures forall g :: g in Outs(z) ==> GrantSafe(g, z.h, cap)
  {
    hide Outs;
  }

  lemma ProducerKeeps(y: System, cfg: Config, cap: Id -> nat, ev: Event)
    requires Unrepeated(y, cap) && (ev.Enqueue? || ev.Replay?)
    ensures Unrepeated(Apply(y, cfg, ev), cap)
  {
    var s, z := y.store, Apply(y, cfg, ev);
    Untouched(y, z);
    GrantsSafe(y, z, cap);
    EnqueueRefines(s, cfg, ev.id, if ev.Enqueue? then ev.body else Body(""), ev.due);
    ReplayRefines(s, cfg, ev.id, ev.due);
    forall id ensures EntrySafe(At(Abs(z.store.data), id), id in z.store.data.missing, z.h, Outs(z), id) {
      assert EntrySafe(At(Abs(s.data), id), id in s.data.missing, y.h, Outs(y), id);
      BornEntry(y, cfg, cap, ev, id);
    }
    hide Abs, Domains, EnqueueScript, ReplayScript, Outs, WorkersSafe, Distinct;
  }

  /** An accepted enqueue or replay restarts its own entry at attempt 0; everything else stays. */
  lemma EnqueueEffect(s: Store, cfg: Config, id: Id, body: Body, due: int, x: Id)
    requires Domains(s.data)
    ensures var (t, ok) := EnqueueScript(s, cfg, id, body, due);
            && Domains(t.data) && (x in t.data.missing <==> x in s.data.missing)
            && At(Abs(t.data), x) == if ok && x == id then Some(Waiting(body, 0, due)) else At(Abs(s.data), x)
  {
    hide Abs, Domains, EnqueueScript;
    EnqueueRefines(s, cfg, id, body, due);
  }

  lemma ReplayEffect(s: Store, cfg: Config, id: Id, due: int, x: Id)
    requires Domains(s.data)
    ensures var (t, ok) := ReplayScript(s, cfg, id, due);
            && Domains(t.data) && (x in t.data.missing ==> x in s.data.missing)
            && (if ok && x == id then exists body :: At(Abs(t.data), x) == Some(Waiting(body, 0, due))
                else At(Abs(t.data), x) == At(Abs(s.data), x))
  {
    hide Abs, Domains, ReplayScript;
    ReplayRefines(s, cfg, id, due);
    if ReplayScript(s, cfg, id, due).1 && x == id {
      assert At(Abs(ReplayScript(s, cfg, id, due).0.data), x) == Some(Waiting(Abs(s.data)[id].body, 0, due));
    }
  }

  lemma UnrepeatedAt(y: System, cap: Id -> nat, id: Id)
    requires Unrepeated(y, cap)
    ensures Domains(y.store.data) && EntrySafe(At(Abs(y.store.data), id), id in y.store.data.missing, y.h, Outs(y), id)
    ensures forall g :: g in Outs(y) ==> g.id in y.h.epoch && g.epoch <= y.h.epoch[g.id]
  {
    forall g | g in Outs(y) ensures g.id in y.h.epoch && g.epoch <= y.h.epoch[g.id] {
      assert GrantSafe(g, y.h, cap);
    }
  }

  lemma SameOuts(y: System, cfg: Config, ev: Event)
    requires ev.Enqueue? || ev.Replay?
    ensures Outs(Apply(y, cfg, ev)) == Outs(y)
  {
    Untouched(y, Apply(y, cfg, ev));
    hide Outs, EnqueueScript, ReplayScript;
  }

  lemma BornEntry(y: System, cfg: Config, cap: Id -> nat, ev: Event, id: Id)
    requires Unrepeated(y, cap) && (ev.Enqueue? || ev.Replay?)
    ensures var z := Apply(y, cfg, ev);
            Domains(z.store.data) && EntrySafe(At(Abs(z.store.data), id), id in z.store.data.missing, z.h, Outs(z), id)
  {
    hide Abs, Domains, Apply, Outs, EntrySafe, Unrepeated, At;
    UnrepeatedAt(y, cap, id);
    var s, z := y.store, Apply(y, cfg, ev);
    BornAt(y, cfg, ev, id);
    SameOuts(y, cfg, ev);
    if z.h.epoch == y.h.epoch || id != ev.id {
      EntryKeeps(At(Abs(s.data), id), id in s.data.missing, id in z.store.data.missing, y.h, z.h, Outs(y), Outs(z), id);
    } else {
      var body :| At(Abs(z.store.data), id) == Some(Waiting(body, 0, ev.due));
      EntryFresh(y.h, z.h, Outs(z), id, body, ev.due, id in z.store.data.missing);
    }
  }

  lemma BornAt(y: System, cfg: Config, ev: Event, id: Id)
    requires Domains(y.store.data) && (ev.Enqueue? || ev.Replay?)
    ensures var s, z := y.store, Apply(y, cfg, ev);
            var born := if ev.id in y.h.epoch then y.h.epoch[ev.id] + 1 else 0;
            && Domains(z.store.data) && (id in z.store.data.missing ==> id in s.data.missing)
            && z.h.cleared == y.h.cleared
            && (z.h.epoch == y.h.epoch || z.h.epoch == y.h.epoch[ev.id := born])
            && (z.h.epoch == y.h.epoch || id != ev.id ==> At(Abs(z.store.data), id) == At(Abs(s.data), id))
            && (z.h.epoch != y.h.epoch && id == ev.id ==> exists body :: At(Abs(z.store.data), id) == Some(Waiting(body, 0, ev.due)))
  {
    hide Abs, Domains, EnqueueScript, ReplayScript, At;
    if ev.Enqueue? {
      EnqueueEffect(y.store, cfg, ev.id, ev.body, ev.due, id);
    } else {
      ReplayEffect(y.store, cfg, ev.id, ev.due, id);
    }
  }

  // ------------------------------------------------------------------- reclaim, prune, expiry, claim

  lemma ReclaimKeeps(y: System, cfg: Config, cap: Id -> nat, ev: Event)
    requires Unrepeated(y, cap) && ev.Reclaim?
    ensures Unrepeated(Apply(y, cfg, ev), cap)
  {
    var s, z := y.store, Apply(y, cfg, ev);
    Untouched(y, z);
    GrantsSafe(y, z, cap);
    ReclaimRefines(s, cfg, ev.ids, ev.now);
    hide Abs, Domains, ReclaimScript, Outs, WorkersSafe, Distinct, ReclaimEntries, TokensOf;
    forall id ensures EntrySafe(At(Abs(z.store.data), id), id in z.store.data.missing, z.h, Outs(z), id) {
      var e, marked := Abs(s.data), id in s.data.missing;
      assert EntrySafe(At(e, id), marked, y.h, Outs(y), id);
      ReclaimAt(e, s.data.missing, ev.ids, ev.now, id);
      AtIn(e, id);
      hide EntrySafe, At;
      EntryKeeps(At(e, id), marked, marked, y.h, z.h, Outs(y), Outs(z), id);
      if id in e && id in ev.ids && e[id].InFlight? {
        EntryReclaimed(e[id], marked, z.h, Outs(z), id, ev.now);
      }
    }
  }

  /** Prune and expiry only remove entries and markers. */
  lemma RemovalKeeps(y: System, z: System, cap: Id -> nat)
    requires Unrepeated(y, cap) && z.workers == y.workers && Domains(z.store.data)
    requires z.h == y.h.(pruned := z.h.pruned, expired := z.h.expired)
    requires forall id :: At(Abs(z.store.data), id) == At(Abs(y.store.data), id) || At(Abs(z.store.data), id) == None
    requires z.store.data.missing.Keys <= y.store.data.missing.Keys
    ensures Unrepeated(z, cap)
  {
    Untouched(y, z);
    GrantsSafe(y, z, cap);
    hide Abs, Domains, Outs, WorkersSafe, Distinct, At;
    forall id ensures EntrySafe(At(Abs(z.store.data), id), id in z.store.data.missing, z.h, Outs(z), id) {
      var marked := id in y.store.data.missing;
      assert EntrySafe(At(Abs(y.store.data), id), marked, y.h, Outs(y), id);
      EntryKeeps(At(Abs(y.store.data), id), marked, id in z.store.data.missing, y.h, z.h, Outs(y), Outs(z), id);
    }
  }

  lemma PruneKeeps(y: System, cfg: Config, cap: Id -> nat, ev: Event)
    requires Unrepeated(y, cap) && ev.Prune?
    ensures Unrepeated(Apply(y, cfg, ev), cap)
  {
    PruneRefines(y.store, ev.cutoff);
    hide Abs, Domains, PruneScript, UpTo, Unrepeated;
    RemovalKeeps(y, Apply(y, cfg, ev), cap);
  }

  lemma ElapseKeeps(y: System, cfg: Config, cap: Id -> nat, ev: Event)
    requires Sound(y, cap) && Unrepeated(y, cap) && ev.Elapse? && y.store.clock <= ev.clock
    ensures Unrepeated(Apply(y, cfg, ev), cap)
  {
    TickRefines(y.store, ev.clock);
    hide Abs, Domains, Tick, Unrepeated, Sound;
    RemovalKeeps(y, Apply(y, cfg, ev), cap);
  }

  /** A fresh lease was never cleared, and its attempt is above all that is out. */
  lemma ClaimKeeps(y: System, cfg: Config, cap: Id -> nat, ev: Event)
    requires Sound(y, cap) && Unrepeated(y, cap) && Enabled(y, ev, cap) && ev.Claim?
    ensures Unrepeated(Apply(y, cfg, ev), cap)
  {
    if ev.first.Some? {
      var z := Apply(y, cfg, ev);
      hide Sound, Abs, Domains, Apply, Outs, WorkersSafe, EntriesSafe, GrantSafe, Distinct;
      SoundParts(y, cap);
      ClaimShape(y, cfg, ev);
      var l := z.workers[ev.w].l;
      ClaimOuts(y, z, cap, ev.w, l);
      ClaimWorkersSafe(y, z, cap, ev.w, l);
      ClaimEntriesSafe(y, z, ev);
      GrantsStaySafe(y, z, cap);
    }
  }

  lemma ClaimEntriesSafe(y: System, z: System, ev: Event)
    requires EntriesSafe(y) && Outs(z) == Outs(y) && ev.Claim? && ev.first.Some?
    requires Domains(z.store.data) && z.store.data.missing == y.store.data.missing
    requires var e, id := Abs(y.store.data), ev.first.value;
            && id in e && e[id].Waiting?
            && Abs(z.store.data) == e[id := InFlight(e[id].body, e[id].attempt + 1, ev.until, ev.token)]
            && z.h == Granted(y.h, id, ev.token, e[id].attempt + 1)
    ensures EntriesSafe(z)
  {
    hide Abs, Domains, Outs, At, EntrySafe, Granted;
    forall x ensures EntrySafe(At(Abs(z.store.data), x), x in z.store.data.missing, z.h, Outs(z), x) {
      assert EntrySafe(At(Abs(y.store.data), x), x in y.store.data.missing, y.h, Outs(y), x);
      ClaimEntrySafe(Abs(y.store.data), Abs(z.store.data), x in y.store.data.missing, y.h, Outs(y), ev, x);
    }
  }

  lemma ClaimEntrySafe(e: Entries, f: Entries, marked: bool, h: History, outs: set<Grant>, ev: Event, x: Id)
    requires EntrySafe(At(e, x), marked, h, outs, x) && ev.Claim? && ev.first.Some?
    requires ev.first.value in e && e[ev.first.value].Waiting?
    requires var a := e[ev.first.value];
             f == e[ev.first.value := InFlight(a.body, a.attempt + 1, ev.until, ev.token)]
    ensures var n := e[ev.first.value].attempt + 1;
            EntrySafe(At(f, x), marked, Granted(h, ev.first.value, ev.token, n), outs, x)
  {
    var id := ev.first.value;
    var a := e[id];
    EntryKeeps(At(e, x), marked, marked, h, Granted(h, id, ev.token, a.attempt + 1), outs, outs, x);
    if x == id {
      hide EntrySafe;
      EntryClaimed(a.body, a.attempt, a.due, ev.until, marked, Granted(h, id, ev.token, a.attempt + 1), outs, id, ev.token);
    }
  }

  lemma GrantsStaySafe(y: System, z: System, cap: Id -> nat)
    requires Unrepeated(y, cap) && Outs(z) == Outs(y) && z.h.epoch == y.h.epoch
    ensures forall g :: g in Outs(z) ==> GrantSafe(g, z.h, cap)
  {
    hide Outs;
  }

  lemma ClaimOuts(y: System, z: System, cap: Id -> nat, w: nat, l: Lease)
    requires GoodWorkers(y, cap) && y.Worker(w).Idle? && z.workers == y.workers[w := Holding(l)]
    requires l.token !in y.h.issued && z.h == Granted(y.h, l.id, l.token, l.attempt)
    ensures Outs(z) == Outs(y)
    ensures forall v, g :: Pending(z, v, g) <==> Pending(y, v, g)
  {
    forall v, g ensures Pending(z, v, g) <==> Pending(y, v, g) {
      assert v in y.workers ==> GoodWorker(y.workers[v], y.h, cap);
    }
    forall g ensures g in Outs(z) <==> g in Outs(y) {
      OutsAre(y, g);
      OutsAre(z, g);
    }
  }

  lemma ClaimWorkersSafe(y: System, z: System, cap: Id -> nat, w: nat, l: Lease)
    requires GoodWorkers(y, cap) && GoodHistory(y.h) && y.Worker(w).Idle? && z.workers == y.workers[w := Holding(l)]
    requires l.token !in y.h.issued && z.h == Granted(y.h, l.id, l.token, l.attempt) && WorkersSafe(y)
    ensures WorkersSafe(z)
  {
    ClaimOuts(y, z, cap, w, l);
    hide Pending, Outs;
    forall v | v in z.workers ensures WorkerSafe(z.workers[v], z.h) {
      if v != w {
        assert WorkerSafe(y.workers[v], y.h) && GoodWorker(y.workers[v], y.h, cap);
      }
    }
  }

  // ------------------------------------------------------------------------------- worker steps

  /** Which worker is about to call after a step, and with what. */
  lemma NextIs(s: Store, cfg: Config, p: Phase, i: Input)
    requires Fits(p, i)
    ensures var n := Advance(s, cfg, p, i).phase;
            && !n.Holding? && (n.Missed? ==> p.Holding? && n.l == p.l && i.RouteAbsent?)
            && (n.Cleared? <==> i.RouteFound? && s.data.Holds(p.l.id, p.l.token))
            && (n.Cleared? ==> n == Cleared(p.l, i.route))
            && (Delivers(p, i) ==> AboutToCall(p) && n.Delivering?)
            && (Plan(p, i).PutBack? ==> n.Idle? && (p.Missed? || AboutToCall(p)))
            && (Plan(p, i).Clear? <==> i.RouteFound?)
            && (Plan(p, i).Mark? <==> i.RouteAbsent?)
  {
    hide RouteMissingScript, DeferScript, NackScript, RenewScript, AckScript;
  }

  ghost predicate Moves(y: System, z: System, cfg: Config, cap: Id -> nat, w: nat, i: Input) {
    && Sound(y, cap) && Unrepeated(y, cap) && Enabled(y, Work(w, i), cap) && z == Apply(y, cfg, Work(w, i))
  }

  /** The grant of a worker that just cleared its marker within budget. */
  ghost function Gain(y: System, w: nat, i: Input): set<Grant>
    requires Fits(y.Worker(w), i) && y.Worker(w).l.token in y.h.issued
  {
    var p := y.Worker(w);
    if i.RouteFound? && y.store.data.Holds(p.l.id, p.l.token) && p.l.attempt <= i.route.maxAttempts
    then {y.h.issued[p.l.token]} else {}
  }

  lemma MoverIsGood(y: System, z: System, cfg: Config, cap: Id -> nat, w: nat, i: Input)
    requires Moves(y, z, cfg, cap, w, i)
    ensures var p := y.Worker(w);
            && w in y.workers && GoodWorker(p, y.h, cap) && WorkerSafe(p, y.h) && Fits(p, i) && p.l.token in y.h.issued
            && z.h == Record(y.store, cfg, y.h, p, i) && z.store == Perform(y.store, cfg, p.l, Plan(p, i)).0
            && z.workers == y.workers[w := Advance(y.store, cfg, p, i).phase]
            && z.h.issued == y.h.issued && z.h.epoch == y.h.epoch
  {
    assert w in y.workers;
    AdvanceStore(y.store, cfg, y.Worker(w), i);
    RecordShape(y.store, cfg, y.h, y.Worker(w), i);
    hide Advance, Record, Perform, Plan, GoodEntries, EntriesSafe, Outs;
  }

  lemma PendingAfter(y: System, z: System, cfg: Config, cap: Id -> nat, w: nat, i: Input, v: nat, g: Grant)
    requires Moves(y, z, cfg, cap, w, i)
    ensures var p := y.Worker(w);
            Fits(p, i) && p.l.token in y.h.issued
    ensures Pending(z, v, g) <==> if v == w then g in Gain(y, w, i) else Pending(y, v, g)
  {
    MoverIsGood(y, z, cfg, cap, w, i);
    NextIs(y.store, cfg, y.Worker(w), i);
    hide Moves, Advance, Record, Perform, Plan;
  }

  lemma WorkOuts(y: System, z: System, cfg: Config, cap: Id -> nat, w: nat, i: Input)
    requires Moves(y, z, cfg, cap, w, i)
    ensures Fits(y.Worker(w), i) && y.Worker(w).l.token in y.h.issued
    ensures Outs(z) <= Outs(y) + Gain(y, w, i)
    ensures Plan(y.Worker(w), i).PutBack? && AboutToCall(y.Worker(w)) ==> y.h.issued[y.Worker(w).l.token] !in Outs(z)
  {
    var p := y.Worker(w);
    MoverIsGood(y, z, cfg, cap, w, i);
    NextIs(y.store, cfg, p, i);
    RecordShape(y.store, cfg, y.h, p, i);
    var mine := y.h.issued[p.l.token];
    assert AboutToCall(p) ==> Pending(y, w, mine);
    hide Advance, Record, Perform, Plan, Sound, EntriesSafe, Outs, Apply;
    forall g | g in Outs(z)
      ensures g in Outs(y) + Gain(y, w, i) && !(Plan(p, i).PutBack? && AboutToCall(p) && g == mine)
    {
      OutsAre(y, g);
      OutsAre(z, g);
      OutsAre(y, mine);
      if g !in z.h.calls {
        var v :| Pending(z, v, g);
        PendingAfter(y, z, cfg, cap, w, i, v, g);
      }
    }
  }

  /** Nothing out for the current lease's enqueue or replay is above its attempt, and its own attempt only
      once it is cleared, with the marker gone. */
  lemma CurrentIsGreatest(y: System, cap: Id -> nat, p: Phase)
    requires Sound(y, cap) && EntriesSafe(y) && GoodWorker(p, y.h, cap) && !p.Idle?
    requires y.store.data.Holds(p.l.id, p.l.token)
    ensures var id := p.l.id;
            && p.l.token in y.h.issued && id in y.h.epoch
            && y.h.issued[p.l.token] == Grant(id, y.h.epoch[id], p.l.attempt)
            && UpTo(y.h, Outs(y), id, p.l.attempt)
            && (y.h.issued[p.l.token] in Outs(y) ==> p.l.token in y.h.cleared && id !in y.store.data.missing)
  {
    CurrentLease(y.store, y.h, p, cap);
    var id := p.l.id;
    assert EntrySafe(At(Abs(y.store.data), id), id in y.store.data.missing, y.h, Outs(y), id);
    AtIn(Abs(y.store.data), id);
    hide Abs, Outs, Sound, EntriesSafe, At;
  }

  /** A grant is cleared for delivery only once. */
  lemma GainIsNew(y: System, z: System, cfg: Config, cap: Id -> nat, w: nat, i: Input)
    requires Moves(y, z, cfg, cap, w, i)
    ensures Fits(y.Worker(w), i) && y.Worker(w).l.token in y.h.issued
    ensures forall g :: g in Gain(y, w, i) ==> g !in Outs(y) && GrantSafe(g, y.h, cap) && g.id == y.Worker(w).l.id
  {
    var p := y.Worker(w);
    MoverIsGood(y, z, cfg, cap, w, i);
    hide Outs, Apply, Sound, EntriesSafe, WorkersSafe, Record, Advance, Perform;
    if y.store.data.Holds(p.l.id, p.l.token) {
      CurrentIsGreatest(y, cap, p);
    }
  }

  lemma CallsStayDistinct(calls: seq<Grant>, g: Grant)
    requires Distinct(calls) && g !in calls
    ensures Distinct(calls + [g])
  {
  }

  lemma WorkersStaySafe(y: System, z: System, cfg: Config, cap: Id -> nat, w: nat, i: Input)
    requires Moves(y, z, cfg, cap, w, i)
    ensures WorkersSafe(z) && Distinct(z.h.calls)
  {
    var p := y.Worker(w);
    MoverIsGood(y, z, cfg, cap, w, i);
    NextIs(y.store, cfg, p, i);
    RecordShape(y.store, cfg, y.h, p, i);
    GainIsNew(y, z, cfg, cap, w, i);
    var mine := y.h.issued[p.l.token];
    if Delivers(p, i) {
      assert Pending(y, w, mine);
      CallsStayDistinct(y.h.calls, mine);
    }
    assert GoodWorkers(y, cap) && WorkersSafe(y);
    hide Advance, Record, Perform, Plan, Sound, EntriesSafe, Outs, Apply, Unrepeated, Distinct;
    forall v | v in z.workers ensures WorkerSafe(z.workers[v], z.h) {
      if v != w {
        assert WorkerSafe(y.workers[v], y.h) && Apart(y.workers[v], y.workers[w]);
        if AboutToCall(y.workers[v]) && y.workers[v].l.token in y.h.issued {
          assert Pending(y, v, y.h.issued[y.workers[v].l.token]);
        }
      } else {
        OutsAre(y, mine);
      }
    }
    forall u, v, g | Pending(z, u, g) && Pending(z, v, g) ensures u == v {
      PendingAfter(y, z, cfg, cap, w, i, u, g);
      PendingAfter(y, z, cfg, cap, w, i, v, g);
      OutsAre(y, g);
    }
  }

  /** The current lease's own entry. */
  lemma HolderStaysSafe(y: System, z: System, cfg: Config, cap: Id -> nat, w: nat, i: Input)
    requires Moves(y, z, cfg, cap, w, i) && Careful(y, Work(w, i))
    requires !y.Worker(w).Idle? && y.store.data.Holds(y.Worker(w).l.id, y.Worker(w).l.token)
    ensures Domains(z.store.data)
    ensures var id := y.Worker(w).l.id;
            EntrySafe(At(Abs(z.store.data), id), id in z.store.data.missing, z.h, Outs(z), id)
  {
    var p, h, id := y.Worker(w), y.h, y.Worker(w).l.id;
    var a, outs := Plan(p, i), Outs(y);
    MoverIsGood(y, z, cfg, cap, w, i);
    CurrentLease(y.store, h, p, cap);
    HolderEffect(y.store, cfg, p.l, a);
    NextIs(y.store, cfg, p, i);
    RecordShape(y.store, cfg, h, p, i);
    WorkOuts(y, z, cfg, cap, w, i);
    var en := Abs(y.store.data)[id];
    assert EntrySafe(At(Abs(y.store.data), id), id in y.store.data.missing, h, outs, id);
    AtIn(Abs(y.store.data), id);
    AbsMatches(y.store.data, id);
    assert a.Mark? ==> h.issued[p.l.token] !in outs;
    hide Advance, Record, Perform, Plan, Sound, Unrepeated, Outs, Apply, Moves, Abs, Domains, At, GoodEntry, GoodWorker;
    HolderEntrySafe(cfg, en, At(Abs(z.store.data), id), a, id in y.store.data.missing, h, z.h, outs, Outs(z), id, p.l.token);
  }

  lemma HolderEntrySafe(cfg: Config, en: Entry, after: Option<Entry>, a: Action, marked: bool, h: History, k: History,
                        outs: set<Grant>, next: set<Grant>, id: Id, token: Token)
    requires en.InFlight? && en.token == token && EntrySafe(Some(en), marked, h, outs, id) && Moved(cfg, en, after, a)
    requires id in h.epoch && k.epoch == h.epoch && h.cleared <= k.cleared && (a.Clear? ==> token in k.cleared)
    requires next <= outs + (if a.Clear? then {Grant(id, h.epoch[id], en.attempt)} else {})
    requires a.Mark? ==> Grant(id, h.epoch[id], en.attempt) !in outs
    requires a.PutBack? ==> token !in h.cleared || Grant(id, h.epoch[id], en.attempt) !in next
    ensures EntrySafe(after, MarkedAfter(marked, a), k, next, id)
  {
    var mine := Grant(id, h.epoch[id], en.attempt);
    forall g | g in next && g.id == id && g.epoch == h.epoch[id]
      ensures g.attempt <= en.attempt && (g != mine ==> g.attempt <= en.attempt - 1)
    {
      assert g == Grant(id, h.epoch[id], g.attempt);
    }
  }

  /** A worker whose lease is lost. */
  lemma StaleStaysSafe(y: System, z: System, cfg: Config, cap: Id -> nat, w: nat, i: Input)
    requires Moves(y, z, cfg, cap, w, i) && Careful(y, Work(w, i))
    requires !y.Worker(w).Idle? && !y.store.data.Holds(y.Worker(w).l.id, y.Worker(w).l.token)
    ensures Domains(z.store.data)
    ensures var id := y.Worker(w).l.id;
            EntrySafe(At(Abs(z.store.data), id), id in z.store.data.missing, z.h, Outs(z), id)
  {
    var p, h, id := y.Worker(w), y.h, y.Worker(w).l.id;
    MoverIsGood(y, z, cfg, cap, w, i);
    NextIs(y.store, cfg, p, i);
    RecordShape(y.store, cfg, h, p, i);
    WorkOuts(y, z, cfg, cap, w, i);
    var en, marked := At(Abs(y.store.data), id), id in y.store.data.missing;
    assert EntrySafe(en, marked, h, Outs(y), id) && GoodEntry(en, h, id);
    AbsMatches(y.store.data, id);
    if Plan(p, i).Mark? {
      StampEffect(y.store, cfg, p.l, Plan(p, i).now);
      hide Advance, Record, Perform, Plan, Sound, Unrepeated, Outs, Apply, Moves, Abs, Domains;
      EntryKeeps(en, marked, marked, h, z.h, Outs(y), Outs(z), id);
    } else {
      StaleCallIsNoop(y.store, cfg, p.l, Plan(p, i));
      hide Advance, Record, Perform, Plan, Sound, Unrepeated, Outs, Apply, Moves, Abs, Domains;
      EntryKeeps(en, marked, marked, h, z.h, Outs(y), Outs(z), id);
    }
  }

  lemma OtherStaysSafe(y: System, z: System, cfg: Config, cap: Id -> nat, w: nat, i: Input, x: Id)
    requires Moves(y, z, cfg, cap, w, i) && !y.Worker(w).Idle? && x != y.Worker(w).l.id
    ensures Domains(z.store.data)
    ensures EntrySafe(At(Abs(z.store.data), x), x in z.store.data.missing, z.h, Outs(z), x)
  {
    var p, h := y.Worker(w), y.h;
    MoverIsGood(y, z, cfg, cap, w, i);
    RecordShape(y.store, cfg, h, p, i);
    WorkOuts(y, z, cfg, cap, w, i);
    GainIsNew(y, z, cfg, cap, w, i);
    OtherEffect(y.store, cfg, p.l, Plan(p, i), x);
    var en, marked := At(Abs(y.store.data), x), x in y.store.data.missing;
    assert EntrySafe(en, marked, h, Outs(y), x);
    hide Advance, Record, Perform, Plan, Sound, Unrepeated, Outs, Apply, Moves, Abs, Domains, At, Gain;
    EntryKeeps(en, marked, marked, h, z.h, Outs(y), Outs(z), x);
  }

  lemma WorkKeeps(y: System, z: System, cfg: Config, cap: Id -> nat, w: nat, i: Input)
    requires Moves(y, z, cfg, cap, w, i) && Careful(y, Work(w, i))
    ensures Unrepeated(z, cap)
  {
    MoverIsGood(y, z, cfg, cap, w, i);
    WorkersStaySafe(y, z, cfg, cap, w, i);
    WorkOuts(y, z, cfg, cap, w, i);
    GainIsNew(y, z, cfg, cap, w, i);
    assert forall g :: g in Outs(y) ==> GrantSafe(g, y.h, cap);
    hide Advance, Record, Perform, Plan, Sound, Unrepeated, Outs, Apply, Moves, Abs, Domains, At, Gain, WorkersSafe, Distinct, EntrySafe, Careful;
    forall x ensures Domains(z.store.data) && EntrySafe(At(Abs(z.store.data), x), x in z.store.data.missing, z.h, Outs(z), x) {
      if x != y.Worker(w).l.id {
        OtherStaysSafe(y, z, cfg, cap, w, i, x);
      } else if y.store.data.Holds(x, y.Worker(w).l.token) {
        HolderStaysSafe(y, z, cfg, cap, w, i);
      } else {
        StaleStaysSafe(y, z, cfg, cap, w, i);
      }
    }
  }

  // ---------------------------------------------------------------------------------- every run

  lemma StepKeepsUnrepeated(y: System, cfg: Config, cap: Id -> nat, ev: Event)
    requires Sound(y, cap) && Unrepeated(y, cap) && cfg.Valid() && Enabled(y, ev, cap) && Careful(y, ev)
    ensures Unrepeated(Apply(y, cfg, ev), cap)
  {
    match ev {
      case Enqueue(_, _, _) => ProducerKeeps(y, cfg, cap, ev);
      case Replay(_, _) => ProducerKeeps(y, cfg, cap, ev);
      case Reclaim(_, _, _) => ReclaimKeeps(y, cfg, cap, ev);
      case Prune(_) => PruneKeeps(y, cfg, cap, ev);
      case Elapse(_) => ElapseKeeps(y, cfg, cap, ev);
      case Claim(_, _, _, _, _) => ClaimKeeps(y, cfg, cap, ev);
      case Work(w, i) =>
        hide Sound, Unrepeated, Apply, Enabled, Careful;
        WorkKeeps(y, Apply(y, cfg, ev), cfg, cap, w, i);
    }
    hide Sound, Unrepeated, Apply;
  }

  /** No stamp of the run lands on an exposed event. */
  ghost predicate CarefulRun(y: System, cfg: Config, cap: Id -> nat, evs: seq<Event>)
    requires Legal(y, cfg, cap, evs)
    decreases |evs|
  {
    evs == [] || (Careful(y, evs[0]) && CarefulRun(Apply(y, cfg, evs[0]), cfg, cap, evs[1..]))
  }

  lemma {:induction false} RunKeepsUnrepeated(y: System, cfg: Config, cap: Id -> nat, evs: seq<Event>)
    requires Sound(y, cap) && Unrepeated(y, cap) && cfg.Valid() && Legal(y, cfg, cap, evs) && CarefulRun(y, cfg, cap, evs)
    ensures Unrepeated(Exec(y, cfg, cap, evs), cap)
    decreases |evs|
  {
    if evs != [] {
      hide Sound, Unrepeated, Enabled, Careful, Apply;
      StepKeepsSound(y, cfg, cap, evs[0]);
      StepKeepsUnrepeated(y, cfg, cap, evs[0]);
      RunKeepsUnrepeated(Apply(y, cfg, evs[0]), cfg, cap, evs[1..]);
    }
  }

  lemma StartIsUnrepeated(cap: Id -> nat)
    ensures Unrepeated(START, cap)
  {
    StartIsSound(cap);
    assert Abs(NOTHING) == map[];
    hide Abs;
  }

  /** The Deliver calls made by leases of one enqueue or replay. */
  ghost function CallsFor(calls: seq<Grant>, id: Id, epoch: nat): seq<Grant> {
    if calls == [] then []
    else if calls[0].id == id && calls[0].epoch == epoch then [calls[0]] + CallsFor(calls[1..], id, epoch)
    else CallsFor(calls[1..], id, epoch)
  }

  lemma {:induction false} CallsForAre(calls: seq<Grant>, id: Id, epoch: nat, cap: Id -> nat)
    requires forall i :: 0 <= i < |calls| ==> 1 <= calls[i].attempt <= cap(calls[i].id)
    requires Distinct(calls)
    ensures var c := CallsFor(calls, id, epoch);
            && (forall g :: g in c ==> g in calls && g.id == id && g.epoch == epoch && 1 <= g.attempt <= cap(id))
            && Distinct(c)
  {
    if calls != [] {
      CallsForAre(calls[1..], id, epoch, cap);
      assert calls[0] !in calls[1..];
      assert CallsFor(calls, id, epoch) == CallsFor(calls[1..], id, epoch)
          || CallsFor(calls, id, epoch) == [calls[0]] + CallsFor(calls[1..], id, epoch);
    }
  }

  lemma {:induction false} Pigeonhole(c: seq<Grant>, id: Id, epoch: nat, cap: nat)
    requires forall i :: 0 <= i < |c| ==> c[i].id == id && c[i].epoch == epoch && 1 <= c[i].attempt <= cap
    requires Distinct(c)
    ensures |c| <= cap
    decreases cap
  {
    if c == [] {
    } else if k :| 0 <= k < |c| && c[k].attempt == cap {
      var d := c[..k] + c[k + 1..];
      forall i | 0 <= i < |d| ensures d[i].id == id && d[i].epoch == epoch && 1 <= d[i].attempt <= cap - 1 {
        assert d[i] == if i < k then c[i] else c[i + 1];
      }
      Pigeonhole(d, id, epoch, cap - 1);
    } else {
      assert 1 <= c[0].attempt <= cap;
      Pigeonhole(c, id, epoch, cap - 1);
    }
  }

  /** In every careful interleaving of workers, crashes, reclaims and expiry, the leases of one enqueue or
      replay call Deliver at most as often as the event's routes allow, and never twice with the same
      attempt. */
  lemma BoundedDelivery(cfg: Config, cap: Id -> nat, evs: seq<Event>, id: Id, epoch: nat)
    requires cfg.Valid() && Legal(START, cfg, cap, evs) && CarefulRun(START, cfg, cap, evs)
    ensures var c := CallsFor(Exec(START, cfg, cap, evs).h.calls, id, epoch);
            && |c| <= cap(id)
            && forall i, j :: 0 <= i < j < |c| ==> c[i].attempt != c[j].attempt
  {
    StartIsSound(cap);
    StartIsUnrepeated(cap);
    RunKeepsUnrepeated(START, cfg, cap, evs);
    hide EntriesSafe, WorkersSafe, Legal, Exec, CallsFor, CarefulRun;
    var y := Exec(START, cfg, cap, evs);
    forall i | 0 <= i < |y.h.calls| ensures 1 <= y.h.calls[i].attempt <= cap(y.h.calls[i].id) {
      assert y.h.calls[i] in Outs(y);
    }
    CallsForAre(y.h.calls, id, epoch, cap);
    var c := CallsFor(y.h.calls, id, epoch);
    forall i | 0 <= i < |c| ensures c[i].id == id && c[i].epoch == epoch && 1 <= c[i].attempt <= cap(id) {
      assert c[i] in c;
    }
    Pigeonhole(c, id, epoch, cap(id));
  }

  /** Leases cleared for delivery carry strictly increasing attempts: after every careful run, when a
      lease is cleared within budget, everything called or about to be called for the same enqueue or
      replay is smaller. */
  lemma ClearedAttemptsIncrease(cfg: Config, cap: Id -> nat, evs: seq<Event>, w: nat, route: Route, g: Grant)
    requires cfg.Valid() && Legal(START, cfg, cap, evs) && CarefulRun(START, cfg, cap, evs)
    requires var y := Exec(START, cfg, cap, evs);
             && Enabled(y, Work(w, RouteFound(route)), cap) && AboutToCall(Apply(y, cfg, Work(w, RouteFound(route))).Worker(w))
             && g in Outs(y) && g.id == y.Worker(w).l.id && g.id in y.h.epoch && g.epoch == y.h.epoch[g.id]
    ensures var y := Exec(START, cfg, cap, evs);
            g.attempt < y.Worker(w).l.attempt
  {
    StartIsSound(cap);
    StartIsUnrepeated(cap);
    RunKeepsSound(START, cfg, cap, evs);
    RunKeepsUnrepeated(START, cfg, cap, evs);
    hide Legal, Exec, CarefulRun, Outs, Sound, Unrepeated, Apply, Enabled;
    ClearedIsGreatest(Exec(START, cfg, cap, evs), cfg, cap, w, route, g);
  }

  lemma ClearedIsGreatest(y: System, cfg: Config, cap: Id -> nat, w: nat, route: Route, g: Grant)
    requires Sound(y, cap) && Unrepeated(y, cap) && Enabled(y, Work(w, RouteFound(route)), cap)
    requires AboutToCall(Apply(y, cfg, Work(w, RouteFound(route))).Worker(w))
    requires g in Outs(y) && g.id == y.Worker(w).l.id && g.id in y.h.epoch && g.epoch == y.h.epoch[g.id]
    ensures g.attempt < y.Worker(w).l.attempt
  {
    var p, i := y.Worker(w), RouteFound(route);
    MoverIsGood(y, Apply(y, cfg, Work(w, i)), cfg, cap, w, i);
    NextIs(y.store, cfg, p, i);
    hide Outs, Sound, EntriesSafe, WorkersSafe, Apply, Advance, Record, Perform, Plan;
    CurrentIsGreatest(y, cap, p);
    assert g == Grant(g.id, g.epoch, g.attempt);
  }
}
