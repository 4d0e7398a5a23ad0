/** Any number of ProcessOne workers on one queue, interleaved step by step with producers, replays,
    prunes, reclaims, crashes and key expiry. The history is ghost bookkeeping of the run: who was
    granted which lease, which leases cleared their marker, what was called, ended and acked. The
    invariant here holds in every run, whenever a first-miss stamp lands. */
module DispatchRuns {
  import opened Prelude
  import opened SortedSets
  import opened QueueScripts
  import opened QueueRefinement
  import opened QueueExpiry
  import opened ProcessOne
  import opened WorkerEffects

  /** One lease: the event, which enqueue or replay of it, and the attempt its claim returned. */
  datatype Grant = Grant(id: Id, epoch: nat, attempt: int)

  datatype Birth = Birth(id: Id, epoch: nat)

  datatype History = History(
    epoch: map<Id, nat>, bodies: map<Id, Body>, issued: map<Token, Grant>,
    cleared: set<Token>, calls: seq<Grant>, endings: seq<Token>, acks: seq<Birth>,
    accepted: nat, pruned: nat, expired: nat)

  datatype System = System(store: Store, workers: map<nat, Phase>, h: History) {
    function Worker(w: nat): Phase {
      if w in workers then workers[w] else Idle
    }
  }

  const START := System(EMPTY, map[], History(map[], map[], map[], {}, [], [], [], 0, 0, 0))

  datatype Event =
    | Enqueue(id: Id, body: Body, due: int)
    | Replay(id: Id, due: int)
    | Reclaim(ids: seq<Id>, now: int, limit: nat)
    | Prune(cutoff: int)
    | Elapse(clock: int)
    | Claim(w: nat, now: int, first: Option<Id>, until: int, token: Token)
    | Work(w: nat, input: Input)

  /** What may happen: lease tokens are fresh, and a route found for an event allows at most cap(event)
      attempts. A first-miss stamp may land at any time, also after its lease was lost. */
  ghost predicate Enabled(y: System, ev: Event, cap: Id -> nat) {
    match ev
    case Enqueue(_, _, _) => true
    case Replay(_, _) => true
    case Reclaim(ids, now, limit) => IsRange(y.store.data.leased, now, limit, ids)
    case Prune(_) => true
    case Elapse(clock) => y.store.clock <= clock
    case Claim(w, now, first, until, token) =>
      y.Worker(w).Idle? && IsFirstDue(y.store.data.ready, now, first) && token !in y.h.issued
    case Work(w, input) =>
      && Fits(y.Worker(w), input)
      && (input.RouteFound? ==> GoodRoute(input.route, cap(y.Worker(w).l.id)))
  }

  predicate GoodRoute(route: Route, cap: int) {
    1 <= route.maxAttempts <= cap && 0 <= route.baseBackoff && 0 <= route.maxBackoff
  }

  /** The next enqueue or replay of an id. */
  function Born(h: History, id: Id): History {
    h.(epoch := h.epoch[id := if id in h.epoch then h.epoch[id] + 1 else 0])
  }

  /** An accepted enqueue also brings its payload bytes. */
  function Accepted(h: History, id: Id, body: Body): History {
    Born(h, id).(bodies := h.bodies[id := body], accepted := h.accepted + 1)
  }

  /** Dead entries a nack removes beside its own: the overdue ones, and with retention 0 all. */
  function NackLoss(s: Store, cfg: Config, l: Lease, now: int, maxAttempts: int, meta: Body): nat {
    if s.data.Attempt(l.id) < maxAttempts then 0
    else
      |UpTo(s.data.dlq, now - cfg.dlqRetention)|
      + if cfg.dlqRetention > 0 then 0
        else |Interred(Dropped(s.data, l.id), l.id, now, now - cfg.dlqRetention, meta, meta).dlq|
  }

  function Granted(h: History, id: Id, token: Token, attempt: int): History {
    h.(issued := h.issued[token := Grant(id, if id in h.epoch then h.epoch[id] else 0, attempt)])
  }

  /** A lease ends by a call of its own. */
  function Ended(h: History, token: Token, pruned: nat): History {
    h.(endings := h.endings + [token], pruned := h.pruned + pruned)
  }

  function Acknowledged(h: History, b: Birth): History {
    h.(acks := h.acks + [b])
  }

  function Unmarked(h: History, token: Token): History {
    h.(cleared := h.cleared + {token})
  }

  function Called(h: History, g: Grant): History {
    h.(calls := h.calls + [g])
  }

  function Record(s: Store, cfg: Config, h: History, p: Phase, i: Input): History
    requires Fits(p, i)
  {
    var t := p.l.token;
    if t !in h.issued then h
    else if Delivers(p, i) then Called(h, h.issued[t])
    else if !s.data.Holds(p.l.id, t) then h
    else
      match Plan(p, i)
      case Clear => Unmarked(h, t)
      case PutBack(_) => Ended(h, t, 0)
      case Reject(now, delay, maxAttempts, meta) =>
        if maxAttempts < 1 || delay < 0 then h
        else Ended(h, t, NackLoss(s, cfg, p.l, now, maxAttempts, meta))
      case Finish => Acknowledged(Ended(h, t, 0), Birth(h.issued[t].id, h.issued[t].epoch))
      case _ => h
  }

  function TokensOf(d: Data, ids: seq<Id>): seq<Token> {
    seq(|ids|, i requires 0 <= i < |ids| => if ids[i] in d.tokens then d.tokens[ids[i]] else Token(""))
  }

  /** One step of the whole system. */
  function Apply(y: System, cfg: Config, ev: Event): System
    requires ev.Work? ==> Fits(y.Worker(ev.w), ev.input)
  {
    var s, h := y.store, y.h;
    match ev
    case Enqueue(id, body, due) =>
      var (t, ok) := EnqueueScript(s, cfg, id, body, due);
      y.(store := t, h := if ok then Accepted(h, id, body) else h)
    case Replay(id, due) =>
      var (t, ok) := ReplayScript(s, cfg, id, due);
      y.(store := t, h := if ok then Born(h, id) else h)
    case Reclaim(ids, now, _) =>
      y.(store := ReclaimScript(s, cfg, ids, now), h := h.(endings := h.endings + TokensOf(s.data, ids)))
    case Prune(cutoff) =>
      y.(store := PruneScript(s, cutoff), h := h.(pruned := h.pruned + |UpTo(s.data.dlq, cutoff)|))
    case Elapse(clock) =>
      var t := Tick(s, clock);
      y.(store := t, h := h.(expired := h.expired + (if t.data.payload == map[] then |s.data.payload| else 0)
                                                  + (if t.data.dlq == map[] then |s.data.dlq| else 0)))
    case Claim(w, _, first, until, token) =>
      var (t, lease) := ClaimScript(s, cfg, first, until, token);
      if lease.None? then y.(store := t)
      else
        var l := lease.value;
        System(t, y.workers[w := Holding(l)],
          Granted(h, l.id, token, l.attempt))
    case Work(w, input) =>
      var p := y.Worker(w);
      var o := Advance(s, cfg, p, input);
      System(o.store, y.workers[w := o.phase], Record(s, cfg, h, p, input))
  }

  // ---------------------------------------------------------------------------- the invariant

  ghost predicate Known(h: History, id: Id, body: Body) {
    id in h.epoch && id in h.bodies && h.bodies[id] == body && Birth(id, h.epoch[id]) !in h.acks
  }

  ghost predicate GoodEntry(en: Option<Entry>, h: History, id: Id) {
    match en
    case None => true
    case Some(Dead(body, _, _)) => Known(h, id, body)
    case Some(Waiting(body, attempt, _)) => Known(h, id, body) && 0 <= attempt
    case Some(InFlight(body, attempt, _, token)) =>
      && Known(h, id, body) && 1 <= attempt
      && token in h.issued && h.issued[token] == Grant(id, h.epoch[id], attempt)
      && token !in h.endings
  }

  ghost predicate GoodHistory(h: History) {
    && (forall t :: t in h.cleared ==> t in h.issued)
    && (forall i :: 0 <= i < |h.endings| ==> h.endings[i] in h.issued)
    && (forall i, j :: 0 <= i < j < |h.endings| ==> h.endings[i] != h.endings[j])
    && (forall i :: 0 <= i < |h.acks| ==> h.acks[i].id in h.epoch && h.acks[i].epoch <= h.epoch[h.acks[i].id])
    && (forall i, j :: 0 <= i < j < |h.acks| ==> h.acks[i] != h.acks[j])
  }

  ghost predicate GoodWorker(p: Phase, h: History, cap: Id -> nat) {
    p.Idle? || (
      && p.l.token in h.issued
      && h.issued[p.l.token].id == p.l.id && h.issued[p.l.token].attempt == p.l.attempt && 1 <= p.l.attempt
      && (p.Cleared? || p.Delivering? || p.Finalizing? ==> GoodRoute(p.route, cap(p.l.id))))
  }

  /** Two workers never hold the same lease. */
  ghost predicate Apart(p: Phase, q: Phase) {
    !p.Idle? && !q.Idle? ==> p.l.token != q.l.token
  }

  ghost predicate GoodEntries(s: Store, h: History) {
    && Inv(s)
    && forall id :: GoodEntry(At(Abs(s.data), id), h, id)
  }

  ghost predicate GoodWorkers(y: System, cap: Id -> nat) {
    && (forall w :: w in y.workers ==> GoodWorker(y.workers[w], y.h, cap))
    && (forall v, w :: v in y.workers && w in y.workers && v != w ==> Apart(y.workers[v], y.workers[w]))
  }

  /** What every run keeps. */
  ghost predicate Sound(y: System, cap: Id -> nat) {
    GoodEntries(y.store, y.h) && GoodHistory(y.h) && GoodWorkers(y, cap)
  }

  lemma SoundParts(y: System, cap: Id -> nat)
    requires Sound(y, cap)
    ensures Domains(y.store.data) && GoodEntries(y.store, y.h) && GoodHistory(y.h) && GoodWorkers(y, cap)
  {
  }

  // ------------------------------------------------------------------------- entries of other ids

  /** The history changed only in what concerns id. */
  ghost predicate Touches(h: History, k: History, id: Id) {
    && (forall x :: x != id ==> (x in k.epoch <==> x in h.epoch) && (x in k.bodies <==> x in h.bodies))
    && (forall x :: x != id && x in h.epoch ==> k.epoch[x] == h.epoch[x])
    && (forall x :: x != id && x in h.bodies ==> k.bodies[x] == h.bodies[x])
    && (forall t :: t in h.issued ==> t in k.issued && k.issued[t] == h.issued[t])
    && (forall t :: t in k.endings && t !in h.endings ==> t in k.issued && k.issued[t].id == id)
    && (forall b :: b in k.acks && b !in h.acks ==> b.id == id)
  }

  lemma GoodElsewhere(en: Option<Entry>, h: History, k: History, id: Id, x: Id)
    requires GoodEntry(en, h, x) && Touches(h, k, id) && x != id
    ensures GoodEntry(en, k, x)
  {
  }

  /** One entry changes: enough to look at that one. */
  lemma OneEntry(s: Store, t: Store, h: History, k: History, id: Id)
    requires GoodEntries(s, h) && Inv(t) && Touches(h, k, id)
    requires forall x :: x != id ==> At(Abs(t.data), x) == At(Abs(s.data), x) || At(Abs(t.data), x) == None
    requires GoodEntry(At(Abs(t.data), id), k, id)
    ensures GoodEntries(t, k)
  {
    hide Abs, Touches, GoodEntry, Domains, Deadlines;
    forall x ensures GoodEntry(At(Abs(t.data), x), k, x) {
      assert GoodEntry(At(Abs(s.data), x), h, x);
      NoEntry(k, x);
      if x != id {
        GoodElsewhere(At(Abs(s.data), x), h, k, id, x);
      }
    }
  }

  lemma NoEntry(h: History, id: Id)
    ensures GoodEntry(None, h, id)
  {
  }

  // ------------------------------------------------------------------------------ producer steps

  lemma BornHistory(h: History, id: Id, body: Body)
    requires GoodHistory(h)
    ensures var k := Born(h, id);
            GoodHistory(k) && Touches(h, k, id) && (Known(h, id, body) ==> Known(k, id, body))
    ensures var k := Accepted(h, id, body);
            GoodHistory(k) && Touches(h, k, id) && Known(k, id, body)
  {
  }

  lemma EnqueueStep(s: Store, h: History, cfg: Config, id: Id, body: Body, due: int)
    requires GoodEntries(s, h) && GoodHistory(h) && cfg.Valid() && EnqueueScript(s, cfg, id, body, due).1
    ensures GoodEntries(EnqueueScript(s, cfg, id, body, due).0, Accepted(h, id, body))
  {
    EnqueueKeepsInv(s, cfg, id, body, due);
    EnqueueRefines(s, cfg, id, body, due);
    BornHistory(h, id, body);
    hide Abs, Domains, Deadlines, EnqueueScript, Accepted, Born, GoodHistory, Touches;
    OneEntry(s, EnqueueScript(s, cfg, id, body, due).0, h, Accepted(h, id, body), id);
  }

  lemma ReplayStep(s: Store, h: History, cfg: Config, id: Id, due: int)
    requires GoodEntries(s, h) && GoodHistory(h) && cfg.Valid() && ReplayScript(s, cfg, id, due).1
    ensures GoodEntries(ReplayScript(s, cfg, id, due).0, Born(h, id))
  {
    ReplayKeepsInv(s, cfg, id, due);
    ReplayRefines(s, cfg, id, due);
    assert GoodEntry(At(Abs(s.data), id), h, id);
    BornHistory(h, id, Abs(s.data)[id].body);
    hide Abs, Domains, Deadlines, ReplayScript, Accepted, Born, GoodHistory, Touches;
    OneEntry(s, ReplayScript(s, cfg, id, due).0, h, Born(h, id), id);
  }

  lemma GrantedHistory(h: History, id: Id, token: Token, body: Body, attempt: int, due: int, until: int)
    requires GoodHistory(h) && token !in h.issued && GoodEntry(Some(Waiting(body, attempt, due)), h, id)
    ensures var k := Granted(h, id, token, attempt + 1);
            && GoodHistory(k) && Touches(h, k, id)
            && GoodEntry(Some(InFlight(body, attempt + 1, until, token)), k, id)
  {
  }

  lemma ClaimStep(s: Store, h: History, cfg: Config, id: Id, until: int, token: Token)
    requires GoodEntries(s, h) && GoodHistory(h) && cfg.Valid() && id in s.data.ready && token !in h.issued
    ensures var (t, lease) := ClaimScript(s, cfg, Some(id), until, token);
            && lease.Some? && lease.value == Lease(id, token, lease.value.attempt) && 1 <= lease.value.attempt
            && GoodEntries(t, Granted(h, id, token, lease.value.attempt))
            && GoodHistory(Granted(h, id, token, lease.value.attempt))
  {
    hide Abs, Domains, Deadlines, ClaimScript, Granted, GoodHistory, Touches;
    ClaimKeepsInv(s, cfg, Some(id), until, token);
    ClaimRefines(s, cfg, Some(id), until, token);
    assert GoodEntry(At(Abs(s.data), id), h, id);
    var t := ClaimScript(s, cfg, Some(id), until, token).0;
    var a := Abs(s.data)[id];
    GrantedHistory(h, id, token, a.body, a.attempt, a.due, until);
    OneEntry(s, t, h, Granted(h, id, token, a.attempt + 1), id);
  }

  // -------------------------------------------------------------------------------- worker steps

  /** The current lease in the abstract queue, as its grant describes it. */
  lemma CurrentLease(s: Store, h: History, p: Phase, cap: Id -> nat)
    requires GoodEntries(s, h) && GoodWorker(p, h, cap) && !p.Idle? && s.data.Holds(p.l.id, p.l.token)
    ensures var e := Abs(s.data);
            && Owns(e, p.l.id, p.l.token) && p.l.id in h.epoch
            && e[p.l.id].attempt == p.l.attempt == s.data.Attempt(p.l.id)
            && h.issued[p.l.token] == Grant(p.l.id, h.epoch[p.l.id], p.l.attempt)
            && GoodEntry(Some(e[p.l.id]), h, p.l.id)
  {
    AbsMatches(s.data, p.l.id);
    assert GoodEntry(At(Abs(s.data), p.l.id), h, p.l.id);
  }

  /** Calls that end a lease. */
  predicate Ends(a: Action) {
    a.PutBack? || a.Finish? || (a.Reject? && !BadPolicy(a))
  }

  /** What Record does to the history while the worker holds the current lease. */
  lemma RecordShape(s: Store, cfg: Config, h: History, p: Phase, i: Input)
    requires Fits(p, i) && p.l.token in h.issued
    ensures var k, t, a := Record(s, cfg, h, p, i), p.l.token, Plan(p, i);
            var ends := s.data.Holds(p.l.id, t) && Ends(a);
            && k.epoch == h.epoch && k.bodies == h.bodies && k.issued == h.issued
            && k.endings == (if ends then h.endings + [t] else h.endings)
            && k.acks == (if ends && a.Finish? then h.acks + [Birth(h.issued[t].id, h.issued[t].epoch)] else h.acks)
            && k.cleared == (if a.Clear? && s.data.Holds(p.l.id, t) then h.cleared + {t} else h.cleared)
            && k.calls == (if Delivers(p, i) then h.calls + [h.issued[t]] else h.calls)
  {
    hide NackLoss;
  }

  /** One ending of the current lease, and one ack of its birth. */
  lemma EndingKeeps(h: History, k: History, token: Token, b: Birth, acks: bool)
    requires GoodHistory(h) && token in h.issued && h.issued[token].id == b.id && token !in h.endings
    requires b.id in h.epoch && b.epoch == h.epoch[b.id] && b !in h.acks
    requires k == h.(endings := h.endings + [token], acks := if acks then h.acks + [b] else h.acks, pruned := k.pruned)
    ensures GoodHistory(k) && Touches(h, k, b.id)
  {
  }

  lemma QuietKeeps(h: History, k: History, token: Token, id: Id)
    requires GoodHistory(h) && token in h.issued && h.cleared <= k.cleared <= h.cleared + {token}
    requires k == h.(cleared := k.cleared, calls := k.calls)
    ensures GoodHistory(k) && Touches(h, k, id)
  {
  }

  lemma RecordKeeps(s: Store, cfg: Config, h: History, cap: Id -> nat, p: Phase, i: Input)
    requires GoodEntries(s, h) && GoodHistory(h) && GoodWorker(p, h, cap) && Fits(p, i)
    ensures GoodHistory(Record(s, cfg, h, p, i)) && Touches(h, Record(s, cfg, h, p, i), p.l.id)
  {
    var k, id, token := Record(s, cfg, h, p, i), p.l.id, p.l.token;
    RecordShape(s, cfg, h, p, i);
    RecordRest(s, cfg, h, p, i);
    if s.data.Holds(id, token) && Ends(Plan(p, i)) {
      CurrentLease(s, h, p, cap);
      hide GoodEntries, Record, Plan, Abs, GoodHistory, Touches;
      EndingKeeps(h, k, token, Birth(id, h.epoch[id]), Plan(p, i).Finish?);
    } else {
      hide GoodEntries, Record, Plan, Abs, GoodHistory, Touches;
      QuietKeeps(h, k, token, id);
    }
  }

  lemma RecordRest(s: Store, cfg: Config, h: History, p: Phase, i: Input)
    requires Fits(p, i)
    ensures var k := Record(s, cfg, h, p, i);
            && k.accepted == h.accepted && k.expired == h.expired
            && (!(s.data.Holds(p.l.id, p.l.token) && Ends(Plan(p, i))) ==> k.pruned == h.pruned)
            && (Delivers(p, i) ==> !Ends(Plan(p, i)) && !Plan(p, i).Clear?)
  {
    hide NackLoss;
  }

  lemma MovedIsGood(cfg: Config, en: Entry, after: Option<Entry>, a: Action, h: History, k: History, id: Id)
    requires GoodEntry(Some(en), h, id) && en.InFlight? && Moved(cfg, en, after, a)
    requires k.epoch == h.epoch && k.bodies == h.bodies && k.issued == h.issued
    requires !Ends(a) ==> k.endings == h.endings
    requires a.Finish? || k.acks == h.acks
    ensures GoodEntry(after, k, id)
  {
  }

  /** The entry of the current lease after its step. */
  lemma HolderEntry(s: Store, cfg: Config, h: History, cap: Id -> nat, p: Phase, i: Input)
    requires GoodEntries(s, h) && GoodHistory(h) && GoodWorker(p, h, cap) && Fits(p, i)
    requires s.data.Holds(p.l.id, p.l.token)
    ensures var t := Perform(s, cfg, p.l, Plan(p, i)).0;
            Domains(t.data) && GoodEntry(At(Abs(t.data), p.l.id), Record(s, cfg, h, p, i), p.l.id)
  {
    CurrentLease(s, h, p, cap);
    RecordShape(s, cfg, h, p, i);
    HolderEffect(s, cfg, p.l, Plan(p, i));
    hide GoodEntries, GoodHistory, Record, Plan, Perform, Abs, Domains, GoodEntry, Moved, GoodWorker;
    MovedIsGood(cfg, Abs(s.data)[p.l.id], At(Abs(Perform(s, cfg, p.l, Plan(p, i)).0.data), p.l.id), Plan(p, i), h,
      Record(s, cfg, h, p, i), p.l.id);
  }

  lemma WorkEntries(s: Store, h: History, cfg: Config, cap: Id -> nat, p: Phase, i: Input)
    requires GoodEntries(s, h) && GoodHistory(h) && cfg.Valid() && GoodWorker(p, h, cap) && Fits(p, i)
    ensures var k := Record(s, cfg, h, p, i);
            GoodEntries(Perform(s, cfg, p.l, Plan(p, i)).0, k) && GoodHistory(k)
  {
    var k, t, id := Record(s, cfg, h, p, i), Perform(s, cfg, p.l, Plan(p, i)).0, p.l.id;
    RecordKeeps(s, cfg, h, cap, p, i);
    PerformKeeps(s, cfg, p.l, Plan(p, i));
    if s.data.Holds(id, p.l.token) {
      HolderEntry(s, cfg, h, cap, p, i);
    } else {
      StaleEntry(s, cfg, h, cap, p, i);
    }
    forall x ensures x != id ==> At(Abs(t.data), x) == At(Abs(s.data), x) || At(Abs(t.data), x) == None {
      if x != id {
        OtherEffect(s, cfg, p.l, Plan(p, i), x);
      }
    }
    hide Abs, Domains, Deadlines, Perform, Plan, Record, GoodHistory, Touches, GoodEntry, GoodWorker, At;
    OneEntry(s, t, h, k, id);
  }

  lemma StaleEntry(s: Store, cfg: Config, h: History, cap: Id -> nat, p: Phase, i: Input)
    requires GoodEntries(s, h) && GoodWorker(p, h, cap) && Fits(p, i) && !s.data.Holds(p.l.id, p.l.token)
    ensures var t := Perform(s, cfg, p.l, Plan(p, i)).0;
            Domains(t.data) && GoodEntry(At(Abs(t.data), p.l.id), Record(s, cfg, h, p, i), p.l.id)
  {
    assert GoodEntry(At(Abs(s.data), p.l.id), h, p.l.id);
    RecordShape(s, cfg, h, p, i);
    if Plan(p, i).Mark? {
      StampEffect(s, cfg, p.l, Plan(p, i).now);
    } else {
      StaleCallIsNoop(s, cfg, p.l, Plan(p, i));
    }
    hide Perform, Plan, Record, Abs, Domains, Deadlines;
  }

  // ------------------------------------------------------------------------------------ workers

  lemma OtherWorker(q: Phase, h: History, k: History, cap: Id -> nat)
    requires GoodWorker(q, h, cap) && forall t :: t in h.issued ==> t in k.issued && k.issued[t] == h.issued[t]
    ensures GoodWorker(q, k, cap)
  {
  }

  /** The worker that moved is still in order. */
  lemma NextPhase(s: Store, cfg: Config, h: History, cap: Id -> nat, p: Phase, i: Input)
    requires GoodWorker(p, h, cap) && Fits(p, i) && (i.RouteFound? ==> GoodRoute(i.route, cap(p.l.id)))
    ensures var n := Advance(s, cfg, p, i).phase;
            GoodWorker(n, h, cap) && (n.Idle? || n.l == p.l)
  {
    hide Perform, Plan;
  }

  lemma WorkersKeep(y: System, cfg: Config, cap: Id -> nat, w: nat, i: Input)
    requires Sound(y, cap) && Enabled(y, Work(w, i), cap)
    ensures GoodWorkers(Apply(y, cfg, Work(w, i)), cap)
  {
    var p, h := y.Worker(w), y.h;
    assert w in y.workers && GoodWorker(p, h, cap);
    var z := Apply(y, cfg, Work(w, i));
    NextPhase(y.store, cfg, h, cap, p, i);
    RecordShape(y.store, cfg, h, p, i);
    hide GoodEntries, GoodHistory, GoodEntry, Advance, Record, GoodWorker, Plan, Perform;
    forall v | v in z.workers ensures GoodWorker(z.workers[v], z.h, cap) {
      if v != w {
        assert GoodWorker(y.workers[v], h, cap);
      }
      OtherWorker(z.workers[v], h, z.h, cap);
    }
    forall u, v | u in z.workers && v in z.workers && u != v ensures Apart(z.workers[u], z.workers[v]) {
      assert Apart(y.Worker(u), y.Worker(v));
    }
  }

  lemma WorkStep(y: System, cfg: Config, cap: Id -> nat, w: nat, i: Input)
    requires Sound(y, cap) && cfg.Valid() && Enabled(y, Work(w, i), cap)
    ensures Sound(Apply(y, cfg, Work(w, i)), cap)
  {
    var p := y.Worker(w);
    assert w in y.workers && GoodWorker(p, y.h, cap);
    WorkEntries(y.store, y.h, cfg, cap, p, i);
    WorkersKeep(y, cfg, cap, w, i);
    AdvanceStore(y.store, cfg, p, i);
    hide GoodEntries, GoodHistory, GoodWorkers, Advance, Record, Perform, Plan;
  }

  // -------------------------------------------------------------------------- the other steps

  lemma WorkersUntouched(y: System, z: System, cap: Id -> nat)
    requires GoodWorkers(y, cap) && z.workers == y.workers
    requires forall t :: t in y.h.issued ==> t in z.h.issued && z.h.issued[t] == y.h.issued[t]
    ensures GoodWorkers(z, cap)
  {
    forall w | w in z.workers ensures GoodWorker(z.workers[w], z.h, cap) {
      assert GoodWorker(y.workers[w], y.h, cap);
    }
    forall v, w | v in z.workers && w in z.workers && v != w ensures Apart(z.workers[v], z.workers[w]) {
      assert Apart(y.workers[v], y.workers[w]);
    }
  }

  lemma ClaimWorkers(y: System, z: System, cap: Id -> nat, w: nat, l: Lease)
    requires GoodWorkers(y, cap) && l.token !in y.h.issued && 1 <= l.attempt
    requires z.workers == y.workers[w := Holding(l)] && z.h == Granted(y.h, l.id, l.token, l.attempt)
    ensures GoodWorkers(z, cap)
  {
    forall v | v in z.workers ensures GoodWorker(z.workers[v], z.h, cap) {
      if v != w {
        assert GoodWorker(y.workers[v], y.h, cap);
      }
    }
    forall u, v | u in z.workers && v in z.workers && u != v ensures Apart(z.workers[u], z.workers[v]) {
      assert u != w ==> GoodWorker(y.workers[u], y.h, cap);
      assert v != w ==> GoodWorker(y.workers[v], y.h, cap);
      assert u != w && v != w ==> Apart(y.workers[u], y.workers[v]);
    }
  }

  /** The leases a reclaim pass ends: current ones, each once. */
  lemma ReclaimTokens(s: Store, h: History, ids: seq<Id>, now: int, limit: nat)
    requires GoodEntries(s, h) && GoodHistory(h) && IsRange(s.data.leased, now, limit, ids)
    ensures var ts := TokensOf(s.data, ids);
            && |ts| == |ids|
            && (forall i :: 0 <= i < |ids| ==> ts[i] in h.issued && h.issued[ts[i]].id == ids[i] && ts[i] !in h.endings)
            && (forall i, j :: 0 <= i < j < |ids| ==> ts[i] != ts[j])
  {
    var ts := TokensOf(s.data, ids);
    RangeDistinct(s.data.leased, now, limit, ids);
    forall i | 0 <= i < |ids| ensures ts[i] in h.issued && h.issued[ts[i]].id == ids[i] && ts[i] !in h.endings {
      AbsMatches(s.data, ids[i]);
      assert GoodEntry(At(Abs(s.data), ids[i]), h, ids[i]);
    }
  }

  lemma ReclaimedEntry(en: Entry, marked: bool, h: History, k: History, id: Id, now: int)
    requires GoodEntry(Some(en), h, id) && en.InFlight? && k == h.(endings := k.endings)
    ensures GoodEntry(Some(Waiting(en.body, Refund(en.attempt, marked), now)), k, id)
  {
  }

  lemma KeptEntry(en: Option<Entry>, h: History, k: History, id: Id)
    requires GoodEntry(en, h, id) && k == h.(endings := k.endings)
    requires en.Some? && en.value.InFlight? ==> forall t :: t in k.endings && t !in h.endings ==> t in h.issued && h.issued[t].id != id
    ensures GoodEntry(en, k, id)
  {
  }

  lemma ReclaimAt(e: Entries, missing: map<Id, int>, ids: seq<Id>, now: int, id: Id)
    ensures At(ReclaimEntries(e, missing, ids, now), id) ==
            if id in e && id in ids && e[id].InFlight?
            then Some(Waiting(e[id].body, Refund(e[id].attempt, id in missing), now)) else At(e, id)
  {
  }

  lemma ReclaimStep(s: Store, h: History, cfg: Config, ids: seq<Id>, now: int, limit: nat)
    requires GoodEntries(s, h) && GoodHistory(h) && cfg.Valid() && IsRange(s.data.leased, now, limit, ids)
    ensures var k := h.(endings := h.endings + TokensOf(s.data, ids));
            GoodEntries(ReclaimScript(s, cfg, ids, now), k) && GoodHistory(k)
  {
    hide Abs, Domains, Deadlines, ReclaimScript, IsRange, GoodEntry, ReclaimEntries, At, TokensOf;
    var t := ReclaimScript(s, cfg, ids, now);
    var ts := TokensOf(s.data, ids);
    var k := h.(endings := h.endings + ts);
    ReclaimTokens(s, h, ids, now, limit);
    ReclaimKeepsInv(s, cfg, ids, now);
    ReclaimRefines(s, cfg, ids, now);
    var e := Abs(s.data);
    forall id ensures GoodEntry(At(Abs(t.data), id), k, id) {
      assert GoodEntry(At(e, id), h, id);
      ReclaimAt(e, s.data.missing, ids, now, id);
      AtIn(e, id);
      if id in e && id in ids && e[id].InFlight? {
        ReclaimedEntry(e[id], id in s.data.missing, h, k, id, now);
      } else {
        KeptEntry(At(e, id), h, k, id);
      }
    }
  }

  /** Prune and expiry only remove entries. */
  lemma OnlyRemoves(s: Store, t: Store, h: History, k: History)
    requires GoodEntries(s, h) && Inv(t) && k == h.(pruned := k.pruned, expired := k.expired)
    requires forall id :: At(Abs(t.data), id) == At(Abs(s.data), id) || At(Abs(t.data), id) == None
    ensures GoodEntries(t, k)
  {
    hide Abs, Domains, Deadlines, At;
    forall id ensures GoodEntry(At(Abs(t.data), id), k, id) {
      assert GoodEntry(At(Abs(s.data), id), h, id);
    }
  }

  lemma PruneStep(s: Store, cfg: Config, h: History, k: History, cutoff: int)
    requires GoodEntries(s, h) && k == h.(pruned := k.pruned)
    ensures GoodEntries(PruneScript(s, cutoff), k)
  {
    hide Abs, Domains, Deadlines, PruneScript, GoodEntry;
    PruneKeepsInv(s, cfg, cutoff);
    PruneRefines(s, cutoff);
    OnlyRemoves(s, PruneScript(s, cutoff), h, k);
  }

  lemma ElapseStep(s: Store, h: History, k: History, clock: int)
    requires GoodEntries(s, h) && k == h.(expired := k.expired) && s.clock <= clock
    ensures GoodEntries(Tick(s, clock), k)
  {
    hide Abs, Domains, Deadlines, Tick, GoodEntry;
    TickRefines(s, clock);
    OnlyRemoves(s, Tick(s, clock), h, k);
  }

  lemma RefusedEnqueue(s: Store, cfg: Config, id: Id, body: Body, due: int)
    requires !EnqueueScript(s, cfg, id, body, due).1
    ensures EnqueueScript(s, cfg, id, body, due) == (s, false)
  {
  }

  lemma RefusedReplay(s: Store, cfg: Config, id: Id, due: int)
    requires !ReplayScript(s, cfg, id, due).1
    ensures ReplayScript(s, cfg, id, due) == (s, false)
  {
  }

  lemma ProducerKeepsSound(y: System, cfg: Config, cap: Id -> nat, ev: Event)
    requires Sound(y, cap) && cfg.Valid() && (ev.Enqueue? || ev.Replay?)
    ensures Sound(Apply(y, cfg, ev), cap)
  {
    var s, h := y.store, y.h;
    var z := Apply(y, cfg, ev);
    hide GoodEntries, GoodWorkers, EnqueueScript, ReplayScript;
    if ev.Enqueue? {
      if EnqueueScript(s, cfg, ev.id, ev.body, ev.due).1 {
        EnqueueStep(s, h, cfg, ev.id, ev.body, ev.due);
        BornHistory(h, ev.id, ev.body);
        WorkersUntouched(y, z, cap);
      } else {
        RefusedEnqueue(s, cfg, ev.id, ev.body, ev.due);
      }
    } else if ReplayScript(s, cfg, ev.id, ev.due).1 {
      ReplayStep(s, h, cfg, ev.id, ev.due);
      BornHistory(h, ev.id, Body(""));
      WorkersUntouched(y, z, cap);
    } else {
      RefusedReplay(s, cfg, ev.id, ev.due);
    }
  }

  lemma ReclaimKeepsSound(y: System, cfg: Config, cap: Id -> nat, ev: Event)
    requires Sound(y, cap) && cfg.Valid() && Enabled(y, ev, cap) && ev.Reclaim?
    ensures Sound(Apply(y, cfg, ev), cap)
  {
    hide GoodEntries, GoodWorkers, IsRange, ReclaimScript, TokensOf;
    ReclaimStep(y.store, y.h, cfg, ev.ids, ev.now, ev.limit);
    WorkersUntouched(y, Apply(y, cfg, ev), cap);
  }

  lemma PruneKeepsSound(y: System, cfg: Config, cap: Id -> nat, ev: Event)
    requires Sound(y, cap) && cfg.Valid() && ev.Prune?
    ensures Sound(Apply(y, cfg, ev), cap)
  {
    hide GoodEntries, GoodWorkers, PruneScript, UpTo;
    PruneStep(y.store, cfg, y.h, Apply(y, cfg, ev).h, ev.cutoff);
    WorkersUntouched(y, Apply(y, cfg, ev), cap);
  }

  lemma ElapseKeepsSound(y: System, cfg: Config, cap: Id -> nat, ev: Event)
    requires Sound(y, cap) && cfg.Valid() && ev.Elapse? && y.store.clock <= ev.clock
    ensures Sound(Apply(y, cfg, ev), cap)
  {
    hide GoodEntries, GoodWorkers, Tick;
    ElapseStep(y.store, y.h, Apply(y, cfg, ev).h, ev.clock);
    WorkersUntouched(y, Apply(y, cfg, ev), cap);
  }

  /** A claim that finds a due event. */
  lemma ClaimShape(y: System, cfg: Config, ev: Event)
    requires ev.Claim? && ev.first.Some? && Domains(y.store.data) && ev.first.value in y.store.data.ready
    ensures var z, id, e := Apply(y, cfg, ev), ev.first.value, Abs(y.store.data);
            && id in e && e[id].Waiting?
            && var n := e[id].attempt + 1;
               && Domains(z.store.data) && z.store.data.missing == y.store.data.missing
               && Abs(z.store.data) == e[id := InFlight(e[id].body, n, ev.until, ev.token)]
               && z.workers == y.workers[ev.w := Holding(Lease(id, ev.token, n))]
               && z.h == Granted(y.h, id, ev.token, n)
  {
    hide Domains, Abs, ClaimScript, Granted;
    ClaimRefines(y.store, cfg, ev.first, ev.until, ev.token);
  }

  lemma ClaimKeepsSound(y: System, cfg: Config, cap: Id -> nat, ev: Event)
    requires Sound(y, cap) && cfg.Valid() && Enabled(y, ev, cap) && ev.Claim?
    ensures Sound(Apply(y, cfg, ev), cap)
  {
    hide GoodEntries, GoodWorkers;
    if ev.first.Some? {
      ClaimStep(y.store, y.h, cfg, ev.first.value, ev.until, ev.token);
      ClaimWorkers(y, Apply(y, cfg, ev), cap, ev.w, ClaimScript(y.store, cfg, ev.first, ev.until, ev.token).1.value);
    }
  }

  /** Every step of the system keeps the invariant. */
  lemma StepKeepsSound(y: System, cfg: Config, cap: Id -> nat, ev: Event)
    requires Sound(y, cap) && cfg.Valid() && Enabled(y, ev, cap)
    ensures Sound(Apply(y, cfg, ev), cap)
  {
    hide Sound, Apply;
    match ev
    case Enqueue(_, _, _) => ProducerKeepsSound(y, cfg, cap, ev);
    case Replay(_, _) => ProducerKeepsSound(y, cfg, cap, ev);
    case Reclaim(_, _, _) => ReclaimKeepsSound(y, cfg, cap, ev);
    case Prune(_) => PruneKeepsSound(y, cfg, cap, ev);
    case Elapse(_) => ElapseKeepsSound(y, cfg, cap, ev);
    case Claim(_, _, _, _, _) => ClaimKeepsSound(y, cfg, cap, ev);
    case Work(w, input) => WorkStep(y, cfg, cap, w, input);
  }
}
