/** What every run of the dispatcher guarantees, wherever first-miss stamps land. */
module DispatchTheorems {
  import opened Prelude
  import opened SortedSets
  import opened QueueScripts
  import opened QueueRefinement
  import opened QueueExpiry
  import opened ProcessOne
  import opened WorkerEffects
  import opened DispatchRuns

  // --------------------------------------------------------------------------------------- runs

  ghost predicate Legal(y: System, cfg: Config, cap: Id -> nat, evs: seq<Event>)
    decreases |evs|
  {
    evs == [] || (Enabled(y, evs[0], cap) && Legal(Apply(y, cfg, evs[0]), cfg, cap, evs[1..]))
  }

  ghost function Exec(y: System, cfg: Config, cap: Id -> nat, evs: seq<Event>): System
    requires Legal(y, cfg, cap, evs)
    decreases |evs|
  {
    if evs == [] then y else Exec(Apply(y, cfg, evs[0]), cfg, cap, evs[1..])
  }

  lemma StartIsSound(cap: Id -> nat)
    ensures Sound(START, cap)
  {
    forall id ensures Consistent(NOTHING, id) {
    }
    assert Abs(NOTHING) == map[];
  }

  lemma {:induction false} RunKeepsSound(y: System, cfg: Config, cap: Id -> nat, evs: seq<Event>)
    requires Sound(y, cap) && cfg.Valid() && Legal(y, cfg, cap, evs)
    ensures Sound(Exec(y, cfg, cap, evs), cap)
    decreases |evs|
  {
    if evs != [] {
      hide Sound, Enabled, Apply;
      StepKeepsSound(y, cfg, cap, evs[0]);
      RunKeepsSound(Apply(y, cfg, evs[0]), cfg, cap, evs[1..]);
    }
  }

  // ------------------------------------------------------- attempt agreement, permanent failures

  lemma HolderKnowsAttempt(y: System, cap: Id -> nat, w: nat)
    requires Sound(y, cap) && w in y.workers && !y.workers[w].Idle?
    ensures var l := y.workers[w].l;
            1 <= l.attempt && (y.store.data.Holds(l.id, l.token) ==> l.attempt == y.store.data.Attempt(l.id))
  {
    var p := y.workers[w];
    assert GoodWorker(p, y.h, cap);
    if y.store.data.Holds(p.l.id, p.l.token) {
      CurrentLease(y.store, y.h, p, cap);
    }
  }

  /** In every run, whoever holds the current lease knows the stored attempt counter. */
  lemma AttemptAgreement(cfg: Config, cap: Id -> nat, evs: seq<Event>, w: nat)
    requires cfg.Valid() && Legal(START, cfg, cap, evs) && !Exec(START, cfg, cap, evs).Worker(w).Idle?
    ensures var y := Exec(START, cfg, cap, evs);
            var l := y.Worker(w).l;
            1 <= l.attempt && (y.store.data.Holds(l.id, l.token) ==> l.attempt == y.store.data.Attempt(l.id))
  {
    StartIsSound(cap);
    RunKeepsSound(START, cfg, cap, evs);
    HolderKnowsAttempt(Exec(START, cfg, cap, evs), cap, w);
  }

  /** In every run a permanent failure, a route missing for too long and an over-budget lease are
      dead-lettered or find their lease gone: they never requeue the event and never fail the policy
      check. */
  lemma PermanentNeverRequeues(cfg: Config, cap: Id -> nat, evs: seq<Event>, w: nat, now: int, maxAttempts: int, meta: Body)
    requires cfg.Valid() && Legal(START, cfg, cap, evs) && !Exec(START, cfg, cap, evs).Worker(w).Idle?
    requires 1 <= maxAttempts <= Exec(START, cfg, cap, evs).Worker(w).l.attempt
    ensures var y := Exec(START, cfg, cap, evs);
            var l := y.Worker(w).l;
            var reply := NackScript(y.store, cfg, l.id, l.token, now, 0, maxAttempts, meta).1;
            reply == if y.store.data.Holds(l.id, l.token) then DeadLettered else TokenMismatch
  {
    StartIsSound(cap);
    RunKeepsSound(START, cfg, cap, evs);
    var y := Exec(START, cfg, cap, evs);
    var l := y.Worker(w).l;
    HolderKnowsAttempt(y, cap, w);
    hide Legal, Exec;
    AbsMatches(y.store.data, l.id);
    hide Abs, Domains, Deadlines;
    NackRefines(y.store, cfg, l.id, l.token, now, 0, maxAttempts, meta);
  }

  // ------------------------------------------------------------------------------------ fencing

  /** No id is leased under this token. */
  ghost predicate Gone(d: Data, token: Token) {
    forall id :: id in d.tokens ==> d.tokens[id] != token
  }

  ghost predicate NoNewTokens(d: Data, f: Data) {
    forall id :: id in f.tokens ==> id in d.tokens && f.tokens[id] == d.tokens[id]
  }

  lemma {:induction false} ReclaimNoNewTokens(d: Data, ids: seq<Id>, now: int)
    ensures NoNewTokens(d, ReclaimedAll(d, ids, now))
  {
    if ids != [] {
      ReclaimNoNewTokens(d, ids[..|ids| - 1], now);
    }
  }

  lemma PerformNoNewTokens(s: Store, cfg: Config, l: Lease, a: Action)
    ensures NoNewTokens(s.data, Perform(s, cfg, l, a).0.data)
  {
  }

  /** Only a claim installs a token, and only its own fresh one. */
  lemma StepFences(y: System, cfg: Config, cap: Id -> nat, ev: Event, token: Token)
    requires Enabled(y, ev, cap) && token in y.h.issued && Gone(y.store.data, token)
    ensures var z := Apply(y, cfg, ev);
            token in z.h.issued && Gone(z.store.data, token)
  {
    match ev
    case Enqueue(_, _, _) =>
    case Replay(_, _) =>
    case Reclaim(ids, now, _) => ReclaimNoNewTokens(y.store.data, ids, now);
    case Prune(_) =>
    case Elapse(_) =>
    case Claim(_, _, _, _, _) =>
    case Work(w, input) =>
      var p := y.Worker(w);
      PerformNoNewTokens(y.store, cfg, p.l, Plan(p, input));
      AdvanceStore(y.store, cfg, p, input);
      RecordIssues(y.store, cfg, y.h, p, input);
      hide Perform, Plan, Record, Advance;
  }

  lemma RecordIssues(s: Store, cfg: Config, h: History, p: Phase, i: Input)
    requires Fits(p, i)
    ensures Record(s, cfg, h, p, i).issued == h.issued
  {
    hide NackLoss;
  }

  /** Once a lease is gone it is gone for good: after any further run every ack, nack, renew, defer or
      clear carrying its token leaves the whole store as it is. */
  lemma {:induction false} FencedForever(y: System, cfg: Config, cap: Id -> nat, evs: seq<Event>, l: Lease, a: Action)
    requires Legal(y, cfg, cap, evs) && l.token in y.h.issued && Gone(y.store.data, l.token) && !a.Mark?
    ensures var z := Exec(y, cfg, cap, evs);
            Gone(z.store.data, l.token) && Perform(z.store, cfg, l, a) == (z.store, Done(false))
    decreases |evs|
  {
    if evs == [] {
      StaleCallIsNoop(y.store, cfg, l, a);
    } else {
      hide Perform, Enabled, Apply, Gone;
      StepFences(y, cfg, cap, evs[0], l.token);
      FencedForever(Apply(y, cfg, evs[0]), cfg, cap, evs[1..], l, a);
    }
  }

  /** Each lease is ended at most once, by its own call or by a reclaim, and each enqueue or replay is
      acked at most once. */
  lemma EndedOnceAckedOnce(cfg: Config, cap: Id -> nat, evs: seq<Event>)
    requires cfg.Valid() && Legal(START, cfg, cap, evs)
    ensures var h := Exec(START, cfg, cap, evs).h;
            && (forall i, j :: 0 <= i < j < |h.endings| ==> h.endings[i] != h.endings[j])
            && (forall i, j :: 0 <= i < j < |h.acks| ==> h.acks[i] != h.acks[j])
  {
    StartIsSound(cap);
    RunKeepsSound(START, cfg, cap, evs);
  }

  /** Payload bytes never change: every entry still carries what its enqueue stored. */
  lemma PayloadPreserved(cfg: Config, cap: Id -> nat, evs: seq<Event>, id: Id)
    requires cfg.Valid() && Legal(START, cfg, cap, evs)
    ensures var y := Exec(START, cfg, cap, evs);
            && Domains(y.store.data)
            && (id in Abs(y.store.data) ==> id in y.h.bodies && Abs(y.store.data)[id].body == y.h.bodies[id])
  {
    StartIsSound(cap);
    RunKeepsSound(START, cfg, cap, evs);
    var y := Exec(START, cfg, cap, evs);
    assert GoodEntry(At(Abs(y.store.data), id), y.h, id);
  }
}
