/** What one queue call of a worker does to the abstract queue: nothing under a stale token, one move of
    its own entry under the current one, and never anything to another live entry. */
module WorkerEffects {
  import opened Prelude
  import opened SortedSets
  import opened QueueScripts
  import opened QueueRefinement
  import opened QueueExpiry
  import opened ProcessOne

  ghost function At(e: Entries, id: Id): Option<Entry> {
    if id in e then Some(e[id]) else None
  }

  lemma AtIn(e: Entries, id: Id)
    ensures At(e, id) == if id in e then Some(e[id]) else None
  {
  }

  /** Fencing of one call: a lease that is not the current one changes nothing, and learns so. The
      first-miss stamp is the one unfenced write. */
  lemma StaleCallIsNoop(s: Store, cfg: Config, l: Lease, a: Action)
    requires !s.data.Holds(l.id, l.token) && !a.Mark?
    ensures Perform(s, cfg, l, a) == (s, Done(false))
  {
  }

  lemma KeptSelf(s: Store, cfg: Config)
    requires Inv(s)
    ensures Kept(s, s, cfg)
  {
  }

  /** Every call keeps the domains exact and the deadlines common. */
  lemma PerformKeeps(s: Store, cfg: Config, l: Lease, a: Action)
    requires Inv(s) && cfg.Valid()
    ensures Kept(s, Perform(s, cfg, l, a).0, cfg)
  {
    hide Kept;
    match a
    case Nothing => KeptSelf(s, cfg);
    case Mark(now) => MarkerScriptsKeepInv(s, cfg, l.id, l.token, now);
    case Clear => MarkerScriptsKeepInv(s, cfg, l.id, l.token, 0);
    case PutBack(due) => DeferKeepsInv(s, cfg, l.id, l.token, due);
    case Reject(now, delay, maxAttempts, meta) =>
      KeptSelf(s, cfg);
      NackKeepsInv(s, cfg, l.id, l.token, now, delay, maxAttempts, meta);
    case Extend(until) => RenewKeepsInv(s, cfg, l.id, l.token, until);
    case Finish => AckKeepsInv(s, cfg, l.id, l.token);
  }

  predicate BadPolicy(a: Action) {
    a.Reject? && (a.maxAttempts < 1 || a.delay < 0)
  }

  /** A dead-lettered entry; with a retention below one millisecond nothing dead is kept. */
  function Corpse(cfg: Config, en: Entry, at: int, meta: Body): Option<Entry> {
    if cfg.dlqRetention > 0 then Some(Dead(en.body, at, meta)) else None
  }

  /** Where the current lease's entry goes. */
  ghost predicate Moved(cfg: Config, en: Entry, after: Option<Entry>, a: Action)
    requires en.InFlight?
  {
    match a
    case Extend(until) => after == Some(en.(until := until))
    case PutBack(due) => after == Some(Waiting(en.body, en.attempt - 1, due))
    case Finish => after == None
    case Reject(now, delay, maxAttempts, meta) =>
      if BadPolicy(a) then after == Some(en)
      else if en.attempt < maxAttempts then after == Some(Waiting(en.body, en.attempt, now + delay))
      else after == Corpse(cfg, en, now, meta)
    case _ => after == Some(en)
  }

  /** Where its marker goes. */
  predicate MarkedAfter(marked: bool, a: Action) {
    match a
    case Mark(_) => true
    case Clear => false
    case Finish => false
    case Reject(_, _, _, _) => BadPolicy(a) && marked
    case _ => marked
  }

  lemma NackMoves(e: Entries, cfg: Config, id: Id, now: int, delay: int, maxAttempts: int, meta: Body, x: Id)
    requires id in e && e[id].InFlight?
    ensures var f := NackEntries(e, cfg, id, now, delay, maxAttempts, meta);
            if x != id then At(f, x) == At(e, x) || (At(e, x).Some? && At(e, x).value.Dead? && At(f, x) == None)
            else if e[id].attempt < maxAttempts then At(f, id) == Some(Waiting(e[id].body, e[id].attempt, now + delay))
            else At(f, id) == Corpse(cfg, e[id], now, meta)
  {
  }

  lemma HolderEffect(s: Store, cfg: Config, l: Lease, a: Action)
    requires Domains(s.data) && Owns(Abs(s.data), l.id, l.token)
    ensures var t := Perform(s, cfg, l, a).0;
            && Domains(t.data) && Moved(cfg, Abs(s.data)[l.id], At(Abs(t.data), l.id), a)
            && (l.id in t.data.missing <==> MarkedAfter(l.id in s.data.missing, a))
  {
    hide Domains, Abs, RouteMissingScript, ClearRouteMissingScript, DeferScript, NackScript, RenewScript, AckScript, NackEntries;
    match a
    case Nothing =>
    case Mark(now) => MarkerScriptsRefine(s, cfg, l.id, l.token, now);
    case Clear => MarkerScriptsRefine(s, cfg, l.id, l.token, 0);
    case PutBack(due) => DeferRefines(s, cfg, l.id, l.token, due);
    case Reject(now, delay, maxAttempts, meta) =>
      NackRefines(s, cfg, l.id, l.token, now, delay, maxAttempts, meta);
      NackMoves(Abs(s.data), cfg, l.id, now, delay, maxAttempts, meta, l.id);
    case Extend(until) => RenewRefines(s, cfg, l.id, l.token, until);
    case Finish => AckRefines(s, l.id, l.token);
  }

  /** Another id keeps its marker, and its entry unless it is dead and overdue. */
  ghost predicate Spared(s: Store, t: Store, x: Id)
    requires Domains(s.data)
  {
    && Domains(t.data)
    && (At(Abs(t.data), x) == At(Abs(s.data), x)
        || (At(Abs(s.data), x).Some? && At(Abs(s.data), x).value.Dead? && At(Abs(t.data), x) == None))
    && (x in t.data.missing <==> x in s.data.missing)
    && (x in s.data.missing ==> t.data.missing[x] == s.data.missing[x])
  }

  lemma SparedSelf(s: Store, x: Id)
    requires Domains(s.data)
    ensures Spared(s, s, x)
  {
  }

  lemma OtherEffect(s: Store, cfg: Config, l: Lease, a: Action, x: Id)
    requires Domains(s.data) && x != l.id
    ensures Spared(s, Perform(s, cfg, l, a).0, x)
  {
    if a.Mark? {
      MarkerScriptsRefine(s, cfg, l.id, l.token, a.now);
      hide Domains, Abs, RouteMissingScript;
    } else if !s.data.Holds(l.id, l.token) {
      StaleCallIsNoop(s, cfg, l, a);
      SparedSelf(s, x);
      hide Perform, Spared;
    } else {
      OtherLease(s, cfg, l, a, x);
    }
  }

  lemma OtherLease(s: Store, cfg: Config, l: Lease, a: Action, x: Id)
    requires Domains(s.data) && x != l.id && s.data.Holds(l.id, l.token) && !a.Mark?
    ensures Spared(s, Perform(s, cfg, l, a).0, x)
  {
    AbsMatches(s.data, l.id);
    hide Domains, Abs, ClearRouteMissingScript, DeferScript, NackScript, RenewScript, AckScript, NackEntries;
    match a
    case Nothing =>
    case Clear => MarkerScriptsRefine(s, cfg, l.id, l.token, 0);
    case PutBack(due) => DeferRefines(s, cfg, l.id, l.token, due);
    case Reject(now, delay, maxAttempts, meta) =>
      SparedSelf(s, x);
      OtherNack(s, cfg, l, now, delay, maxAttempts, meta, x);
      hide Spared;
    case Extend(until) => RenewRefines(s, cfg, l.id, l.token, until);
    case Finish => AckRefines(s, l.id, l.token);
  }

  lemma OtherNack(s: Store, cfg: Config, l: Lease, now: int, delay: int, maxAttempts: int, meta: Body, x: Id)
    requires Domains(s.data) && x != l.id && Owns(Abs(s.data), l.id, l.token)
    ensures Spared(s, NackScript(s, cfg, l.id, l.token, now, delay, maxAttempts, meta).0, x)
  {
    hide Domains, Abs, NackScript, NackEntries;
    NackRefines(s, cfg, l.id, l.token, now, delay, maxAttempts, meta);
    NackMoves(Abs(s.data), cfg, l.id, now, delay, maxAttempts, meta, x);
  }

  /** A stamp by anybody changes one marker and no entry. */
  lemma StampEffect(s: Store, cfg: Config, l: Lease, now: int)
    requires Domains(s.data)
    ensures var t := Perform(s, cfg, l, Mark(now)).0;
            && Domains(t.data) && Abs(t.data) == Abs(s.data) && t.data.tokens == s.data.tokens
            && l.id in t.data.missing
  {
    MarkerScriptsRefine(s, cfg, l.id, l.token, now);
    hide Domains, Abs;
  }

  lemma AdvanceStore(s: Store, cfg: Config, p: Phase, i: Input)
    requires Fits(p, i)
    ensures Advance(s, cfg, p, i).store == Perform(s, cfg, p.l, Plan(p, i)).0
  {
    hide Perform, Plan;
  }

  // ------------------------------------------------------------------------- id by id, exactly

  /** A nack at the limit removes exactly the dead entries past retention beside its own, and with
      retention 0 all of them; below the limit it touches no other entry. */
  lemma NackElsewhere(s: Store, cfg: Config, l: Lease, now: int, delay: int, maxAttempts: int, meta: Body, x: Id)
    requires Domains(s.data) && Owns(Abs(s.data), l.id, l.token) && x != l.id
    ensures var t, e := NackScript(s, cfg, l.id, l.token, now, delay, maxAttempts, meta).0, Abs(s.data);
            && Domains(t.data)
            && At(Abs(t.data), x) ==
                 if e[l.id].attempt >= maxAttempts && x in e && e[x].Dead?
                    && (e[x].failedAt <= now - cfg.dlqRetention || cfg.dlqRetention <= 0)
                 then None else At(e, x)
  {
    hide Domains, Abs, NackScript;
    NackRefines(s, cfg, l.id, l.token, now, delay, maxAttempts, meta);
  }

  /** A reclaim pass sends exactly the listed leases back, due now, with the attempt given back to those
      whose route was missing. */
  lemma ReclaimOutcome(s: Store, cfg: Config, ids: seq<Id>, now: int, x: Id)
    requires Domains(s.data)
    ensures var t, e := ReclaimScript(s, cfg, ids, now), Abs(s.data);
            && Domains(t.data) && t.data.missing == s.data.missing
            && At(Abs(t.data), x) ==
                 if x in ids && x in e && e[x].InFlight? then
                   Some(Waiting(e[x].body, if x in s.data.missing then e[x].attempt - 1 else e[x].attempt, now))
                 else At(e, x)
  {
    hide Domains, Abs, ReclaimScript;
    ReclaimRefines(s, cfg, ids, now);
  }

  /** A prune removes exactly the dead entries at or before the cutoff. */
  lemma PruneOutcome(s: Store, cutoff: int, x: Id)
    requires Domains(s.data)
    ensures var t, e := PruneScript(s, cutoff), Abs(s.data);
            && Domains(t.data) && t.data.missing == s.data.missing
            && At(Abs(t.data), x) == if x in e && e[x].Dead? && e[x].failedAt <= cutoff then None else At(e, x)
  {
    hide Domains, Abs, PruneScript;
    PruneRefines(s, cutoff);
  }
}
