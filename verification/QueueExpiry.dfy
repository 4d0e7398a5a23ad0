/** Key deadlines. PEXPIRE always covers a whole key group, so the existing keys of a group share one
    deadline: they vanish together, and the domains stay exact across expiry. */
module QueueExpiry {
  import opened Prelude
  import opened SortedSets
  import opened QueueScripts
  import opened QueueRefinement

  /** The existing keys of a group carry one common deadline, still ahead of the server clock. */
  ghost predicate OneDeadline(s: Store, g: Group) {
    && (forall k :: In(k, g) && Exists(s.data, k) ==> k in s.deadline && s.clock < s.deadline[k])
    && (forall j, k :: In(j, g) && In(k, g) && Exists(s.data, j) && Exists(s.data, k) ==>
          s.deadline[j] == s.deadline[k])
  }

  ghost predicate Deadlines(s: Store) {
    forall g :: OneDeadline(s, g)
  }

  ghost predicate Inv(s: Store) {
    Domains(s.data) && Deadlines(s)
  }

  /** How long the keys of a group live from their last refresh. */
  function Life(cfg: Config, g: Group): int {
    if g.DeadKeys? then cfg.dlqRetention else cfg.liveTTL
  }

  /** Every deadline after a script is the old one, or its group's full life from now. */
  ghost predicate Refreshed(s: Store, t: Store, cfg: Config) {
    && t.clock == s.clock
    && forall k, g :: In(k, g) && k in t.deadline ==>
         t.deadline[k] == s.clock + Life(cfg, g) || (k in s.deadline && t.deadline[k] == s.deadline[k])
  }

  ghost predicate Kept(s: Store, t: Store, cfg: Config) {
    Inv(t) && Refreshed(s, t, cfg)
  }

  /** The key groups do not overlap. */
  lemma GroupsDisjoint(k: Key, g: Group, h: Group)
    requires In(k, g) && In(k, h)
    ensures g == h
  {
  }

  /** Why deadlines stay equal: a script refreshes a whole group or creates no key in it. */
  lemma WithKeepsDeadlines(s: Store, d: Data, g: Group, ttl: int)
    requires Deadlines(s) && (g != NoKeys ==> ttl > 0)
    requires forall k :: Exists(d, k) && !In(k, g) ==> Exists(s.data, k)
    ensures Deadlines(s.With(d, g, ttl))
    ensures forall cfg: Config :: g == NoKeys || ttl == Life(cfg, g) ==> Refreshed(s, s.With(d, g, ttl), cfg)
  {
    hide Exists;
    var t := s.With(d, g, ttl);
    forall h ensures OneDeadline(t, h) {
      assert OneDeadline(s, h);
      forall k | In(k, h) && Exists(d, k)
        ensures k in t.deadline && t.deadline[k] == if g == h then s.clock + ttl else s.deadline[k]
      {
        if In(k, g) {
          GroupsDisjoint(k, g, h);
        }
      }
    }
  }

  lemma EnqueueKeepsInv(s: Store, cfg: Config, id: Id, body: Body, due: int)
    requires Inv(s) && cfg.Valid()
    ensures Kept(s, EnqueueScript(s, cfg, id, body, due).0, cfg)
  {
    EnqueueRefines(s, cfg, id, body, due);
    WithKeepsDeadlines(s, Enqueued(s.data, id, body, due), LiveKeys, cfg.liveTTL);
  }

  lemma ClaimKeepsInv(s: Store, cfg: Config, first: Option<Id>, until: int, token: Token)
    requires Inv(s) && cfg.Valid() && (first.Some? ==> first.value in s.data.ready)
    ensures Kept(s, ClaimScript(s, cfg, first, until, token).0, cfg)
  {
    ClaimRefines(s, cfg, first, until, token);
    if first.Some? {
      AbsMatches(s.data, first.value);
      WithKeepsDeadlines(s, Claimed(s.data, first.value, until, token), LiveKeys, cfg.liveTTL);
    }
  }

  lemma AckedCreatesNothing(d: Data, id: Id, k: Key)
    requires Exists(Acked(d, id), k)
    ensures Exists(d, k)
  {
  }

  lemma AckKeepsInv(s: Store, cfg: Config, id: Id, token: Token)
    requires Inv(s)
    ensures Kept(s, AckScript(s, id, token).0, cfg)
  {
    AckRefines(s, id, token);
    forall k | Exists(Acked(s.data, id), k) ensures Exists(s.data, k) {
      AckedCreatesNothing(s.data, id, k);
    }
    hide Exists, Acked, Domains;
    WithKeepsDeadlines(s, Acked(s.data, id), NoKeys, 0);
  }

  lemma RenewKeepsInv(s: Store, cfg: Config, id: Id, token: Token, until: int)
    requires Inv(s) && cfg.Valid()
    ensures Kept(s, RenewScript(s, cfg, id, token, until).0, cfg)
  {
    RenewRefines(s, cfg, id, token, until);
    WithKeepsDeadlines(s, s.data.(leased := s.data.leased[id := until]), LiveKeys, cfg.liveTTL);
  }

  lemma DeferKeepsInv(s: Store, cfg: Config, id: Id, token: Token, due: int)
    requires Inv(s) && cfg.Valid()
    ensures Kept(s, DeferScript(s, cfg, id, token, due).0, cfg)
  {
    DeferRefines(s, cfg, id, token, due);
    WithKeepsDeadlines(s, Deferred(s.data, id, due), LiveKeys, cfg.liveTTL);
  }

  lemma GraveCreatesNothing(d: Data, cfg: Config, id: Id, body: Body, meta: Body, now: int, k: Key)
    requires Exists(Grave(Dropped(d, id), cfg, id, body, meta, now), k)
    requires !In(k, DeadKeys) || cfg.dlqRetention <= 0
    ensures Exists(d, k)
  {
  }

  lemma GraveKeepsDeadlines(s: Store, cfg: Config, id: Id, body: Body, meta: Body, now: int)
    requires Deadlines(s)
    ensures var t := DeadLetter(s, cfg, Dropped(s.data, id), id, Some(body), meta, now).0;
            Deadlines(t) && Refreshed(s, t, cfg)
  {
    hide Exists, Grave, Dropped, Deadlines, Refreshed;
    var grave := Grave(Dropped(s.data, id), cfg, id, body, meta, now);
    forall k | Exists(grave, k) && (!In(k, DeadKeys) || cfg.dlqRetention <= 0) ensures Exists(s.data, k) {
      GraveCreatesNothing(s.data, cfg, id, body, meta, now, k);
    }
    if cfg.dlqRetention > 0 {
      WithKeepsDeadlines(s, grave, DeadKeys, cfg.dlqRetention);
    } else {
      WithKeepsDeadlines(s, grave, NoKeys, 0);
    }
  }

  lemma NackKeepsInv(s: Store, cfg: Config, id: Id, token: Token, now: int, delay: int, maxAttempts: int, meta: Body)
    requires Inv(s) && cfg.Valid()
    ensures Kept(s, NackScript(s, cfg, id, token, now, delay, maxAttempts, meta).0, cfg)
  {
    NackRefines(s, cfg, id, token, now, delay, maxAttempts, meta);
    AbsMatches(s.data, id);
    if s.data.Holds(id, token) {
      if s.data.Attempt(id) >= maxAttempts {
        hide DeadLetter, Domains, Deadlines, Refreshed;
        GraveKeepsDeadlines(s, cfg, id, s.data.payload[id], meta, now);
      } else {
        WithKeepsDeadlines(s, Requeue(Dropped(s.data, id), id, now + delay), LiveKeys, cfg.liveTTL);
      }
    }
  }

  lemma {:induction false} ReclaimedAllCreatesNothing(d: Data, ids: seq<Id>, now: int, k: Key)
    requires Exists(ReclaimedAll(d, ids, now), k) && !In(k, LiveKeys)
    ensures Exists(d, k)
  {
    if ids != [] {
      var f := ReclaimedAll(d, ids[..|ids| - 1], now);
      assert Exists(f, k);
      ReclaimedAllCreatesNothing(d, ids[..|ids| - 1], now, k);
    }
  }

  lemma ReclaimKeepsInv(s: Store, cfg: Config, ids: seq<Id>, now: int)
    requires Inv(s) && cfg.Valid()
    ensures Kept(s, ReclaimScript(s, cfg, ids, now), cfg)
  {
    ReclaimRefines(s, cfg, ids, now);
    forall k | Exists(ReclaimedAll(s.data, ids, now), k) && !In(k, LiveKeys) ensures Exists(s.data, k) {
      ReclaimedAllCreatesNothing(s.data, ids, now, k);
    }
    WithKeepsDeadlines(s, ReclaimedAll(s.data, ids, now), LiveKeys, cfg.liveTTL);
  }

  lemma ReplayedCreatesNothing(d: Data, id: Id, due: int, k: Key)
    requires id in d.dlqPayload && Exists(Replayed(d, id, due), k) && !In(k, LiveKeys)
    ensures Exists(d, k)
  {
  }

  lemma ReplayKeepsInv(s: Store, cfg: Config, id: Id, due: int)
    requires Inv(s) && cfg.Valid()
    ensures Kept(s, ReplayScript(s, cfg, id, due).0, cfg)
  {
    ReplayRefines(s, cfg, id, due);
    if ReplayScript(s, cfg, id, due).1 {
      forall k | Exists(Replayed(s.data, id, due), k) && !In(k, LiveKeys) ensures Exists(s.data, k) {
        ReplayedCreatesNothing(s.data, id, due, k);
      }
      hide Exists, Replayed, Domains;
      WithKeepsDeadlines(s, Replayed(s.data, id, due), LiveKeys, cfg.liveTTL);
    }
  }

  lemma PrunedCreatesNothing(d: Data, cutoff: int, k: Key)
    requires Exists(Pruned(d, cutoff), k)
    ensures Exists(d, k)
  {
  }

  lemma PruneKeepsInv(s: Store, cfg: Config, cutoff: int)
    requires Inv(s)
    ensures Kept(s, PruneScript(s, cutoff), cfg)
  {
    PruneRefines(s, cutoff);
    forall k | Exists(Pruned(s.data, cutoff), k) ensures Exists(s.data, k) {
      PrunedCreatesNothing(s.data, cutoff, k);
    }
    hide Exists, Pruned, Domains;
    WithKeepsDeadlines(s, Pruned(s.data, cutoff), NoKeys, 0);
  }

  lemma MarkerScriptsKeepInv(s: Store, cfg: Config, id: Id, token: Token, now: int)
    requires Inv(s) && cfg.Valid()
    ensures Kept(s, RouteMissingScript(s, cfg, id, now).0, cfg) && Kept(s, ClearRouteMissingScript(s, id, token).0, cfg)
  {
    MarkerScriptsRefine(s, cfg, id, token, now);
    WithKeepsDeadlines(s, s.data.(missing := s.data.missing[id := RouteMissingScript(s, cfg, id, now).1]), MarkerKey, cfg.liveTTL);
    WithKeepsDeadlines(s, s.data.(missing := s.data.missing - {id}), NoKeys, 0);
  }

  // ---------------------------------------------------------------------------------- co-expiry

  /** What expiry can do to the live keys: nothing, or remove all five at once. */
  ghost predicate LiveGone(f: Data) {
    f.ready == map[] && f.leased == map[] && f.payload == map[] && f.attempts == map[] && f.tokens == map[]
  }

  ghost predicate LiveKept(d: Data, f: Data) {
    f.ready == d.ready && f.leased == d.leased && f.payload == d.payload && f.attempts == d.attempts && f.tokens == d.tokens
  }

  ghost predicate DeadGone(f: Data) {
    f.dlq == map[] && f.dlqPayload == map[] && f.dlqMeta == map[]
  }

  ghost predicate DeadKept(d: Data, f: Data) {
    f.dlq == d.dlq && f.dlqPayload == d.dlqPayload && f.dlqMeta == d.dlqMeta
  }

  lemma ExpiredKey(s: Store, clock: int, k: Key)
    ensures var t := Tick(s, clock);
            && (Exists(t.data, k) <==> Exists(s.data, k) && !(k in s.deadline && s.deadline[k] <= clock))
            && (k in t.deadline <==> Exists(t.data, k) && k in s.deadline)
            && (k in t.deadline ==> t.deadline[k] == s.deadline[k])
            && t.clock == clock
  {
  }

  /** No key of the group expires before this moment. */
  ghost predicate NotBefore(s: Store, g: Group, at: int) {
    forall k :: In(k, g) && k in s.deadline ==> at <= s.deadline[k]
  }

  lemma TickKeepsNotBefore(s: Store, g: Group, at: int, clock: int)
    requires NotBefore(s, g, at)
    ensures NotBefore(Tick(s, clock), g, at) && Tick(s, clock).clock == clock
  {
    hide Tick, Exists;
    ExpiredKey(s, clock, Ready);
    forall k | In(k, g) && k in Tick(s, clock).deadline ensures at <= Tick(s, clock).deadline[k] {
      ExpiredKey(s, clock, k);
    }
  }

  lemma TickKeepsDeadlines(s: Store, clock: int)
    requires Deadlines(s) && s.clock <= clock
    ensures Deadlines(Tick(s, clock))
  {
    hide Tick, Exists;
    var t := Tick(s, clock);
    forall k | Exists(t.data, k)
      ensures Exists(s.data, k) && k in s.deadline && k in t.deadline && clock < t.deadline[k] == s.deadline[k]
    {
      ExpiredKey(s, clock, k);
      var g := if k.RouteMissing? then MarkerKey else if In(k, DeadKeys) then DeadKeys else LiveKeys;
      assert OneDeadline(s, g) && In(k, g);
    }
    forall g ensures OneDeadline(t, g) {
      ExpiredKey(s, clock, Ready);
      assert OneDeadline(s, g);
    }
  }

  lemma Spared(s: Store, clock: int, g: Group, j: Key, k: Key)
    requires Deadlines(s) && In(j, g) && In(k, g)
    requires k in s.deadline && Exists(s.data, k) && clock < s.deadline[k]
    requires j in s.deadline && s.deadline[j] <= clock
    ensures !Exists(s.data, j)
  {
    assert OneDeadline(s, g);
  }

  lemma Doomed(s: Store, clock: int, g: Group, j: Key)
    requires Deadlines(s) && In(j, g) && Exists(s.data, j)
    requires forall k :: In(k, g) && k in s.deadline && Exists(s.data, k) ==> s.deadline[k] <= clock
    ensures j in s.deadline && s.deadline[j] <= clock
  {
    assert OneDeadline(s, g);
  }

  ghost predicate Outlives(s: Store, g: Group, clock: int) {
    exists k :: In(k, g) && k in s.deadline && Exists(s.data, k) && clock < s.deadline[k]
  }

  /** The live keys expire together or not at all, at their common deadline. */
  lemma LiveCoExpiry(s: Store, clock: int)
    requires Deadlines(s)
    ensures var f := Tick(s, clock).data;
            if Outlives(s, LiveKeys, clock) then LiveKept(s.data, f) else LiveGone(f)
  {
    hide Outlives;
    if Outlives(s, LiveKeys, clock) {
      LiveSurvives(s, clock);
    } else {
      LiveVanishes(s, clock);
    }
  }

  lemma LiveSurvives(s: Store, clock: int)
    requires Deadlines(s) && Outlives(s, LiveKeys, clock)
    ensures LiveKept(s.data, Tick(s, clock).data)
  {
    var k :| In(k, LiveKeys) && k in s.deadline && Exists(s.data, k) && clock < s.deadline[k];
    forall j | In(j, LiveKeys) && j in s.deadline && s.deadline[j] <= clock ensures !Exists(s.data, j) {
      Spared(s, clock, LiveKeys, j, k);
    }
  }

  lemma LiveVanishes(s: Store, clock: int)
    requires Deadlines(s) && !Outlives(s, LiveKeys, clock)
    ensures LiveGone(Tick(s, clock).data)
  {
    forall j | In(j, LiveKeys) && Exists(s.data, j) ensures j in s.deadline && s.deadline[j] <= clock {
      Doomed(s, clock, LiveKeys, j);
    }
  }

  /** So do the three dead-letter keys. */
  lemma DeadCoExpiry(s: Store, clock: int)
    requires Deadlines(s)
    ensures var f := Tick(s, clock).data;
            if Outlives(s, DeadKeys, clock) then DeadKept(s.data, f) else DeadGone(f)
  {
    if Outlives(s, DeadKeys, clock) {
      var k :| In(k, DeadKeys) && k in s.deadline && Exists(s.data, k) && clock < s.deadline[k];
      forall j | In(j, DeadKeys) && j in s.deadline && s.deadline[j] <= clock ensures !Exists(s.data, j) {
        Spared(s, clock, DeadKeys, j, k);
      }
    } else {
      forall j | In(j, DeadKeys) && Exists(s.data, j) ensures j in s.deadline && s.deadline[j] <= clock {
        Doomed(s, clock, DeadKeys, j);
      }
    }
  }

  /** What survives a tick in the abstract queue. */
  ghost function TickEntries(e: Entries, live: bool, dead: bool): Entries {
    map id | id in e && (if e[id].Dead? then dead else live) :: e[id]
  }

  /** Expiry removes every live event or none, every dead one or none, and changes nothing else; in
      particular a payload never expires before its ready entry. */
  lemma TickRefines(s: Store, clock: int)
    requires Inv(s) && s.clock <= clock
    ensures var t := Tick(s, clock);
            && Inv(t) && t.clock == clock
            && Abs(t.data) == TickEntries(Abs(s.data), Outlives(s, LiveKeys, clock), Outlives(s, DeadKeys, clock))
            && t.data.missing.Keys <= s.data.missing.Keys
            && forall id :: id in t.data.missing ==> t.data.missing[id] == s.data.missing[id]
  {
    TickKeepsDeadlines(s, clock);
    LiveCoExpiry(s, clock);
    DeadCoExpiry(s, clock);
    var f := Tick(s, clock).data;
    var e := TickEntries(Abs(s.data), Outlives(s, LiveKeys, clock), Outlives(s, DeadKeys, clock));
    hide Outlives;
    assert f.missing == map[] || f.missing == s.data.missing;
    forall x ensures Matches(f, e, x) {
      hide Tick;
      AbsMatches(s.data, x);
    }
    MatchesAbs(f, e);
  }
}
