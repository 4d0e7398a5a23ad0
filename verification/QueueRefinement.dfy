/** The nine Redis keys refine one map from event id to Waiting, InFlight or Dead: every script
    commutes with one step on that map and keeps the key domains exact. */
module QueueRefinement {
  import opened Prelude
  import opened SortedSets
  import opened QueueScripts

  // ------------------------------------------------------------------------------ key domains

  /** One id's membership in the nine keys: payload = ready + leased disjointly, tokens = leased,
      attempts = payload, dlq = dlqPayload = dlqMeta, disjoint from payload. */
  ghost predicate Consistent(d: Data, id: Id) {
    && (id in d.payload <==> id in d.ready || id in d.leased)
    && !(id in d.ready && id in d.leased)
    && (id in d.tokens <==> id in d.leased)
    && (id in d.attempts <==> id in d.payload)
    && (id in d.dlqPayload <==> id in d.dlq)
    && (id in d.dlqMeta <==> id in d.dlq)
    && !(id in d.dlq && id in d.payload)
    && (id in d.attempts ==> 0 <= d.attempts[id])
    && (id in d.leased ==> 1 <= d.attempts[id])
  }

  ghost predicate Domains(d: Data) {
    forall id {:trigger Consistent(d, id)} :: Consistent(d, id)
  }

  // ------------------------------------------------------------------------- the abstract queue

  datatype Entry =
    | Waiting(body: Body, attempt: int, due: int)
    | InFlight(body: Body, attempt: int, until: int, token: Token)
    | Dead(body: Body, failedAt: int, meta: Body)

  type Entries = map<Id, Entry>

  ghost function View(d: Data, id: Id): Option<Entry>
    requires Consistent(d, id)
  {
    if id in d.ready then Some(Waiting(d.payload[id], d.attempts[id], d.ready[id]))
    else if id in d.leased then Some(InFlight(d.payload[id], d.attempts[id], d.leased[id], d.tokens[id]))
    else if id in d.dlq then Some(Dead(d.dlqPayload[id], d.dlq[id], d.dlqMeta[id]))
    else None
  }

  ghost function Abs(d: Data): Entries
    requires Domains(d)
  {
    map id | id in d.payload.Keys + d.dlq.Keys && Consistent(d, id) && View(d, id).Some? :: View(d, id).value
  }

  ghost predicate Matches(d: Data, e: Entries, id: Id) {
    && Consistent(d, id)
    && View(d, id) == if id in e then Some(e[id]) else None
  }

  lemma AbsMatches(d: Data, id: Id)
    requires Domains(d)
    ensures Matches(d, Abs(d), id)
  {
    assert Consistent(d, id);
  }

  lemma MatchesAbs(d: Data, e: Entries)
    requires forall id :: Matches(d, e, id)
    ensures Domains(d) && Abs(d) == e
  {
    forall id ensures Consistent(d, id) {
      assert Matches(d, e, id);
    }
    forall id ensures id in Abs(d) <==> id in e {
      assert Matches(d, e, id);
      AbsMatches(d, id);
    }
    forall id | id in e ensures Abs(d)[id] == e[id] {
      assert Matches(d, e, id);
      AbsMatches(d, id);
    }
  }

  ghost predicate Owns(e: Entries, id: Id, token: Token) {
    id in e && e[id].InFlight? && e[id].token == token
  }

  /** Dead entries at or before the cutoff. */
  ghost predicate Overdue(e: Entries, id: Id, cutoff: int) {
    id in e && e[id].Dead? && e[id].failedAt <= cutoff
  }

  ghost function PruneEntries(e: Entries, cutoff: int): Entries {
    map id | id in e && !Overdue(e, id, cutoff) :: e[id]
  }

  /** With a retention below one millisecond nothing dead is kept. */
  ghost function KeptEntries(e: Entries, retention: int): Entries {
    map id | id in e && (retention > 0 || !e[id].Dead?) :: e[id]
  }

  ghost function BuriedEntries(e: Entries, cfg: Config, id: Id, now: int, body: Body, meta: Body): Entries {
    KeptEntries(PruneEntries(e, now - cfg.dlqRetention)[id := Dead(body, now, meta)], cfg.dlqRetention)
  }

  ghost function NackEntries(e: Entries, cfg: Config, id: Id, now: int, delay: int, maxAttempts: int, meta: Body): Entries
    requires id in e && e[id].InFlight?
  {
    if e[id].attempt < maxAttempts then e[id := Waiting(e[id].body, e[id].attempt, now + delay)]
    else BuriedEntries(e, cfg, id, now, e[id].body, meta)
  }

  ghost function Refund(attempt: int, marked: bool): int {
    if marked then attempt - 1 else attempt
  }

  ghost function ReclaimEntries(e: Entries, missing: map<Id, int>, ids: seq<Id>, now: int): Entries {
    map id | id in e ::
      if id in ids && e[id].InFlight? then Waiting(e[id].body, Refund(e[id].attempt, id in missing), now) else e[id]
  }

  // --------------------------------------------------------------- scripts against the abstract map

  /** Enqueue adds a fresh event exactly when the id is nowhere in the queue. */
  lemma EnqueueRefines(s: Store, cfg: Config, id: Id, body: Body, due: int)
    requires Domains(s.data)
    ensures var (t, ok) := EnqueueScript(s, cfg, id, body, due);
            && Domains(t.data) && t.data.missing == s.data.missing
            && ok == (id !in Abs(s.data))
            && Abs(t.data) == if ok then Abs(s.data)[id := Waiting(body, 0, due)] else Abs(s.data)
  {
    var (t, ok) := EnqueueScript(s, cfg, id, body, due);
    AbsMatches(s.data, id);
    if ok {
      var e := Abs(s.data)[id := Waiting(body, 0, due)];
      forall x ensures Matches(t.data, e, x) { AbsMatches(s.data, x); }
      MatchesAbs(t.data, e);
    }
  }

  /** Claim leases the first due event with its attempt raised by one; its missing-payload branch is
      never taken. */
  lemma ClaimRefines(s: Store, cfg: Config, first: Option<Id>, until: int, token: Token)
    requires Domains(s.data) && (first.Some? ==> first.value in s.data.ready)
    ensures var (t, lease) := ClaimScript(s, cfg, first, until, token);
            && Domains(t.data) && t.data.missing == s.data.missing
            && match first
               case None => t == s && lease == None
               case Some(id) =>
                 && id in Abs(s.data) && Abs(s.data)[id].Waiting?
                 && var a := Abs(s.data)[id];
                    && lease == Some(Lease(id, token, a.attempt + 1))
                    && Abs(t.data) == Abs(s.data)[id := InFlight(a.body, a.attempt + 1, until, token)]
  {
    if first.Some? {
      var id := first.value;
      var (t, _) := ClaimScript(s, cfg, first, until, token);
      AbsMatches(s.data, id);
      var a := Abs(s.data)[id];
      var e := Abs(s.data)[id := InFlight(a.body, a.attempt + 1, until, token)];
      forall x ensures Matches(t.data, e, x) { AbsMatches(s.data, x); }
      MatchesAbs(t.data, e);
    }
  }

  /** Ack removes the event and its marker, only for the current lease. */
  lemma AckRefines(s: Store, id: Id, token: Token)
    requires Domains(s.data)
    ensures var (t, ok) := AckScript(s, id, token);
            && Domains(t.data)
            && ok == Owns(Abs(s.data), id, token)
            && Abs(t.data) == (if ok then Abs(s.data) - {id} else Abs(s.data))
            && t.data.missing == if ok then s.data.missing - {id} else s.data.missing
  {
    var (t, ok) := AckScript(s, id, token);
    AbsMatches(s.data, id);
    if ok {
      var e := Abs(s.data) - {id};
      forall x ensures Matches(t.data, e, x) { AbsMatches(s.data, x); }
      MatchesAbs(t.data, e);
    }
  }

  /** Renew moves only the lease expiry, only for the current lease. */
  lemma RenewRefines(s: Store, cfg: Config, id: Id, token: Token, until: int)
    requires Domains(s.data)
    ensures var (t, ok) := RenewScript(s, cfg, id, token, until);
            && Domains(t.data) && t.data.missing == s.data.missing
            && ok == Owns(Abs(s.data), id, token)
            && Abs(t.data) == if ok then Abs(s.data)[id := Abs(s.data)[id].(until := until)] else Abs(s.data)
  {
    var (t, ok) := RenewScript(s, cfg, id, token, until);
    AbsMatches(s.data, id);
    if ok {
      var e := Abs(s.data)[id := Abs(s.data)[id].(until := until)];
      forall x ensures Matches(t.data, e, x) { AbsMatches(s.data, x); }
      MatchesAbs(t.data, e);
    }
  }

  /** Defer puts the event back and returns the attempt its claim took; the floor at zero is never
      needed. */
  lemma DeferRefines(s: Store, cfg: Config, id: Id, token: Token, due: int)
    requires Domains(s.data)
    ensures var (t, ok) := DeferScript(s, cfg, id, token, due);
            && Domains(t.data) && t.data.missing == s.data.missing
            && ok == Owns(Abs(s.data), id, token)
            && Abs(t.data) == if ok then Abs(s.data)[id := Waiting(Abs(s.data)[id].body, Abs(s.data)[id].attempt - 1, due)]
                              else Abs(s.data)
  {
    var (t, ok) := DeferScript(s, cfg, id, token, due);
    AbsMatches(s.data, id);
    if ok {
      var e := Abs(s.data)[id := Waiting(Abs(s.data)[id].body, Abs(s.data)[id].attempt - 1, due)];
      forall x ensures Matches(t.data, e, x) { AbsMatches(s.data, x); }
      MatchesAbs(t.data, e);
    }
  }

  lemma RequeueRefines(d: Data, id: Id, due: int)
    requires Domains(d) && id in Abs(d) && Abs(d)[id].InFlight?
    ensures var f := Requeue(Dropped(d, id), id, due);
            Domains(f) && Abs(f) == Abs(d)[id := Waiting(Abs(d)[id].body, Abs(d)[id].attempt, due)]
  {
    AbsMatches(d, id);
    var e := Abs(d)[id := Waiting(Abs(d)[id].body, Abs(d)[id].attempt, due)];
    var f := Requeue(Dropped(d, id), id, due);
    forall x ensures Matches(f, e, x) { AbsMatches(d, x); }
    MatchesAbs(f, e);
  }

  lemma InterredAt(d: Data, id: Id, now: int, cutoff: int, body: Body, meta: Body, x: Id)
    requires Consistent(d, x) && (x == id ==> id in d.leased)
    ensures var f := Interred(Dropped(d, id), id, now, cutoff, body, meta);
            && Consistent(f, x)
            && View(f, x) == if x == id then Some(Dead(body, now, meta))
                             else if x in d.dlq && d.dlq[x] <= cutoff then None
                             else View(d, x)
  {
  }

  lemma InterredRefines(d: Data, id: Id, now: int, cutoff: int, body: Body, meta: Body)
    requires Domains(d) && id in Abs(d) && Abs(d)[id].InFlight?
    ensures var f := Interred(Dropped(d, id), id, now, cutoff, body, meta);
            && Domains(f) && f.missing == d.missing - {id}
            && Abs(f) == PruneEntries(Abs(d), cutoff)[id := Dead(body, now, meta)]
  {
    AbsMatches(d, id);
    var e := PruneEntries(Abs(d), cutoff)[id := Dead(body, now, meta)];
    var f := Interred(Dropped(d, id), id, now, cutoff, body, meta);
    forall x ensures Matches(f, e, x) {
      AbsMatches(d, x);
      InterredAt(d, id, now, cutoff, body, meta, x);
    }
    MatchesAbs(f, e);
  }

  lemma UnburiedAt(d: Data, x: Id)
    requires Consistent(d, x)
    ensures Consistent(Unburied(d), x) && View(Unburied(d), x) == if x in d.dlq then None else View(d, x)
  {
  }

  lemma RetainedRefines(d: Data, retention: int)
    requires Domains(d)
    ensures Domains(Retained(d, retention)) && Retained(d, retention).missing == d.missing
    ensures Abs(Retained(d, retention)) == KeptEntries(Abs(d), retention)
  {
    var e := KeptEntries(Abs(d), retention);
    if retention > 0 {
      assert e == Abs(d);
    } else {
      forall x ensures Matches(Unburied(d), e, x) {
        AbsMatches(d, x);
        UnburiedAt(d, x);
      }
      MatchesAbs(Unburied(d), e);
    }
  }

  lemma GraveRefines(d: Data, cfg: Config, id: Id, now: int, body: Body, meta: Body)
    requires Domains(d) && id in Abs(d) && Abs(d)[id].InFlight?
    ensures var f := Grave(Dropped(d, id), cfg, id, body, meta, now);
            && Domains(f) && f.missing == d.missing - {id}
            && Abs(f) == BuriedEntries(Abs(d), cfg, id, now, body, meta)
  {
    hide Domains, Consistent, View, Abs, KeptEntries, PruneEntries, Interred, Retained, Dropped;
    InterredRefines(d, id, now, now - cfg.dlqRetention, body, meta);
    RetainedRefines(Interred(Dropped(d, id), id, now, now - cfg.dlqRetention, body, meta), cfg.dlqRetention);
  }

  lemma NackMismatches(s: Store, cfg: Config, id: Id, token: Token, now: int, delay: int, maxAttempts: int, meta: Body)
    requires !s.data.Holds(id, token)
    ensures NackScript(s, cfg, id, token, now, delay, maxAttempts, meta) == (s, TokenMismatch)
  {
    hide DeadLetter;
  }

  lemma NackRequeues(s: Store, cfg: Config, id: Id, token: Token, now: int, delay: int, maxAttempts: int, meta: Body)
    requires Domains(s.data) && Owns(Abs(s.data), id, token) && Abs(s.data)[id].attempt < maxAttempts
    ensures var (t, r) := NackScript(s, cfg, id, token, now, delay, maxAttempts, meta);
            && r == Requeued && Domains(t.data) && t.data.missing == s.data.missing - {id}
            && Abs(t.data) == NackEntries(Abs(s.data), cfg, id, now, delay, maxAttempts, meta)
  {
    AbsMatches(s.data, id);
    hide Domains, Abs, DeadLetter, BuriedEntries;
    RequeueRefines(s.data, id, now + delay);
  }

  lemma NackBuries(s: Store, cfg: Config, id: Id, token: Token, now: int, delay: int, maxAttempts: int, meta: Body)
    requires Domains(s.data) && Owns(Abs(s.data), id, token) && Abs(s.data)[id].attempt >= maxAttempts
    ensures var (t, r) := NackScript(s, cfg, id, token, now, delay, maxAttempts, meta);
            && r == DeadLettered && Domains(t.data) && t.data.missing == s.data.missing - {id}
            && Abs(t.data) == NackEntries(Abs(s.data), cfg, id, now, delay, maxAttempts, meta)
  {
    AbsMatches(s.data, id);
    hide Domains, Abs, BuriedEntries, Requeue, Dropped, Grave;
    GraveRefines(s.data, cfg, id, now, s.data.payload[id], meta);
  }

  /** Nack requeues below the attempt limit and dead-letters at it, pruning what is past retention
      first; the HSET of a missing payload never fails. With a retention below one millisecond the
      whole dead-letter group expires on the spot. */
  lemma NackRefines(s: Store, cfg: Config, id: Id, token: Token, now: int, delay: int, maxAttempts: int, meta: Body)
    requires Domains(s.data)
    ensures var (t, r) := NackScript(s, cfg, id, token, now, delay, maxAttempts, meta);
            && Domains(t.data)
            && (r == TokenMismatch <==> !Owns(Abs(s.data), id, token))
            && if r == TokenMismatch then t == s
               else
                 && r == (if Abs(s.data)[id].attempt < maxAttempts then Requeued else DeadLettered)
                 && Abs(t.data) == NackEntries(Abs(s.data), cfg, id, now, delay, maxAttempts, meta)
                 && t.data.missing == s.data.missing - {id}
  {
    hide Domains, Abs, NackScript, NackEntries;
    AbsMatches(s.data, id);
    if !Owns(Abs(s.data), id, token) {
      NackMismatches(s, cfg, id, token, now, delay, maxAttempts, meta);
    } else if Abs(s.data)[id].attempt < maxAttempts {
      NackRequeues(s, cfg, id, token, now, delay, maxAttempts, meta);
    } else {
      NackBuries(s, cfg, id, token, now, delay, maxAttempts, meta);
    }
  }

  lemma ReturnedHere(d: Data, id: Id, now: int)
    requires Consistent(d, id) && id in d.leased
    ensures var f := Returned(d, id, now);
            && Consistent(f, id)
            && View(f, id) == Some(Waiting(d.payload[id], Refund(d.attempts[id], id in d.missing), now))
  {
  }

  lemma ReturnedElsewhere(d: Data, id: Id, now: int, x: Id)
    requires Consistent(d, x) && x != id
    ensures var f := Returned(d, id, now);
            Consistent(f, x) && View(f, x) == View(d, x) && (x in f.leased <==> x in d.leased)
  {
  }

  lemma {:induction false} ReclaimedAllAt(d: Data, ids: seq<Id>, now: int, x: Id)
    requires Consistent(d, x)
    ensures var f := ReclaimedAll(d, ids, now);
            && Consistent(f, x) && f.missing == d.missing
            && View(f, x) == if x in ids && x in d.leased
                             then Some(Waiting(d.payload[x], Refund(d.attempts[x], x in d.missing), now))
                             else View(d, x)
  {
    if ids != [] {
      var front, last := ids[..|ids| - 1], ids[|ids| - 1];
      ReclaimedAllAt(d, front, now, x);
      var f := ReclaimedAll(d, front, now);
      if x != last {
        ReturnedElsewhere(f, last, now, x);
      } else if x in f.leased {
        ReturnedHere(f, last, now);
      }
      assert x in ids <==> x in front || x == last by {
        assert ids == front + [last];
      }
    }
  }

  /** Reclaim returns every listed lease to Waiting, refunding exactly the marked ones. */
  lemma ReclaimRefines(s: Store, cfg: Config, ids: seq<Id>, now: int)
    requires Domains(s.data)
    ensures var t := ReclaimScript(s, cfg, ids, now);
            && Domains(t.data) && t.data.missing == s.data.missing
            && Abs(t.data) == ReclaimEntries(Abs(s.data), s.data.missing, ids, now)
  {
    var t := ReclaimScript(s, cfg, ids, now);
    var e := ReclaimEntries(Abs(s.data), s.data.missing, ids, now);
    forall x ensures Matches(t.data, e, x) && t.data.missing == s.data.missing {
      AbsMatches(s.data, x);
      ReclaimedAllAt(s.data, ids, now, x);
    }
    assert Matches(t.data, e, Id("")) && t.data.missing == s.data.missing;
    MatchesAbs(t.data, e);
  }

  /** Replay restarts a retained dead entry with attempt 0 and no marker; a past-retention entry is
      refused and kept. */
  lemma ReplayRefines(s: Store, cfg: Config, id: Id, due: int)
    requires Domains(s.data)
    ensures var (t, ok) := ReplayScript(s, cfg, id, due);
            && Domains(t.data)
            && ok == (id in Abs(s.data) && Abs(s.data)[id].Dead? && due - cfg.dlqRetention < Abs(s.data)[id].failedAt)
            && Abs(t.data) == (if ok then Abs(s.data)[id := Waiting(Abs(s.data)[id].body, 0, due)] else Abs(s.data))
            && t.data.missing == if ok then s.data.missing - {id} else s.data.missing
  {
    var (t, ok) := ReplayScript(s, cfg, id, due);
    AbsMatches(s.data, id);
    if ok {
      var e := Abs(s.data)[id := Waiting(Abs(s.data)[id].body, 0, due)];
      forall x ensures Matches(t.data, e, x) { AbsMatches(s.data, x); }
      MatchesAbs(t.data, e);
    }
  }

  /** Prune removes exactly the overdue dead entries. */
  lemma PruneRefines(s: Store, cutoff: int)
    requires Domains(s.data)
    ensures var t := PruneScript(s, cutoff);
            && Domains(t.data) && t.data.missing == s.data.missing
            && Abs(t.data) == PruneEntries(Abs(s.data), cutoff)
  {
    var t := PruneScript(s, cutoff);
    var e := PruneEntries(Abs(s.data), cutoff);
    forall x ensures Matches(t.data, e, x) { AbsMatches(s.data, x); }
    MatchesAbs(t.data, e);
  }

  lemma MarkersIrrelevant(d: Data, missing: map<Id, int>)
    requires Domains(d)
    ensures var f := d.(missing := missing);
            Domains(f) && Abs(f) == Abs(d)
  {
    var f := d.(missing := missing);
    forall x ensures Matches(f, Abs(d), x) { AbsMatches(d, x); }
    MatchesAbs(f, Abs(d));
  }

  /** The marker scripts touch nothing but one marker; clearing is fenced by the lease, stamping is
      not. */
  lemma MarkerScriptsRefine(s: Store, cfg: Config, id: Id, token: Token, now: int)
    requires Domains(s.data)
    ensures var (t, stamp) := RouteMissingScript(s, cfg, id, now);
            && Domains(t.data) && Abs(t.data) == Abs(s.data)
            && t.data.missing == s.data.missing[id := stamp]
            && stamp == if id in s.data.missing then s.data.missing[id] else now
    ensures var (t, ok) := ClearRouteMissingScript(s, id, token);
            && Domains(t.data) && Abs(t.data) == Abs(s.data)
            && ok == Owns(Abs(s.data), id, token)
            && t.data.missing == if ok then s.data.missing - {id} else s.data.missing
  {
    AbsMatches(s.data, id);
    MarkersIrrelevant(s.data, RouteMissingScript(s, cfg, id, now).0.data.missing);
    MarkersIrrelevant(s.data, s.data.missing - {id});
  }

  lemma KeysOf(d: Data)
    requires Domains(d)
    ensures Abs(d).Keys == d.ready.Keys + d.leased.Keys + d.dlq.Keys
    ensures d.ready.Keys !! d.leased.Keys && d.ready.Keys + d.leased.Keys !! d.dlq.Keys
  {
    forall id
      ensures id in Abs(d) <==> id in d.ready || id in d.leased || id in d.dlq
      ensures !(id in d.ready && id in d.leased) && !((id in d.ready || id in d.leased) && id in d.dlq)
    {
      AbsMatches(d, id);
    }
  }

  lemma DisjointSize<T>(a: set<T>, b: set<T>)
    requires a !! b
    ensures |a + b| == |a| + |b|
  {
  }

  lemma SizeOfKeys<T, U>(m: map<T, U>)
    ensures |m| == |m.Keys|
  {
  }

  /** The three depths the dispatcher reports add up to the number of entries. */
  lemma DepthsAddUp(d: Data)
    requires Domains(d)
    ensures |d.ready| + |d.leased| + |d.dlq| == |Abs(d)|
  {
    KeysOf(d);
    DisjointSize(d.ready.Keys, d.leased.Keys);
    DisjointSize(d.ready.Keys + d.leased.Keys, d.dlq.Keys);
    SizeOfKeys(Abs(d));
    SizeOfKeys(d.ready);
    SizeOfKeys(d.leased);
    SizeOfKeys(d.dlq);
  }
}
