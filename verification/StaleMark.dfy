/** The one write without a fence. After a first-miss stamp of a worker that may have lost its lease, no
    attempt can be delivered twice if and only if the event is not out for delivery under its current
    attempt; otherwise even the bound on deliveries fails, and here is the run. */
module StaleMark {
  import opened Prelude
  import opened SortedSets
  import opened QueueScripts
  import opened QueueRefinement
  import opened QueueExpiry
  import opened ProcessOne
  import opened WorkerEffects
  import opened DispatchRuns
  import opened DispatchTheorems
  import DispatchConservation
  import opened DispatchDelivery

  /** A worker that has not found its route yet never shares its event with a call: a lease is cleared only
      instead of its miss. */
  lemma HolderIsHarmlessAt(y: System, cap: Id -> nat, w: nat)
    requires Sound(y, cap) && Unrepeated(y, cap) && y.Worker(w).Holding?
    requires y.store.data.Holds(y.Worker(w).l.id, y.Worker(w).l.token)
    ensures !Exposed(y, y.Worker(w).l.id)
  {
    assert w in y.workers && GoodWorker(y.Worker(w), y.h, cap) && WorkerSafe(y.Worker(w), y.h);
    CurrentIsGreatest(y, cap, y.Worker(w));
    hide Outs, Sound, EntriesSafe;
  }

  /** From here no careful run calls Deliver twice with one attempt of one enqueue or replay. */
  ghost predicate NeverTwice(y: System, cfg: Config, cap: Id -> nat) {
    forall evs :: Legal(y, cfg, cap, evs) && CarefulRun(y, cfg, cap, evs) ==> Distinct(Exec(y, cfg, cap, evs).h.calls)
  }

  /** What one stamp does in one state; StampIsSafeIff says it of every careful run. */
  lemma StampIsSafeAt(y: System, cfg: Config, cap: Id -> nat, w: nat, now: int)
    requires Sound(y, cap) && Unrepeated(y, cap) && cfg.Valid() && y.Worker(w).Holding?
    ensures NeverTwice(Apply(y, cfg, Work(w, RouteAbsent(now))), cfg, cap) <==> !Exposed(y, y.Worker(w).l.id)
  {
    var ev := Work(w, RouteAbsent(now));
    var z := Apply(y, cfg, ev);
    StepKeepsSound(y, cfg, cap, ev);
    hide Sound, Unrepeated, Apply, Legal, CarefulRun, Exec, Distinct, Exposed;
    if Exposed(y, y.Worker(w).l.id) {
      var evs := Repeated(y, cfg, cap, w, now);
    } else {
      StepKeepsUnrepeated(y, cfg, cap, ev);
      forall evs | Legal(z, cfg, cap, evs) && CarefulRun(z, cfg, cap, evs)
        ensures Distinct(Exec(z, cfg, cap, evs).h.calls)
      {
        RunKeepsUnrepeated(z, cfg, cap, evs);
        UnrepeatedIsDistinct(Exec(z, cfg, cap, evs), cap);
      }
    }
  }

  /** After any careful run: a first-miss stamp, current or stale, leaves every continuation without a
      repeated delivery if and only if no Deliver call was made with the event's current attempt and
      none is about to be. */
  lemma StampIsSafeIff(cfg: Config, cap: Id -> nat, evs: seq<Event>, w: nat, now: int)
    requires cfg.Valid() && Legal(START, cfg, cap, evs) && CarefulRun(START, cfg, cap, evs)
    requires Exec(START, cfg, cap, evs).Worker(w).Holding?
    ensures var y := Exec(START, cfg, cap, evs);
            NeverTwice(Apply(y, cfg, Work(w, RouteAbsent(now))), cfg, cap) <==> !Exposed(y, y.Worker(w).l.id)
  {
    hide Legal, CarefulRun, Exec, Sound, Unrepeated, NeverTwice, Exposed, Apply;
    StartIsSound(cap);
    StartIsUnrepeated(cap);
    RunKeepsSound(START, cfg, cap, evs);
    RunKeepsUnrepeated(START, cfg, cap, evs);
    StampIsSafeAt(Exec(START, cfg, cap, evs), cfg, cap, w, now);
  }

  /** So a stamp by the holder of the current lease is safe, which a check of the lease token in the
      stamp's own script would ensure. */
  lemma CurrentHolderIsHarmless(cfg: Config, cap: Id -> nat, evs: seq<Event>, w: nat, now: int)
    requires cfg.Valid() && Legal(START, cfg, cap, evs) && CarefulRun(START, cfg, cap, evs)
    requires var y := Exec(START, cfg, cap, evs);
             y.Worker(w).Holding? && y.store.data.Holds(y.Worker(w).l.id, y.Worker(w).l.token)
    ensures NeverTwice(Apply(Exec(START, cfg, cap, evs), cfg, Work(w, RouteAbsent(now))), cfg, cap)
  {
    hide Legal, CarefulRun, Exec, Sound, Unrepeated, NeverTwice, Exposed, Apply;
    StartIsSound(cap);
    StartIsUnrepeated(cap);
    RunKeepsSound(START, cfg, cap, evs);
    RunKeepsUnrepeated(START, cfg, cap, evs);
    HolderIsHarmlessAt(Exec(START, cfg, cap, evs), cap, w);
    StampIsSafeIff(cfg, cap, evs, w, now);
  }

  lemma UnrepeatedIsDistinct(y: System, cap: Id -> nat)
    requires Unrepeated(y, cap)
    ensures Distinct(y.h.calls)
  {
  }

  /** What the stamp decides: the attempt the next claim after a reclaim returns. */
  lemma ReclaimedAttempt(s: Store, cfg: Config, id: Id, now: int, until: int, token: Token)
    requires Domains(s.data) && id in Abs(s.data) && Abs(s.data)[id].InFlight?
    ensures var r := ReclaimScript(s, cfg, [id], now);
            var lease := ClaimScript(r, cfg, Some(id), until, token).1;
            lease == Some(Lease(id, token, if id in s.data.missing then Abs(s.data)[id].attempt
                                           else Abs(s.data)[id].attempt + 1))
  {
    hide Abs, Domains, ReclaimScript, ClaimScript, ReclaimEntries;
    ReclaimRefines(s, cfg, [id], now);
    var r := ReclaimScript(s, cfg, [id], now);
    ReclaimAt(Abs(s.data), s.data.missing, [id], now, id);
    AtIn(ReclaimEntries(Abs(s.data), s.data.missing, [id], now), id);
    AbsMatches(r.data, id);
    ClaimRefines(r, cfg, Some(id), until, token);
  }

  // ------------------------------------------------------------- building a run step by step

  /** A careful run from y to z. */
  ghost predicate Leads(y: System, cfg: Config, cap: Id -> nat, evs: seq<Event>, z: System) {
    Legal(y, cfg, cap, evs) && CarefulRun(y, cfg, cap, evs) && Exec(y, cfg, cap, evs) == z
  }

  lemma LeadsNowhere(y: System, cfg: Config, cap: Id -> nat)
    ensures Leads(y, cfg, cap, [], y)
  {
  }

  lemma {:induction false} OneMore(y: System, cfg: Config, cap: Id -> nat, evs: seq<Event>, z: System, ev: Event)
    requires Leads(y, cfg, cap, evs, z) && Enabled(z, ev, cap) && Careful(z, ev)
    ensures Leads(y, cfg, cap, evs + [ev], Apply(z, cfg, ev))
    decreases |evs|
  {
    hide Apply, Careful;
    if evs == [] {
      assert evs + [ev] == [ev] && [ev][1..] == [];
      LeadsNowhere(Apply(y, cfg, ev), cfg, cap);
    } else {
      assert (evs + [ev])[1..] == evs[1..] + [ev];
      OneMore(Apply(y, cfg, evs[0]), cfg, cap, evs[1..], z, ev);
    }
  }

  // --------------------------------------------------- the repeated delivery, from any exposed event

  lemma {:induction false} FreshNumber(used: set<nat>) returns (n: nat)
    ensures forall k :: k in used ==> k < n
    decreases used
  {
    if used == {} {
      n := 0;
    } else {
      var k :| k in used;
      n := FreshNumber(used - {k});
      n := if n <= k then k + 1 else n;
      assert forall j :: j in used ==> j == k || j in used - {k};
    }
  }

  lemma FreshToken(used: set<Token>) returns (token: Token)
    ensures token !in used
  {
    var lengths := set t | t in used :: |t.hex|;
    var n := FreshNumber(lengths);
    token := Token(seq(n, _ => 'f'));
    forall t | t in used ensures |t.hex| < n {
      assert |t.hex| in lengths;
    }
  }

  /** A worker about to call calls. */
  lemma CallNow(y: System, cfg: Config, cap: Id -> nat, v: nat, g: Grant) returns (ev: Event)
    requires Sound(y, cap) && Pending(y, v, g)
    ensures Enabled(y, ev, cap) && Careful(y, ev)
    ensures var z := Apply(y, cfg, ev);
            z.store == y.store && z.h == Called(y.h, g)
  {
    ev := Work(v, Capacity(0, true, 1, Body("")));
    assert GoodWorker(y.workers[v], y.h, cap);
    hide Sound;
  }

  /** Every lease up to the event's expiry is reclaimed; the marked event is refunded. */
  lemma ReclaimNow(y: System, cfg: Config, cap: Id -> nat, id: Id) returns (ev: Event)
    requires Domains(y.store.data) && id in Abs(y.store.data) && Abs(y.store.data)[id].InFlight? && id in y.store.data.missing
    ensures Enabled(y, ev, cap) && Careful(y, ev)
    ensures var z, en := Apply(y, cfg, ev), Abs(y.store.data)[id];
            && z.h.calls == y.h.calls && z.h.epoch == y.h.epoch && Domains(z.store.data)
            && At(Abs(z.store.data), id) == Some(Waiting(en.body, en.attempt - 1, en.until))
  {
    var s, en := y.store, Abs(y.store.data)[id];
    AbsMatches(s.data, id);
    var ids := RangeExists(s.data.leased, en.until);
    ev := Reclaim(ids, en.until, |ids|);
    ReclaimRefines(s, cfg, ids, en.until);
    ReclaimAt(Abs(s.data), s.data.missing, ids, en.until, id);
    hide Abs, Domains, ReclaimScript, ReclaimEntries, IsRange, TokensOf;
  }

  /** The first ready event can be claimed, by a new worker under a new token. */
  lemma ClaimNow(y: System, cfg: Config, cap: Id -> nat) returns (ev: Event)
    requires y.store.data.ready != map[]
    ensures Enabled(y, ev, cap) && Careful(y, ev) && ev.Claim? && ev.w !in y.workers
    ensures ev.first.Some? && ev.first.value in y.store.data.ready && ev.token !in y.h.issued
  {
    var ready := y.store.data.ready;
    var first := LeastExists(ready, ready.Keys);
    var w := FreshNumber(y.workers.Keys);
    var token := FreshToken(y.h.issued.Keys);
    ev := Claim(w, ready[first], Some(first), ready[first] + 1, token);
  }

  /** One more claim: of the given event, or of another one, which leaves fewer ready. */
  lemma ClaimToward(x: System, cfg: Config, cap: Id -> nat, id: Id) returns (ev: Event)
    requires Sound(x, cap) && cfg.Valid()
    requires At(Abs(x.store.data), id).Some? && At(Abs(x.store.data), id).value.Waiting?
    ensures Enabled(x, ev, cap) && Careful(x, ev) && ev.Claim? && ev.first.Some?
    ensures var z := Apply(x, cfg, ev);
            && Sound(z, cap) && z.h.calls == x.h.calls && z.h.epoch == x.h.epoch
            && (if ev.first.value == id then
                  Reclaimed(z, id, ev.w, ev.token, At(Abs(x.store.data), id).value.attempt + 1)
                else
                  && At(Abs(z.store.data), id) == At(Abs(x.store.data), id)
                  && |z.store.data.ready| < |x.store.data.ready|)
  {
    hide Abs, Domains, Enabled, Careful, Apply, Sound, Reclaimed;
    SoundParts(x, cap);
    AbsMatches(x.store.data, id);
    ev := ClaimNow(x, cfg, cap);
    StepKeepsSound(x, cfg, cap, ev);
    SoundParts(Apply(x, cfg, ev), cap);
    ClaimedFirst(x, cfg, ev, id);
    if ev.first.value == id {
      ClaimedFacts(Apply(x, cfg, ev), cap, id, ev.w);
      HeldAgain(Apply(x, cfg, ev), id, ev.w);
    } else {
      ClaimShrinks(x, cfg, ev);
    }
  }

  lemma ClaimedFirst(x: System, cfg: Config, ev: Event, id: Id)
    requires Domains(x.store.data) && ev.Claim? && ev.first.Some? && ev.first.value in x.store.data.ready
    requires Domains(Apply(x, cfg, ev).store.data)
    requires At(Abs(x.store.data), id).Some? && At(Abs(x.store.data), id).value.Waiting?
    ensures var z, a := Apply(x, cfg, ev), At(Abs(x.store.data), id).value;
            && z.h.calls == x.h.calls && z.h.epoch == x.h.epoch
            && (if ev.first.value == id then
                  && z.Worker(ev.w) == Holding(Lease(id, ev.token, a.attempt + 1))
                  && At(Abs(z.store.data), id) == Some(InFlight(a.body, a.attempt + 1, ev.until, ev.token))
                else At(Abs(z.store.data), id) == Some(a))
  {
    hide Abs, Domains, Apply, At;
    ClaimShape(x, cfg, ev);
    AtIn(Abs(x.store.data), id);
    AtIn(Abs(Apply(x, cfg, ev).store.data), id);
  }

  /** Worker w holds the event's current lease, its n-th attempt. */
  ghost predicate Reclaimed(z: System, id: Id, w: nat, token: Token, n: int) {
    && z.Worker(w) == Holding(Lease(id, token, n)) && z.store.data.Holds(id, token)
    && id in z.h.epoch && token in z.h.issued && z.h.issued[token] == Grant(id, z.h.epoch[id], n)
  }

  lemma HeldAgain(z: System, id: Id, w: nat)
    requires z.Worker(w).Holding? && z.Worker(w).l.id == id
    requires var l := z.Worker(w).l;
            && z.store.data.Holds(id, l.token) && id in z.h.epoch && l.token in z.h.issued
            && z.h.issued[l.token] == Grant(id, z.h.epoch[id], l.attempt)
    ensures Reclaimed(z, id, w, z.Worker(w).l.token, z.Worker(w).l.attempt)
  {
  }

  /** Claiming ready events in order reaches the given one. */
  lemma {:induction false} ClaimUntil(y: System, cfg: Config, cap: Id -> nat, prefix: seq<Event>, x: System, id: Id)
    returns (z: System, evs: seq<Event>, w: nat, token: Token)
    requires Sound(x, cap) && cfg.Valid() && Leads(y, cfg, cap, prefix, x)
    requires At(Abs(x.store.data), id).Some? && At(Abs(x.store.data), id).value.Waiting?
    ensures Sound(z, cap) && Leads(y, cfg, cap, evs, z) && z.h.calls == x.h.calls && z.h.epoch == x.h.epoch
    ensures Reclaimed(z, id, w, token, At(Abs(x.store.data), id).value.attempt + 1)
    decreases |x.store.data.ready|
  {
    hide Sound, Leads, At, Abs, Apply, Careful, Reclaimed;
    var ev := ClaimToward(x, cfg, cap, id);
    OneMore(y, cfg, cap, prefix, x, ev);
    z, evs, w, token := Apply(x, cfg, ev), prefix + [ev], ev.w, ev.token;
    if ev.first.value != id {
      z, evs, w, token := ClaimUntil(y, cfg, cap, evs, z, id);
    }
  }

  lemma ClaimedFacts(z: System, cap: Id -> nat, id: Id, w: nat)
    requires Sound(z, cap) && z.Worker(w).Holding? && z.Worker(w).l.id == id
    requires At(Abs(z.store.data), id).Some? && At(Abs(z.store.data), id).value.InFlight?
    requires At(Abs(z.store.data), id).value.token == z.Worker(w).l.token
    ensures var l := z.Worker(w).l;
            && z.store.data.Holds(id, l.token) && id in z.h.epoch && l.token in z.h.issued
            && z.h.issued[l.token] == Grant(id, z.h.epoch[id], l.attempt)
  {
    AbsMatches(z.store.data, id);
    assert w in z.workers && GoodWorker(z.Worker(w), z.h, cap);
    CurrentLease(z.store, z.h, z.Worker(w), cap);
    hide Abs, Sound;
  }

  lemma ClaimShrinks(y: System, cfg: Config, ev: Event)
    requires Domains(y.store.data) && ev.Claim? && ev.first.Some? && ev.first.value in y.store.data.ready
    ensures |Apply(y, cfg, ev).store.data.ready| < |y.store.data.ready|
  {
    assert Consistent(y.store.data, ev.first.value);
    ClaimTakes(y, cfg, ev);
    hide Apply, Domains;
    DispatchConservation.SizeWithoutOne(y.store.data.ready, ev.first.value);
  }

  lemma ClaimTakes(y: System, cfg: Config, ev: Event)
    requires ev.Claim? && ev.first.Some? && ev.first.value in y.store.data.payload
    ensures Apply(y, cfg, ev).store.data.ready == y.store.data.ready - {ev.first.value}
  {
    hide Granted;
  }

  /** The holder of a current lease whose route is found is about to call. */
  lemma ClearNow(y: System, cfg: Config, cap: Id -> nat, w: nat) returns (ev: Event)
    requires Sound(y, cap) && cfg.Valid() && y.Worker(w).Holding? && y.Worker(w).l.token in y.h.issued
    requires y.store.data.Holds(y.Worker(w).l.id, y.Worker(w).l.token)
    requires 1 <= y.Worker(w).l.attempt <= cap(y.Worker(w).l.id)
    ensures Enabled(y, ev, cap) && Careful(y, ev)
    ensures var z := Apply(y, cfg, ev);
            Sound(z, cap) && z.h.calls == y.h.calls && Pending(z, w, y.h.issued[y.Worker(w).l.token])
  {
    var p := y.Worker(w);
    var i := RouteFound(Route(cap(p.l.id), 0, 0));
    ev := Work(w, i);
    StepKeepsSound(y, cfg, cap, ev);
    NextIs(y.store, cfg, p, i);
    RecordShape(y.store, cfg, y.h, p, i);
    hide Sound, Advance, Record, Perform, Plan;
  }

  lemma StampShape(y: System, cfg: Config, w: nat, now: int)
    requires Domains(y.store.data) && y.Worker(w).Holding?
    ensures var z, id := Apply(y, cfg, Work(w, RouteAbsent(now))), y.Worker(w).l.id;
            && z.h == y.h && Domains(z.store.data) && Abs(z.store.data) == Abs(y.store.data) && id in z.store.data.missing
            && (forall v, g :: Pending(y, v, g) ==> Pending(z, v, g))
  {
    StampEffect(y.store, cfg, y.Worker(w).l, now);
    AdvanceStore(y.store, cfg, y.Worker(w), RouteAbsent(now));
    StampRecord(y.store, cfg, y.h, y.Worker(w), now);
    hide Abs, Domains, Advance, Record, Perform;
  }

  lemma StampRecord(s: Store, cfg: Config, h: History, p: Phase, now: int)
    requires p.Holding?
    ensures Record(s, cfg, h, p, RouteAbsent(now)) == h
  {
  }

  /** From an exposed and marked event: call if nobody did, reclaim with a refund, claim again, clear, and
      call with the same attempt. */
  lemma Repeated(y: System, cfg: Config, cap: Id -> nat, w: nat, now: int) returns (evs: seq<Event>)
    requires Sound(y, cap) && Unrepeated(y, cap) && cfg.Valid() && y.Worker(w).Holding?
    requires Exposed(y, y.Worker(w).l.id)
    ensures var z := Apply(y, cfg, Work(w, RouteAbsent(now)));
            && Legal(z, cfg, cap, evs) && CarefulRun(z, cfg, cap, evs)
            && !Distinct(Exec(z, cfg, cap, evs).h.calls)
  {
    var id, z := y.Worker(w).l.id, Apply(y, cfg, Work(w, RouteAbsent(now)));
    var g, en := ExposedFacts(y, cap, id);
    StepKeepsSound(y, cfg, cap, Work(w, RouteAbsent(now)));
    StampShape(y, cfg, w, now);
    hide Sound, Unrepeated, Apply, Abs, Domains, Exposed, Enabled, Careful, Legal, CarefulRun, Exec, Pending;
    var x;
    x, evs := CalledOnce(z, cfg, cap, g, en, id);
    evs := CalledAgain(z, cfg, cap, evs, x, g, en, id);
  }

  /** What exposure means for the event's entry. */
  lemma ExposedFacts(y: System, cap: Id -> nat, id: Id) returns (g: Grant, en: Entry)
    requires Sound(y, cap) && Unrepeated(y, cap) && Exposed(y, id)
    ensures id in Abs(y.store.data) && en == Abs(y.store.data)[id] && en.InFlight?
    ensures id in y.h.epoch && g == Grant(id, y.h.epoch[id], en.attempt) && 1 <= g.attempt <= cap(id)
    ensures g in y.h.calls || exists v :: Pending(y, v, g)
  {
    AbsMatches(y.store.data, id);
    assert GoodEntry(At(Abs(y.store.data), id), y.h, id);
    en := Abs(y.store.data)[id];
    g := y.h.issued[y.store.data.tokens[id]];
    OutsAre(y, g);
    assert GrantSafe(g, y.h, cap);
    hide Outs, Abs;
  }

  lemma CalledOnce(z: System, cfg: Config, cap: Id -> nat, g: Grant, en: Entry, id: Id) returns (x: System, evs: seq<Event>)
    requires Sound(z, cap) && cfg.Valid() && (g in z.h.calls || exists v :: Pending(z, v, g))
    requires Domains(z.store.data) && id in Abs(z.store.data) && Abs(z.store.data)[id] == en && id in z.store.data.missing
    ensures Sound(x, cap) && Leads(z, cfg, cap, evs, x) && g in x.h.calls && x.h.epoch == z.h.epoch
    ensures Domains(x.store.data) && id in Abs(x.store.data) && Abs(x.store.data)[id] == en && id in x.store.data.missing
  {
    LeadsNowhere(z, cfg, cap);
    x, evs := z, [];
    if g !in z.h.calls {
      var v :| Pending(z, v, g);
      var ev := CallNow(z, cfg, cap, v, g);
      OneMore(z, cfg, cap, [], z, ev);
      StepKeepsSound(z, cfg, cap, ev);
      x, evs := Apply(z, cfg, ev), [] + [ev];
      hide Sound, Abs, Domains, Leads, Apply, Pending;
    }
  }

  lemma CalledAgain(z: System, cfg: Config, cap: Id -> nat, prefix: seq<Event>, x: System, g: Grant, en: Entry, id: Id)
    returns (evs: seq<Event>)
    requires Sound(x, cap) && cfg.Valid() && Leads(z, cfg, cap, prefix, x) && g in x.h.calls
    requires Domains(x.store.data) && id in Abs(x.store.data) && Abs(x.store.data)[id] == en && id in x.store.data.missing
    requires en.InFlight? && id in x.h.epoch && g == Grant(id, x.h.epoch[id], en.attempt) && 1 <= g.attempt <= cap(id)
    ensures Legal(z, cfg, cap, evs) && CarefulRun(z, cfg, cap, evs) && !Distinct(Exec(z, cfg, cap, evs).h.calls)
  {
    hide Sound, Abs, Domains, Apply, Careful, Pending, Leads;
    var ev := ReclaimNow(x, cfg, cap, id);
    OneMore(z, cfg, cap, prefix, x, ev);
    StepKeepsSound(x, cfg, cap, ev);
    var a, w, token;
    a, evs, w, token := ClaimUntil(z, cfg, cap, prefix + [ev], Apply(x, cfg, ev), id);
    ev := ClearNow(a, cfg, cap, w);
    OneMore(z, cfg, cap, evs, a, ev);
    var b := Apply(a, cfg, ev);
    evs := evs + [ev];
    ev := CallNow(b, cfg, cap, w, g);
    OneMore(z, cfg, cap, evs, b, ev);
    evs := evs + [ev];
    SameTwice(b.h.calls, g);
    LeadsThere(z, cfg, cap, evs, Apply(b, cfg, ev));
  }

  lemma LeadsThere(y: System, cfg: Config, cap: Id -> nat, evs: seq<Event>, z: System)
    requires Leads(y, cfg, cap, evs, z)
    ensures Legal(y, cfg, cap, evs) && CarefulRun(y, cfg, cap, evs) && Exec(y, cfg, cap, evs) == z
  {
  }

  lemma SameTwice(calls: seq<Grant>, g: Grant)
    requires g in calls
    ensures !Distinct(calls + [g])
  {
    var i :| 0 <= i < |calls| && calls[i] == g;
    assert (calls + [g])[i] == (calls + [g])[|calls|];
  }

  // --------------------------------------------------------------------------- the failing run

  const CFG := Config(20_000, 20_000)
  const ONCE := Route(1, 1, 1)
  const ID := Id("7")
  const BODY := Body("card")

  function LeaseToken(n: nat): Token {
    Token(if n == 0 then "a" else if n == 1 then "b" else if n == 2 then "c" else "d")
  }

  lemma TokensDiffer()
    ensures LeaseToken(1) != LeaseToken(0) && LeaseToken(2) !in {LeaseToken(0), LeaseToken(1)} && LeaseToken(3) !in {LeaseToken(0), LeaseToken(1), LeaseToken(2)}
  {
    assert "a"[0] == 'a' && "b"[0] == 'b' && "c"[0] == 'c' && "d"[0] == 'd';
  }

  function Idling(n: int, due: int, missing: map<Id, int>): Data {
    Data(map[ID := due], map[], map[ID := BODY], map[ID := n], map[], map[], map[], map[], missing)
  }

  function Busy(n: int, until: int, token: Token, missing: map<Id, int>): Data {
    Data(map[], map[ID := until], map[ID := BODY], map[ID := n], map[ID := token], map[], map[], map[], missing)
  }

  lemma EnqueueAt(y: System)
    requires y == START
    ensures var z := Apply(y, CFG, Enqueue(ID, BODY, 0));
            && z.store.data == Idling(0, 0, map[])
            && z.workers == map[] && z.h.issued == map[] && z.h.calls == [] && z.h.epoch == map[ID := 0]
  {
  }

  lemma ClaimAt(y: System, w: nat, n: int, now: int, token: Token, missing: map<Id, int>)
    requires y.store.data == Idling(n, now, missing) && y.Worker(w).Idle? && token !in y.h.issued
    ensures var ev := Claim(w, now, Some(ID), now + 1, token);
            var z := Apply(y, CFG, ev);
            && Enabled(y, ev, ONE)
            && z.store.data == Busy(n + 1, now + 1, token, missing)
            && z.workers == y.workers[w := Holding(Lease(ID, token, n + 1))]
            && z.h == Granted(y.h, ID, token, n + 1)
  {
    hide Exists, In;
    var d := Claimed(y.store.data, ID, now + 1, token);
    assert d.ready == map[] && d.leased == map[ID := now + 1];
    assert d.attempts == map[ID := n + 1] && d.tokens == map[ID := token];
  }

  lemma StampAt(y: System, w: nat, l: Lease, now: int, d: Data, stamped: map<Id, int>)
    requires y.store.data == d && y.Worker(w) == Holding(l) && l.id == ID
    requires stamped == if ID in d.missing then d.missing else d.missing[ID := now]
    ensures var ev := Work(w, RouteAbsent(now));
            var z := Apply(y, CFG, ev);
            && Enabled(y, ev, ONE)
            && z.store.data == d.(missing := stamped)
            && z.workers == y.workers[w := Missed(l, stamped[ID])] && z.h == y.h
  {
    hide Exists, In;
    var stamp := stamped[ID];
    assert d.missing[ID := stamp] == stamped;
  }

  lemma CrashAt(y: System, w: nat)
    requires !y.Worker(w).Idle?
    ensures var ev := Work(w, Crash);
            var z := Apply(y, CFG, ev);
            Enabled(y, ev, ONE) && z.store == y.store && z.workers == y.workers[w := Idle] && z.h == y.h
  {
  }

  lemma ReclaimIdling(y: System, n: int, now: int, token: Token, missing: map<Id, int>)
    requires y.store.data == Busy(n, now, token, missing) && n > 0
    ensures var ev := Reclaim([ID], now, 1);
            var z := Apply(y, CFG, ev);
            && Enabled(y, ev, ONE)
            && z.store.data == Idling(if ID in missing then n - 1 else n, now, missing)
            && z.workers == y.workers && z.h == y.h.(endings := z.h.endings)
  {
    hide Exists, In;
    var d := y.store.data;
    var f := Returned(d, ID, now);
    assert [ID][..0] == [] && ReclaimedAll(d, [], now) == d;
    assert ReclaimedAll(d, [ID], now) == f;
    assert f.leased == map[] && f.tokens == map[] && f.ready == map[ID := now];
    assert f.attempts == map[ID := if ID in missing then n - 1 else n];
  }

  lemma ClearAt(y: System, w: nat, l: Lease, n: int, until: int, missing: map<Id, int>)
    requires y.store.data == Busy(n, until, l.token, missing) && missing.Keys <= {ID}
    requires y.Worker(w) == Holding(l) && l.id == ID && l.token in y.h.issued
    ensures var ev := Work(w, RouteFound(ONCE));
            var z := Apply(y, CFG, ev);
            && Enabled(y, ev, ONE)
            && z.store.data == Busy(n, until, l.token, map[])
            && z.workers == y.workers[w := Cleared(l, ONCE)]
            && z.h.issued == y.h.issued && z.h.calls == y.h.calls && z.h.epoch == y.h.epoch
  {
    hide Exists, In;
    assert missing - {ID} == map[];
  }

  lemma DeliverAt(y: System, w: nat, l: Lease)
    requires y.Worker(w) == Cleared(l, ONCE) && l.attempt == 1 && l.token in y.h.issued
    ensures var ev := Work(w, Capacity(0, true, 1, BODY));
            var z := Apply(y, CFG, ev);
            && Enabled(y, ev, ONE)
            && z.store == y.store && z.workers == y.workers[w := Delivering(l, ONCE)]
            && z.h == Called(y.h, y.h.issued[l.token])
  {
  }

  /** One attempt for every event. */
  const ONE: Id -> nat := (_: Id) => 1

  ghost predicate Reaches(evs: seq<Event>, y: System) {
    Legal(START, CFG, ONE, evs) && Exec(START, CFG, ONE, evs) == y
  }

  lemma {:induction false} LegalMore(y: System, evs: seq<Event>, ev: Event)
    requires Legal(y, CFG, ONE, evs) && Enabled(Exec(y, CFG, ONE, evs), ev, ONE)
    ensures Legal(y, CFG, ONE, evs + [ev])
    ensures Exec(y, CFG, ONE, evs + [ev]) == Apply(Exec(y, CFG, ONE, evs), CFG, ev)
    decreases |evs|
  {
    hide Apply;
    if evs == [] {
      assert evs + [ev] == [ev] && [ev][1..] == [];
      assert Legal(Apply(y, CFG, ev), CFG, ONE, []);
    } else {
      assert (evs + [ev])[1..] == evs[1..] + [ev];
      LegalMore(Apply(y, CFG, evs[0]), evs[1..], ev);
    }
  }

  lemma Then(y: System, evs: seq<Event>, ev: Event) returns (z: System, more: seq<Event>)
    requires Reaches(evs, y) && Enabled(y, ev, ONE)
    ensures z == Apply(y, CFG, ev) && more == evs + [ev] && Reaches(more, z)
  {
    z, more := Apply(y, CFG, ev), evs + [ev];
    LegalMore(START, evs, ev);
  }

  const MARKED: map<Id, int> := map[ID := 0]

  /** The queue between leases: what is left of the event, and which tokens were used. */
  ghost predicate Between(y: System, due: int, calls: seq<Grant>, used: set<Token>, stalled: Phase) {
    && y.store.data == Idling(0, due, MARKED) && y.h.calls == calls && y.h.epoch == map[ID := 0]
    && y.h.issued.Keys == used && y.Worker(1) == stalled && y.Worker(2).Idle? && y.Worker(3).Idle?
  }

  /** A worker claims, misses, stamps and crashes; the reclaim refunds its attempt. */
  lemma FirstWorker() returns (y: System, evs: seq<Event>)
    ensures Reaches(evs, y) && Between(y, 1, [], {LeaseToken(0)}, Idle)
  {
    hide Apply, Enabled, Reaches, LeaseToken;
    y, evs := START, [];
    assert Reaches([], START) by { NoEvents(); }
    EnqueueAt(START);
    y, evs := Then(y, evs, Enqueue(ID, BODY, 0));
    ClaimAt(y, 0, 0, 0, LeaseToken(0), map[]);
    y, evs := Then(y, evs, Claim(0, 0, Some(ID), 1, LeaseToken(0)));
    StampAt(y, 0, Lease(ID, LeaseToken(0), 1), 0, y.store.data, MARKED);
    y, evs := Then(y, evs, Work(0, RouteAbsent(0)));
    CrashAt(y, 0);
    y, evs := Then(y, evs, Work(0, Crash));
    ReclaimIdling(y, 1, 1, LeaseToken(0), MARKED);
    y, evs := Then(y, evs, Reclaim([ID], 1, 1));
  }

  lemma NoEvents()
    ensures Reaches([], START) && Enabled(START, Enqueue(ID, BODY, 0), ONE)
  {
  }

  /** Worker 1 claims and stalls before its own stamp; its lease is reclaimed with a refund. */
  lemma StalledWorker(x: System, prefix: seq<Event>) returns (y: System, evs: seq<Event>)
    requires Reaches(prefix, x) && Between(x, 1, [], {LeaseToken(0)}, Idle)
    ensures Reaches(evs, y) && Between(y, 2, [], {LeaseToken(0), LeaseToken(1)}, Holding(Lease(ID, LeaseToken(1), 1)))
  {
    hide Apply, Enabled, Reaches, LeaseToken;
    TokensDiffer();
    y, evs := x, prefix;
    ClaimAt(y, 1, 0, 1, LeaseToken(1), MARKED);
    y, evs := Then(y, evs, Claim(1, 1, Some(ID), 2, LeaseToken(1)));
    ReclaimIdling(y, 1, 2, LeaseToken(1), MARKED);
    y, evs := Then(y, evs, Reclaim([ID], 2, 1));
  }

  /** Worker 2 clears the marker; the stale stamp lands; worker 2 delivers, crashes and is refunded. */
  lemma FirstDelivery(x: System, prefix: seq<Event>) returns (y: System, evs: seq<Event>)
    requires Reaches(prefix, x) && Between(x, 2, [], {LeaseToken(0), LeaseToken(1)}, Holding(Lease(ID, LeaseToken(1), 1)))
    ensures Reaches(evs, y) && y.store.data == Idling(0, 3, map[ID := 2]) && y.Worker(3).Idle?
    ensures y.h.calls == [Grant(ID, 0, 1)] && y.h.epoch == map[ID := 0] && y.h.issued.Keys == {LeaseToken(0), LeaseToken(1), LeaseToken(2)}
  {
    hide Apply, Enabled, Reaches, LeaseToken;
    TokensDiffer();
    y, evs := x, prefix;
    ClaimAt(y, 2, 0, 2, LeaseToken(2), MARKED);
    y, evs := Then(y, evs, Claim(2, 2, Some(ID), 3, LeaseToken(2)));
    var l := Lease(ID, LeaseToken(2), 1);
    ClearAt(y, 2, l, 1, 3, MARKED);
    y, evs := Then(y, evs, Work(2, RouteFound(ONCE)));
    StampAt(y, 1, Lease(ID, LeaseToken(1), 1), 2, y.store.data, map[ID := 2]);
    y, evs := Then(y, evs, Work(1, RouteAbsent(2)));
    DeliverAt(y, 2, l);
    y, evs := Then(y, evs, Work(2, Capacity(0, true, 1, BODY)));
    CrashAt(y, 2);
    y, evs := Then(y, evs, Work(2, Crash));
    ReclaimIdling(y, 1, 3, LeaseToken(2), map[ID := 2]);
    y, evs := Then(y, evs, Reclaim([ID], 3, 1));
  }

  /** Worker 3 delivers the same attempt again. */
  lemma SecondDelivery(x: System, prefix: seq<Event>) returns (y: System, evs: seq<Event>)
    requires Reaches(prefix, x) && x.store.data == Idling(0, 3, map[ID := 2]) && x.Worker(3).Idle?
    requires x.h.calls == [Grant(ID, 0, 1)] && x.h.epoch == map[ID := 0] && x.h.issued.Keys == {LeaseToken(0), LeaseToken(1), LeaseToken(2)}
    ensures Reaches(evs, y) && y.h.calls == [Grant(ID, 0, 1), Grant(ID, 0, 1)]
  {
    hide Apply, Enabled, Reaches, LeaseToken;
    TokensDiffer();
    y, evs := x, prefix;
    ClaimAt(y, 3, 0, 3, LeaseToken(3), map[ID := 2]);
    y, evs := Then(y, evs, Claim(3, 3, Some(ID), 4, LeaseToken(3)));
    var l := Lease(ID, LeaseToken(3), 1);
    ClearAt(y, 3, l, 1, 4, map[ID := 2]);
    y, evs := Then(y, evs, Work(3, RouteFound(ONCE)));
    DeliverAt(y, 3, l);
    y, evs := Then(y, evs, Work(3, Capacity(0, true, 1, BODY)));
  }

  /** With MaxAttempts 1 the callback is called twice for one enqueue. */
  lemma StaleStampBreaksTheBound() returns (evs: seq<Event>)
    ensures CFG.Valid() && Legal(START, CFG, ONE, evs) && ONE(ID) == 1
    ensures |CallsFor(Exec(START, CFG, ONE, evs).h.calls, ID, 0)| == 2
  {
    var y;
    y, evs := FirstWorker();
    y, evs := StalledWorker(y, evs);
    y, evs := FirstDelivery(y, evs);
    y, evs := SecondDelivery(y, evs);
    var g := Grant(ID, 0, 1);
    assert [g, g][1..] == [g] && [g][1..] == [];
    assert CallsFor([], ID, 0) == [] && CallsFor([g], ID, 0) == [g] && CallsFor([g, g], ID, 0) == [g, g];
  }
}
