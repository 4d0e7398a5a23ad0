/** Dispatcher.ProcessOne: what one worker does with one lease, cut at its queue calls so that other
    workers, reclaims and crashes can fall between any two of them. */
module ProcessOne {
  import opened Prelude
  import opened SortedSets
  import opened QueueScripts
  import opened RedisQueue

  datatype Route = Route(maxAttempts: int, baseBackoff: int, maxBackoff: int) {
    /** What registry validation admits. */
    predicate Valid() {
      1 <= maxAttempts <= 10 && 0 < baseBackoff <= maxBackoff
    }
  }

  // ------------------------------------------------------------------------------------ backoff

  function Pow2(n: nat): nat {
    if n == 0 then 1 else 2 * Pow2(n - 1)
  }

  function Min(a: int, b: int): int {
    if a <= b then a else b
  }

  /** Base * 2^(attempt-1), capped. */
  function Backoff(attempt: int, route: Route): int {
    Min(route.maxBackoff, route.baseBackoff * Pow2(if attempt < 1 then 0 else attempt - 1))
  }

  lemma {:induction false} Pow2Grows(m: nat, n: nat)
    requires m <= n
    ensures 1 <= Pow2(m) <= Pow2(n)
  {
    if m < n {
      Pow2Grows(m, n - 1);
    } else if m > 0 {
      Pow2Grows(m - 1, n - 1);
    }
  }

  lemma ScaledGrows(base: int, m: nat, n: nat)
    requires 0 <= base && m <= n
    ensures base * Pow2(m) <= base * Pow2(n)
  {
    Pow2Grows(m, n);
  }

  /** The doubling loop computes the capped exponential, and no intermediate value ever exceeds the
      cap, so the 64-bit Duration never overflows however large the attempt is. */
  method RetryBackoff(attempt: int, route: Option<Route>) returns (delay: int)
    requires route.Some? ==> 0 <= route.value.baseBackoff && 0 <= route.value.maxBackoff
    ensures route.None? ==> delay == 0
    ensures route.Some? ==> delay == Backoff(attempt, route.value)
  {
    if route.None? {
      return 0;
    }
    var r := route.value;
    delay := r.baseBackoff;
    var i := 1;
    while i < attempt && delay < r.maxBackoff
      invariant 1 <= i && (i <= attempt || i == 1)
      invariant delay == r.baseBackoff * Pow2(i - 1)
      invariant delay <= r.maxBackoff || delay == r.baseBackoff
      decreases attempt - i
    {
      if delay > r.maxBackoff / 2 {
        ScaledGrows(r.baseBackoff, i, attempt - 1);
        return r.maxBackoff;
      }
      assert delay * 2 <= r.maxBackoff;
      delay := delay * 2;
      i := i + 1;
    }
    if 1 < attempt {
      ScaledGrows(r.baseBackoff, i - 1, attempt - 1);
    }
    if delay > r.maxBackoff {
      return r.maxBackoff;
    }
  }

  // -------------------------------------------------------------------------- the worker's steps

  datatype Phase =
    | Idle
    | Holding(l: Lease)
    | Missed(l: Lease, firstSeen: int)
    | Cleared(l: Lease, route: Route)
    | Delivering(l: Lease, route: Route)
    | Finalizing(l: Lease, route: Route, lost: bool)

  /** What the environment decides at each step: registry lookup, clock readings, capacity, and the
      outcomes of Deliver and Finalize. */
  datatype Input =
    | RouteAbsent(now: int)
    | RouteFound(route: Route)
    | MissDecision(checkedAt: int, actedAt: int, meta: Body)
    | Capacity(now: int, free: bool, poll: int, meta: Body)
    | DeliverFailed(now: int, retry: bool, meta: Body)
    | DeliverOk
    | Heartbeat(now: int, duration: int)
    | Finalized(now: int, ok: bool, meta: Body)
    | Crash

  predicate Fits(p: Phase, i: Input) {
    match p
    case Idle => false
    case Holding(_) => i.RouteAbsent? || i.RouteFound? || i.Crash?
    case Missed(_, _) => i.MissDecision? || i.Crash?
    case Cleared(_, _) => i.Capacity? || i.Crash?
    case Delivering(_, _) => i.DeliverFailed? || i.DeliverOk? || i.Crash?
    case Finalizing(_, _, _) => i.Heartbeat? || i.Finalized? || i.Crash?
  }

  predicate RouteMissingExpired(firstSeen: int, now: int) {
    now - firstSeen >= ROUTE_MISSING_WINDOW_MS
  }

  /** The queue call a step ends in. */
  datatype Action =
    | Nothing
    | Mark(now: int)
    | Clear
    | PutBack(due: int)
    | Reject(now: int, delay: int, maxAttempts: int, meta: Body)
    | Extend(until: int)
    | Finish

  /** Dispatcher.nack: a permanent failure uses the lease's own attempt as the limit. */
  function FailAction(l: Lease, now: int, retry: bool, route: Route, meta: Body): Action {
    if retry then Reject(now, Backoff(l.attempt, route), route.maxAttempts, meta) else Reject(now, 0, l.attempt, meta)
  }

  function Plan(p: Phase, i: Input): Action
    requires Fits(p, i)
  {
    match i
    case RouteAbsent(now) => Mark(now)
    case RouteFound(_) => Clear
    case MissDecision(checkedAt, actedAt, meta) =>
      if RouteMissingExpired(p.firstSeen, checkedAt) then Reject(actedAt, 0, p.l.attempt, meta)
      else PutBack(actedAt + ROUTE_MISSING_DEFER_MS)
    case Capacity(now, free, poll, meta) =>
      if p.l.attempt > p.route.maxAttempts then Reject(now, 0, p.route.maxAttempts, meta)
      else if free then Nothing
      else PutBack(now + poll)
    case DeliverFailed(now, retry, meta) => FailAction(p.l, now, retry, p.route, meta)
    case DeliverOk => Nothing
    case Heartbeat(now, duration) => if p.lost || duration <= 0 then Nothing else Extend(now + duration)
    case Finalized(now, ok, meta) =>
      if p.lost then Nothing else if ok then Finish else FailAction(p.l, now, true, p.route, meta)
    case Crash => Nothing
  }

  datatype Reply = Done(ok: bool) | Stamp(at: int)

  /** The scripts behind the calls; RedisQueue.Nack refuses a bad policy before its script runs. */
  function Perform(s: Store, cfg: Config, l: Lease, a: Action): (Store, Reply) {
    match a
    case Nothing => (s, Done(false))
    case Mark(now) => var (t, stamp) := RouteMissingScript(s, cfg, l.id, now); (t, Stamp(stamp))
    case Clear => var (t, ok) := ClearRouteMissingScript(s, l.id, l.token); (t, Done(ok))
    case PutBack(due) => var (t, ok) := DeferScript(s, cfg, l.id, l.token, due); (t, Done(ok))
    case Reject(now, delay, maxAttempts, meta) =>
      if maxAttempts < 1 || delay < 0 then (s, Done(false))
      else var (t, r) := NackScript(s, cfg, l.id, l.token, now, delay, maxAttempts, meta); (t, Done(!r.TokenMismatch?))
    case Extend(until) => var (t, ok) := RenewScript(s, cfg, l.id, l.token, until); (t, Done(ok))
    case Finish => var (t, ok) := AckScript(s, l.id, l.token); (t, Done(ok))
  }

  /** The slot is taken and the callback is invoked. */
  predicate Delivers(p: Phase, i: Input)
    requires Fits(p, i)
  {
    i.Capacity? && i.free && p.l.attempt <= p.route.maxAttempts
  }

  function Next(p: Phase, i: Input, r: Reply): Phase
    requires Fits(p, i)
  {
    match i
    case RouteAbsent(now) => if r.Stamp? then Missed(p.l, r.at) else Idle
    case RouteFound(route) => if r == Done(true) then Cleared(p.l, route) else Idle
    case Capacity(_, _, _, _) => if Delivers(p, i) then Delivering(p.l, p.route) else Idle
    case DeliverOk => Finalizing(p.l, p.route, false)
    case Heartbeat(_, _) => p.(lost := r != Done(true))
    case _ => Idle
  }

  datatype Outcome = Outcome(store: Store, phase: Phase, delivered: bool)

  /** One step of a worker: local decisions and the one queue call they lead to. */
  function Advance(s: Store, cfg: Config, p: Phase, i: Input): Outcome
    requires Fits(p, i)
  {
    var (t, r) := Perform(s, cfg, p.l, Plan(p, i));
    Outcome(t, Next(p, i, r), Delivers(p, i))
  }

  // ----------------------------------------------------------------------- the straight-line code

  datatype Run = Run(store: Store, phase: Phase, deliveries: nat)

  function Counting(delivered: nat, r: Option<Run>): Option<Run> {
    if r.None? then None else Some(r.value.(deliveries := delivered + r.value.deliveries))
  }

  /** Steps of one worker with nothing in between: final state, phase and number of Deliver calls. */
  function Drive(s: Store, cfg: Config, p: Phase, steps: seq<Input>): Option<Run>
    decreases |steps|
  {
    if steps == [] then Some(Run(s, p, 0))
    else if !Fits(p, steps[0]) then None
    else
      var o := Advance(s, cfg, p, steps[0]);
      Counting(if o.delivered then 1 else 0, Drive(o.store, cfg, o.phase, steps[1..]))
  }

  datatype Delivery = Applied | Failed(retry: bool)

  /** Everything ProcessOne learns from outside the queue. */
  datatype Handling = Handling(
    claimAt: int, duration: int, token: Token, route: Option<Route>, seenAt: int, checkedAt: int, decideAt: int,
    free: bool, poll: int, delivery: Delivery, beats: seq<int>, finalized: bool, meta: Body)

  /** A step takes from the handling what it learned for that step, and the worker does not crash. */
  ghost predicate Reports(i: Input, h: Handling) {
    match i
    case RouteAbsent(now) => h.route.None? && now == h.seenAt
    case RouteFound(route) => h.route == Some(route)
    case MissDecision(checkedAt, actedAt, meta) => checkedAt == h.checkedAt && actedAt == h.decideAt && meta == h.meta
    case Capacity(now, free, poll, meta) => now == h.decideAt && free == h.free && poll == h.poll && meta == h.meta
    case DeliverFailed(now, retry, meta) => h.delivery == Failed(retry) && now == h.decideAt && meta == h.meta
    case DeliverOk => h.delivery.Applied?
    case Heartbeat(now, duration) => now in h.beats && duration == h.duration
    case Finalized(now, ok, meta) => now == h.decideAt && ok == h.finalized && meta == h.meta
    case Crash => false
  }

  ghost predicate AllReport(steps: seq<Input>, h: Handling) {
    forall k :: 0 <= k < |steps| ==> Reports(steps[k], h)
  }

  lemma {:induction false} DriveConcat(s: Store, cfg: Config, p: Phase, a: seq<Input>, b: seq<Input>)
    requires Drive(s, cfg, p, a).Some?
    ensures var r := Drive(s, cfg, p, a).value;
            Drive(s, cfg, p, a + b) == Counting(r.deliveries, Drive(r.store, cfg, r.phase, b))
    decreases |a|
  {
    if a == [] {
      assert a + b == b;
    } else {
      assert (a + b)[1..] == a[1..] + b && (a + b)[0] == a[0];
      hide Advance, Fits;
      var o := Advance(s, cfg, p, a[0]);
      DriveConcat(o.store, cfg, o.phase, a[1..], b);
      var r := Drive(o.store, cfg, o.phase, a[1..]).value;
      CountingTwice(if o.delivered then 1 else 0, r.deliveries, Drive(r.store, cfg, r.phase, b));
    }
  }

  lemma CountingTwice(m: nat, n: nat, r: Option<Run>)
    ensures Counting(m, Counting(n, r)) == Counting(m + n, r)
  {
  }

  lemma DriveOne(s: Store, cfg: Config, p: Phase, i: Input)
    requires Fits(p, i)
    ensures var o := Advance(s, cfg, p, i);
            Drive(s, cfg, p, [i]) == Some(Run(o.store, o.phase, if o.delivered then 1 else 0))
  {
    hide Advance, Fits;
    var o := Advance(s, cfg, p, i);
    assert [i][1..] == [];
    assert Drive(o.store, cfg, o.phase, []) == Some(Run(o.store, o.phase, 0));
  }

  /** The heartbeat goroutine: renew at every tick until one renewal is refused. */
  method Heartbeats(q: Queue, l: Lease, route: Route, h: Handling) returns (lost: bool, ghost steps: seq<Input>)
    modifies q
    ensures Drive(old(q.State()), q.cfg, Finalizing(l, route, false), steps)
         == Some(Run(q.State(), Finalizing(l, route, lost), 0))
    ensures AllReport(steps, h) && |steps| <= |h.beats| && (|steps| == |h.beats| || lost)
    ensures forall k :: 0 <= k < |steps| ==> steps[k] == Heartbeat(h.beats[k], h.duration)
  {
    lost := false;
    steps := [];
    for i := 0 to |h.beats|
      invariant Drive(old(q.State()), q.cfg, Finalizing(l, route, false), steps)
             == Some(Run(q.State(), Finalizing(l, route, lost), 0))
      invariant AllReport(steps, h) && |steps| == i
      invariant forall k :: 0 <= k < |steps| ==> steps[k] == Heartbeat(h.beats[k], h.duration)
    {
      if lost {
        return;
      }
      ghost var beat := Heartbeat(h.beats[i], h.duration);
      DriveConcat(old(q.State()), q.cfg, Finalizing(l, route, false), steps, [beat]);
      DriveOne(q.State(), q.cfg, Finalizing(l, route, lost), beat);
      var r := q.Renew(l.id, l.token, h.beats[i], h.duration);
      lost := r.Err? || !r.value;
      steps := steps + [beat];
    }
  }

  /** Dispatcher.nack. */
  method Fail(q: Queue, l: Lease, now: int, retry: bool, route: Route, meta: Body)
    requires route.Valid()
    modifies q
    ensures q.State() == Perform(old(q.State()), q.cfg, l, FailAction(l, now, retry, route, meta)).0
  {
    var delay := 0;
    var maxAttempts := route.maxAttempts;
    if retry {
      delay := RetryBackoff(l.attempt, Some(route));
    } else {
      maxAttempts := l.attempt;
    }
    var _ := q.Nack(l, now, delay, maxAttempts, meta);
  }

  /** The route-missing branch. */
  method HandleMissing(q: Queue, l: Lease, h: Handling) returns (ghost steps: seq<Input>)
    requires h.route.None?
    modifies q
    ensures Drive(old(q.State()), q.cfg, Holding(l), steps) == Some(Run(q.State(), Idle, 0)) && AllReport(steps, h)
  {
    ghost var absent, decide := RouteAbsent(h.seenAt), MissDecision(h.checkedAt, h.decideAt, h.meta);
    DriveOne(q.State(), q.cfg, Holding(l), absent);
    var stamp := q.RouteMissingSeenAt(l.id, h.seenAt);
    DriveOne(q.State(), q.cfg, Missed(l, stamp), decide);
    DriveConcat(old(q.State()), q.cfg, Holding(l), [absent], [decide]);
    if RouteMissingExpired(stamp, h.checkedAt) {
      var _ := q.Nack(l, h.decideAt, 0, l.attempt, h.meta);
    } else {
      var _ := q.Defer(l.id, l.token, h.decideAt + ROUTE_MISSING_DEFER_MS);
    }
    steps := [absent] + [decide];
  }

  /** From the capacity check on, with the marker cleared. */
  method HandleCleared(q: Queue, l: Lease, route: Route, h: Handling) returns (deliveries: nat, ghost steps: seq<Input>)
    requires route.Valid()
    modifies q
    ensures Drive(old(q.State()), q.cfg, Cleared(l, route), steps) == Some(Run(q.State(), Idle, deliveries))
    ensures AllReport(steps, h)
  {
    ghost var capacity := Capacity(h.decideAt, h.free, h.poll, h.meta);
    DriveOne(q.State(), q.cfg, Cleared(l, route), capacity);
    steps := [capacity];
    deliveries := 0;
    if l.attempt > route.maxAttempts {
      var _ := q.Nack(l, h.decideAt, 0, route.maxAttempts, h.meta);
      return;
    }
    if !h.free {
      var _ := q.Defer(l.id, l.token, h.decideAt + h.poll);
      return;
    }
    deliveries := 1;
    ghost var rest := HandleDelivering(q, l, route, h);
    DriveConcat(old(q.State()), q.cfg, Cleared(l, route), [capacity], rest);
    steps := [capacity] + rest;
  }

  method HandleDelivering(q: Queue, l: Lease, route: Route, h: Handling) returns (ghost steps: seq<Input>)
    requires route.Valid()
    modifies q
    ensures Drive(old(q.State()), q.cfg, Delivering(l, route), steps) == Some(Run(q.State(), Idle, 0))
    ensures AllReport(steps, h)
  {
    if h.delivery.Failed? {
      ghost var failed := DeliverFailed(h.decideAt, h.delivery.retry, h.meta);
      DriveOne(q.State(), q.cfg, Delivering(l, route), failed);
      Fail(q, l, h.decideAt, h.delivery.retry, route, h.meta);
      return [failed];
    }
    DriveOne(q.State(), q.cfg, Delivering(l, route), DeliverOk);
    ghost var rest := HandleFinalizing(q, l, route, h);
    DriveConcat(old(q.State()), q.cfg, Delivering(l, route), [DeliverOk], rest);
    return [DeliverOk] + rest;
  }

  method HandleFinalizing(q: Queue, l: Lease, route: Route, h: Handling) returns (ghost steps: seq<Input>)
    requires route.Valid()
    modifies q
    ensures Drive(old(q.State()), q.cfg, Finalizing(l, route, false), steps) == Some(Run(q.State(), Idle, 0))
    ensures AllReport(steps, h)
  {
    var lost;
    ghost var beats;
    lost, beats := Heartbeats(q, l, route, h);
    ghost var end := Finalized(h.decideAt, h.finalized, h.meta);
    DriveConcat(old(q.State()), q.cfg, Finalizing(l, route, false), beats, [end]);
    DriveOne(q.State(), q.cfg, Finalizing(l, route, lost), end);
    steps := beats + [end];
    if !lost {
      if !h.finalized {
        Fail(q, l, h.decideAt, true, route, h.meta);
      } else {
        var _ := q.Ack(l.id, l.token);
      }
    }
  }

  /** The branch with a route: the marker is cleared first, under the lease token. */
  method HandleFound(q: Queue, l: Lease, route: Route, h: Handling) returns (deliveries: nat, ghost steps: seq<Input>)
    requires route.Valid() && h.route == Some(route)
    modifies q
    ensures Drive(old(q.State()), q.cfg, Holding(l), steps) == Some(Run(q.State(), Idle, deliveries))
    ensures AllReport(steps, h)
  {
    ghost var found := RouteFound(route);
    DriveOne(q.State(), q.cfg, Holding(l), found);
    var cleared := q.ClearRouteMissing(l.id, l.token);
    steps, deliveries := [found], 0;
    if cleared {
      ghost var rest;
      deliveries, rest := HandleCleared(q, l, route, h);
      DriveConcat(old(q.State()), q.cfg, Holding(l), [found], rest);
      steps := [found] + rest;
    }
  }

  /** ProcessOne as written: claim, then handle the lease to a queue transition. Run without
      interference it is exactly the worker's steps from Holding to Idle. */
  method ProcessOne(q: Queue, h: Handling)
    returns (handled: bool, deliveries: nat, ghost first: Option<Id>, ghost steps: seq<Input>)
    requires h.duration > 0 && (h.route.Some? ==> h.route.value.Valid())
    modifies q
    ensures IsFirstDue(old(q.ready), h.claimAt, first)
    ensures var (t, lease) := ClaimScript(old(q.State()), q.cfg, first, h.claimAt + h.duration, h.token);
            && handled == lease.Some?
            && if handled then Drive(t, q.cfg, Holding(lease.value), steps) == Some(Run(q.State(), Idle, deliveries))
               else q.State() == t && deliveries == 0
    ensures AllReport(steps, h)
  {
    hide Drive, ClaimScript, IsFirstDue;
    var claimed;
    claimed, first := q.Claim(h.claimAt, h.duration, h.token);
    steps, deliveries := [], 0;
    if claimed.value.None? {
      return false, 0, first, [];
    }
    handled := true;
    var l := claimed.value.value;
    if h.route.None? {
      steps := HandleMissing(q, l, h);
      return;
    }
    deliveries, steps := HandleFound(q, l, h.route.value, h);
  }
}
