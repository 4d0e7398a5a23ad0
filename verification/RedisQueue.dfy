/** RedisQueue: the Lua scripts as in-place updates of the nine keys, and the Go methods that pass
    their arguments. Every method is proved to leave exactly the state of its script function. */
module RedisQueue {
  import opened Prelude
  import opened SortedSets
  import opened QueueScripts

  datatype Refusal = InvalidLease | InvalidPolicy | InvalidLimit | ScriptFailed
    | NoClient | InvalidPrefix | InvalidRetention | LiveTTLTooShort

  const NANOS_PER_MILLI := 1_000_000

  /** The characters strings.TrimSpace trims. */
  predicate IsSpace(c: char) {
    || '\t' <= c <= '\r' || c == ' ' || c == '\U{85}' || c == '\U{a0}' || c == '\U{1680}' || '\U{2000}' <= c <= '\U{200a}'
    || c == '\U{2028}' || c == '\U{2029}' || c == '\U{202f}' || c == '\U{205f}' || c == '\U{3000}'
  }

  predicate GoodPrefix(prefix: string) {
    && (exists i :: 0 <= i < |prefix| && !IsSpace(prefix[i]))
    && (forall i :: 0 <= i < |prefix| ==> prefix[i] !in " \t\r\n")
  }

  /** A queue over the keys as they are, in a deployment whose durations are nanoseconds. A queue that
      comes to be has whole milliseconds long enough for the scripts, though a positive retention may
      have become 0. */
  method NewRedisQueue(client: Option<Store>, prefix: string, liveTTL: int, retention: int) returns (r: Result<Queue, Refusal>)
    ensures r.Ok? <==> client.Some? && GoodPrefix(prefix) && retention > 0
                       && liveTTL >= 4 * ROUTE_MISSING_DEFER_MS * NANOS_PER_MILLI
    ensures r.Ok? ==> fresh(r.value) && r.value.State() == client.value && r.value.cfg.Valid()
    ensures r.Ok? ==> r.value.cfg.liveTTL * NANOS_PER_MILLI <= liveTTL < (r.value.cfg.liveTTL + 1) * NANOS_PER_MILLI
    ensures r.Ok? ==> r.value.cfg.dlqRetention * NANOS_PER_MILLI <= retention < (r.value.cfg.dlqRetention + 1) * NANOS_PER_MILLI
    ensures r.Err? ==> match r.error
                       case NoClient => client.None?
                       case InvalidPrefix => !GoodPrefix(prefix)
                       case InvalidRetention => liveTTL <= 0 || retention <= 0
                       case LiveTTLTooShort => 0 < liveTTL < 20_000 * NANOS_PER_MILLI
                       case _ => false
  {
    if client.None? {
      return Err(NoClient);
    }
    if !GoodPrefix(prefix) {
      return Err(InvalidPrefix);
    }
    if liveTTL <= 0 || retention <= 0 {
      return Err(InvalidRetention);
    }
    if liveTTL < 4 * ROUTE_MISSING_DEFER_MS * NANOS_PER_MILLI {
      return Err(LiveTTLTooShort);
    }
    var q := new Queue(Config(liveTTL / NANOS_PER_MILLI, retention / NANOS_PER_MILLI), client.value);
    return Ok(q);
  }

  class Queue {
    const cfg: Config
    var ready: ZSet
    var leased: ZSet
    var payload: map<Id, Body>
    var attempts: map<Id, int>
    var tokens: map<Id, Token>
    var dlq: ZSet
    var dlqPayload: map<Id, Body>
    var dlqMeta: map<Id, Body>
    var missing: map<Id, int>
    var deadline: map<Key, int>
    var clock: int

    ghost function Keys(): Data
      reads this
    {
      Data(ready, leased, payload, attempts, tokens, dlq, dlqPayload, dlqMeta, missing)
    }

    ghost function State(): Store
      reads this
    {
      Store(Keys(), deadline, clock)
    }

    /** Bound to whatever the nine keys already hold. */
    constructor (cfg: Config, s: Store)
      ensures this.cfg == cfg && State() == s
    {
      this.cfg := cfg;
      ready, leased, payload := s.data.ready, s.data.leased, s.data.payload;
      attempts, tokens, missing := s.data.attempts, s.data.tokens, s.data.missing;
      dlq, dlqPayload, dlqMeta := s.data.dlq, s.data.dlqPayload, s.data.dlqMeta;
      deadline, clock := s.deadline, s.clock;
    }

    /** `for i = 1, n do PEXPIRE KEYS[i] ttl end`, and the deadlines lost with emptied keys. */
    method Expire(g: Group, ttl: int)
      modifies this`deadline
      ensures deadline == old(State()).With(old(Keys()), g, ttl).deadline
    {
      hide Exists;
      var keys: set<Key> := {Ready, Leased, Payload, Attempts, Tokens, Dlq, DlqPayload, DlqMeta, RouteMissing};
      var before := deadline;
      var after: map<Key, int> := map[];
      while keys != {}
        invariant forall k :: k in after ==> k !in keys && Exists(Keys(), k) && (In(k, g) || k in before)
        invariant forall k :: k in after ==> after[k] == if In(k, g) then clock + ttl else before[k]
        invariant forall k: Key :: k !in keys && Exists(Keys(), k) && (In(k, g) || k in before) ==> k in after
        decreases keys
      {
        var k :| k in keys;
        keys := keys - {k};
        if Present(k) {
          if In(k, g) {
            after := after[k := clock + ttl];
          } else if k in before {
            after := after[k := before[k]];
          }
        }
      }
      deadline := after;
    }

    predicate Present(k: Key)
      reads this
      ensures Present(k) == Exists(Keys(), k)
    {
      match k
      case Ready => ready != map[]
      case Leased => leased != map[]
      case Payload => payload != map[]
      case Attempts => attempts != map[]
      case Tokens => tokens != map[]
      case Dlq => dlq != map[]
      case DlqPayload => dlqPayload != map[]
      case DlqMeta => dlqMeta != map[]
      case RouteMissing => missing != map[]
    }

    /** The enqueue script. */
    method Enqueue(id: Id, body: Body, due: int) returns (ok: bool)
      modifies this
      ensures (State(), ok) == EnqueueScript(old(State()), cfg, id, body, due)
    {
      if id in dlqPayload || id in payload {
        return false;
      }
      payload := payload[id := body];
      attempts := attempts[id := 0];
      ready := ready[id := due];
      Expire(LiveKeys, cfg.liveTTL);
      return true;
    }

    method Claim(now: int, duration: int, token: Token) returns (r: Result<Option<Lease>, Refusal>, ghost first: Option<Id>)
      modifies this
      ensures duration <= 0 ==> r == Err(InvalidLease) && State() == old(State())
      ensures duration > 0 ==>
                && IsFirstDue(old(ready), now, first)
                && var (t, lease) := ClaimScript(old(State()), cfg, first, now + duration, token);
                   State() == t && r == Ok(lease)
    {
      first := None;
      if duration <= 0 {
        return Err(InvalidLease), first;
      }
      var due := FirstDue(ready, now);
      first := due;
      if due.None? {
        return Ok(None), first;
      }
      var lease := Take(due.value, now + duration, token);
      return Ok(lease), first;
    }

    /** The claim script from its first due member on. */
    method Take(id: Id, until: int, token: Token) returns (lease: Option<Lease>)
      modifies this
      ensures (State(), lease) == ClaimScript(old(State()), cfg, Some(id), until, token)
    {
      if id !in payload {
        ready := ready - {id};
        attempts := attempts - {id};
        Expire(NoKeys, 0);
        return None;
      }
      var attempt := LeaseOut(id, until, token);
      hide Claimed;
      Expire(LiveKeys, cfg.liveTTL);
      return Some(Lease(id, token, attempt));
    }

    method LeaseOut(id: Id, until: int, token: Token) returns (attempt: int)
      modifies this`ready, this`attempts, this`leased, this`tokens
      ensures Keys() == Claimed(old(Keys()), id, until, token)
      ensures attempt == old(Keys()).Attempt(id) + 1
    {
      ready := ready - {id};
      attempt := (if id in attempts then attempts[id] else 0) + 1;
      attempts := attempts[id := attempt];
      leased := leased[id := until];
      tokens := tokens[id := token];
    }

    method Ack(id: Id, token: Token) returns (ok: bool)
      modifies this
      ensures (State(), ok) == AckScript(old(State()), id, token)
    {
      if id !in tokens || tokens[id] != token {
        return false;
      }
      leased := leased - {id};
      payload := payload - {id};
      attempts := attempts - {id};
      tokens := tokens - {id};
      missing := missing - {id};
      Expire(NoKeys, 0);
      return true;
    }

    method Renew(id: Id, token: Token, now: int, duration: int) returns (r: Result<bool, Refusal>)
      modifies this
      ensures duration <= 0 ==> r == Err(InvalidLease) && State() == old(State())
      ensures duration > 0 ==>
                var (t, ok) := RenewScript(old(State()), cfg, id, token, now + duration);
                State() == t && r == Ok(ok)
    {
      if duration <= 0 {
        return Err(InvalidLease);
      }
      if id !in tokens || tokens[id] != token {
        return Ok(false);
      }
      if id !in leased {
        return Ok(false);
      }
      leased := leased[id := now + duration];
      Expire(LiveKeys, cfg.liveTTL);
      return Ok(true);
    }

    method Defer(id: Id, token: Token, due: int) returns (ok: bool)
      modifies this
      ensures (State(), ok) == DeferScript(old(State()), cfg, id, token, due)
    {
      if id !in tokens || tokens[id] != token {
        return false;
      }
      if id !in leased {
        return false;
      }
      leased := leased - {id};
      tokens := tokens - {id};
      Refund(id);
      ready := ready[id := due];
      Expire(LiveKeys, cfg.liveTTL);
      return true;
    }

    /** `if attempt > 0 then HINCRBY -1`. */
    method Refund(id: Id)
      modifies this`attempts
      ensures attempts == old(Keys()).Refunded(id)
    {
      var attempt := if id in attempts then attempts[id] else 0;
      if attempt > 0 {
        attempts := attempts[id := attempt - 1];
      }
    }

    method Nack(l: Lease, now: int, delay: int, maxAttempts: int, meta: Body) returns (r: Result<NackReply, Refusal>)
      modifies this
      ensures maxAttempts < 1 || delay < 0 ==> r == Err(InvalidPolicy) && State() == old(State())
      ensures maxAttempts >= 1 && delay >= 0 ==>
                var (t, reply) := NackScript(old(State()), cfg, l.id, l.token, now, delay, maxAttempts, meta);
                State() == t && r == if reply.ScriptError? then Err(ScriptFailed) else Ok(reply)
    {
      if maxAttempts < 1 || delay < 0 {
        return Err(InvalidPolicy);
      }
      var reply := NackRun(l.id, l.token, now, delay, maxAttempts, meta);
      return if reply.ScriptError? then Err(ScriptFailed) else Ok(reply);
    }

    /** The nack script. */
    method NackRun(id: Id, token: Token, now: int, delay: int, maxAttempts: int, meta: Body) returns (reply: NackReply)
      modifies this
      ensures (State(), reply) == NackScript(old(State()), cfg, id, token, now, delay, maxAttempts, meta)
    {
      if id !in tokens || tokens[id] != token {
        return TokenMismatch;
      }
      var body := if id in payload then Some(payload[id]) else None;
      var attempt := if id in attempts then attempts[id] else 0;
      DropLease(id);
      hide Dropped, DeadLetter, Requeue;
      if attempt >= maxAttempts {
        reply := Bury(id, body, meta, now);
      } else {
        MakeReady(id, now + delay);
        reply := Requeued;
      }
    }

    method DropLease(id: Id)
      modifies this`leased, this`tokens, this`missing
      ensures Keys() == Dropped(old(Keys()), id)
    {
      leased := leased - {id};
      tokens := tokens - {id};
      missing := missing - {id};
    }

    method MakeReady(id: Id, due: int)
      modifies this
      ensures State() == old(State()).With(Requeue(old(Keys()), id, due), LiveKeys, cfg.liveTTL)
    {
      ready := ready[id := due];
      Expire(LiveKeys, cfg.liveTTL);
    }

    /** The dead-letter branch of the nack script. */
    method Bury(id: Id, body: Option<Body>, meta: Body, now: int) returns (reply: NackReply)
      modifies this
      ensures (State(), reply) == DeadLetter(old(State()), cfg, old(Keys()), id, body, meta, now)
    {
      hide Pruned, Buried;
      PruneKeys(now - cfg.dlqRetention);
      MoveToDead(id, now);
      if body.None? {
        Expire(NoKeys, 0);
        return ScriptError;
      }
      dlqPayload := dlqPayload[id := body.value];
      dlqMeta := dlqMeta[id := meta];
      if cfg.dlqRetention > 0 {
        Expire(DeadKeys, cfg.dlqRetention);
      } else {
        dlq, dlqPayload, dlqMeta := map[], map[], map[];
        Expire(NoKeys, 0);
      }
      return DeadLettered;
    }

    method MoveToDead(id: Id, now: int)
      modifies this`payload, this`attempts, this`dlq
      ensures Keys() == Buried(old(Keys()), id, now)
    {
      payload := payload - {id};
      attempts := attempts - {id};
      dlq := dlq[id := now];
    }

    /** The HDEL loop over the overdue ids and ZREMRANGEBYSCORE. */
    method PruneKeys(cutoff: int)
      modifies this`dlq, this`dlqPayload, this`dlqMeta
      ensures Keys() == Pruned(old(Keys()), cutoff)
    {
      var stale := UpTo(dlq, cutoff);
      var rest := stale;
      while rest != {}
        invariant rest <= stale && dlq == old(dlq)
        invariant dlqPayload == old(dlqPayload) - (stale - rest)
        invariant dlqMeta == old(dlqMeta) - (stale - rest)
        decreases rest
      {
        var id :| id in rest;
        assert stale - (rest - {id}) == (stale - rest) + {id};
        rest := rest - {id};
        dlqPayload := dlqPayload - {id};
        dlqMeta := dlqMeta - {id};
        assert dlqPayload == old(dlqPayload) - (stale - rest);
        assert dlqMeta == old(dlqMeta) - (stale - rest);
      }
      dlq := dlq - stale;
      assert stale - rest == stale;
    }

    method Prune(cutoff: int)
      modifies this
      ensures State() == PruneScript(old(State()), cutoff)
    {
      PruneKeys(cutoff);
      Expire(NoKeys, 0);
    }

    method ReclaimExpired(now: int, limit: nat) returns (r: Result<int, Refusal>, ghost ids: seq<Id>)
      modifies this
      ensures limit < 1 || limit > 1000 ==> r == Err(InvalidLimit) && State() == old(State())
      ensures 1 <= limit <= 1000 ==>
                && IsRange(old(leased), now, limit, ids) && r == Ok(|ids|)
                && State() == ReclaimScript(old(State()), cfg, ids, now)
    {
      ids := [];
      if limit < 1 || limit > 1000 {
        return Err(InvalidLimit), ids;
      }
      var list := RangeByScore(leased, now, limit);
      ids := list;
      ghost var before := Keys();
      for i := 0 to |list|
        invariant Keys() == ReclaimedAll(before, list[..i], now)
        invariant deadline == old(deadline) && clock == old(clock)
      {
        assert list[..i + 1][..i] == list[..i] && list[..i + 1][i] == list[i];
        ReclaimRound(list[i], now);
      }
      assert list[..|list|] == list;
      Expire(LiveKeys, cfg.liveTTL);
      return Ok(|list|), ids;
    }

    method ReclaimRound(id: Id, now: int)
      modifies this`leased, this`tokens, this`attempts, this`ready
      ensures Keys() == Reclaimed(old(Keys()), id, now)
    {
      if id in leased {
        leased := leased - {id};
        tokens := tokens - {id};
        if id in payload {
          if id in missing {
            Refund(id);
          }
          ready := ready[id := now];
        }
      }
    }

    method ReplayDLQ(id: Id, due: int) returns (ok: bool)
      modifies this
      ensures (State(), ok) == ReplayScript(old(State()), cfg, id, due)
    {
      if id !in dlqPayload {
        return false;
      }
      var body := dlqPayload[id];
      if id !in dlq || dlq[id] <= due - cfg.dlqRetention {
        return false;
      }
      Restore(id, body, due);
      hide Replayed;
      Expire(LiveKeys, cfg.liveTTL);
      return true;
    }

    method Restore(id: Id, body: Body, due: int)
      requires id in dlqPayload && dlqPayload[id] == body
      modifies this`dlq, this`dlqPayload, this`dlqMeta, this`missing, this`payload, this`attempts, this`ready
      ensures Keys() == Replayed(old(Keys()), id, due)
    {
      dlq := dlq - {id};
      dlqPayload := dlqPayload - {id};
      dlqMeta := dlqMeta - {id};
      missing := missing - {id};
      payload := payload[id := body];
      attempts := attempts[id := 0];
      ready := ready[id := due];
    }

    method RouteMissingSeenAt(id: Id, now: int) returns (stamp: int)
      modifies this
      ensures (State(), stamp) == RouteMissingScript(old(State()), cfg, id, now)
    {
      if id !in missing {
        missing := missing[id := now];
      }
      stamp := missing[id];
      assert missing == old(missing)[id := stamp];
      Expire(MarkerKey, cfg.liveTTL);
    }

    method ClearRouteMissing(id: Id, token: Token) returns (ok: bool)
      modifies this
      ensures (State(), ok) == ClearRouteMissingScript(old(State()), id, token)
    {
      if id !in tokens || tokens[id] != token {
        return false;
      }
      missing := missing - {id};
      Expire(NoKeys, 0);
      return true;
    }
  }
}
