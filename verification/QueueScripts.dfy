/** The eleven Lua scripts of internal/cardactiondispatch/queue.go as functions on the nine Redis
    keys. Each script runs atomically in Redis, so one function application is one step of the
    server. Times are milliseconds; `clock` is the Redis server's own clock, which drives key
    expiry, while the time arguments of the scripts are readings of the callers' clocks. */
module QueueScripts {
  import opened Prelude
  import opened SortedSets

  /** Marshalled event bytes, and dead-letter metadata. */
  datatype Body = Body(bytes: string)
  datatype Token = Token(hex: string)

  const ROUTE_MISSING_DEFER_MS := 5_000
  const ROUTE_MISSING_WINDOW_MS := 900_000
  const MIN_LIVE_TTL_MS := 4 * ROUTE_MISSING_DEFER_MS

  datatype Config = Config(liveTTL: int, dlqRetention: int) {
    /** NewRedisQueue refuses everything else (a positive retention below one millisecond is
        accepted there and becomes 0 here). */
    predicate Valid() {
      liveTTL >= MIN_LIVE_TTL_MS && dlqRetention >= 0
    }
  }

  datatype Lease = Lease(id: Id, token: Token, attempt: int)

  datatype NackReply = TokenMismatch | Requeued | DeadLettered | ScriptError

  // ---------------------------------------------------------------------- the nine collections

  datatype Data = Data(
    ready: ZSet, leased: ZSet, payload: map<Id, Body>, attempts: map<Id, int>, tokens: map<Id, Token>,
    dlq: ZSet, dlqPayload: map<Id, Body>, dlqMeta: map<Id, Body>, missing: map<Id, int>)
  {
    predicate Holds(id: Id, token: Token) {
      id in tokens && tokens[id] == token
    }

    /** HGET ... or '0'. */
    function Attempt(id: Id): int {
      if id in attempts then attempts[id] else 0
    }

    /** The guarded decrement of defer and reclaim. */
    function Refunded(id: Id): map<Id, int> {
      if Attempt(id) > 0 then attempts[id := Attempt(id) - 1] else attempts
    }
  }

  const NOTHING := Data(map[], map[], map[], map[], map[], map[], map[], map[], map[])

  /** Members of a sorted set with score at most max. */
  function UpTo(z: ZSet, max: int): set<Id> {
    set id | id in z && z[id] <= max
  }

  function Enqueued(d: Data, id: Id, body: Body, due: int): Data {
    d.(payload := d.payload[id := body], attempts := d.attempts[id := 0], ready := d.ready[id := due])
  }

  function Claimed(d: Data, id: Id, until: int, token: Token): Data {
    d.(ready := d.ready - {id}, leased := d.leased[id := until],
       attempts := d.attempts[id := d.Attempt(id) + 1], tokens := d.tokens[id := token])
  }

  /** Claim's answer to a ready member without payload. */
  function Unclaimable(d: Data, id: Id): Data {
    d.(ready := d.ready - {id}, attempts := d.attempts - {id})
  }

  function Acked(d: Data, id: Id): Data {
    d.(leased := d.leased - {id}, payload := d.payload - {id}, attempts := d.attempts - {id},
       tokens := d.tokens - {id}, missing := d.missing - {id})
  }

  function Deferred(d: Data, id: Id, due: int): Data {
    d.(leased := d.leased - {id}, tokens := d.tokens - {id}, attempts := d.Refunded(id), ready := d.ready[id := due])
  }

  /** The commands every nack runs once its token matched. */
  function Dropped(d: Data, id: Id): Data {
    d.(leased := d.leased - {id}, tokens := d.tokens - {id}, missing := d.missing - {id})
  }

  function Requeue(d: Data, id: Id, due: int): Data {
    d.(ready := d.ready[id := due])
  }

  function Pruned(d: Data, cutoff: int): Data {
    var stale := UpTo(d.dlq, cutoff);
    d.(dlq := d.dlq - stale, dlqPayload := d.dlqPayload - stale, dlqMeta := d.dlqMeta - stale)
  }

  function Buried(d: Data, id: Id, now: int): Data {
    d.(payload := d.payload - {id}, attempts := d.attempts - {id}, dlq := d.dlq[id := now])
  }

  /** A dropped lease moved to the dead-letter keys, after pruning them. */
  function Interred(d: Data, id: Id, now: int, cutoff: int, body: Body, meta: Body): Data {
    var b := Buried(Pruned(d, cutoff), id, now);
    b.(dlqPayload := b.dlqPayload[id := body], dlqMeta := b.dlqMeta[id := meta])
  }

  /** One round of the reclaim loop, for an id still leased. */
  function Returned(d: Data, id: Id, now: int): Data {
    d.(leased := d.leased - {id}, tokens := d.tokens - {id},
       attempts := if id in d.payload && id in d.missing then d.Refunded(id) else d.attempts,
       ready := if id in d.payload then d.ready[id := now] else d.ready)
  }

  function Reclaimed(d: Data, id: Id, now: int): Data {
    if id in d.leased then Returned(d, id, now) else d
  }

  function ReclaimedAll(d: Data, ids: seq<Id>, now: int): Data {
    if ids == [] then d else Reclaimed(ReclaimedAll(d, ids[..|ids| - 1], now), ids[|ids| - 1], now)
  }

  function Replayed(d: Data, id: Id, due: int): Data
    requires id in d.dlqPayload
  {
    d.(dlq := d.dlq - {id}, dlqPayload := d.dlqPayload - {id}, dlqMeta := d.dlqMeta - {id},
       missing := d.missing - {id}, payload := d.payload[id := d.dlqPayload[id]],
       attempts := d.attempts[id := 0], ready := d.ready[id := due])
  }

  // ------------------------------------------------------------------------ keys and deadlines

  datatype Key = Ready | Leased | Payload | Attempts | Tokens | Dlq | DlqPayload | DlqMeta | RouteMissing

  /** The key ranges scripts pass to PEXPIRE: KEYS[1..5], KEYS[6..8], KEYS[9] or none. */
  datatype Group = LiveKeys | DeadKeys | MarkerKey | NoKeys

  predicate In(k: Key, g: Group) {
    match g
    case LiveKeys => k.Ready? || k.Leased? || k.Payload? || k.Attempts? || k.Tokens?
    case DeadKeys => k.Dlq? || k.DlqPayload? || k.DlqMeta?
    case MarkerKey => k.RouteMissing?
    case NoKeys => false
  }

  /** A Redis key exists exactly while its collection is non-empty. */
  predicate Exists(d: Data, k: Key) {
    match k
    case Ready => d.ready != map[]
    case Leased => d.leased != map[]
    case Payload => d.payload != map[]
    case Attempts => d.attempts != map[]
    case Tokens => d.tokens != map[]
    case Dlq => d.dlq != map[]
    case DlqPayload => d.dlqPayload != map[]
    case DlqMeta => d.dlqMeta != map[]
    case RouteMissing => d.missing != map[]
  }

  function Without(d: Data, keys: set<Key>): Data {
    Data(
      if Ready in keys then map[] else d.ready,
      if Leased in keys then map[] else d.leased,
      if Payload in keys then map[] else d.payload,
      if Attempts in keys then map[] else d.attempts,
      if Tokens in keys then map[] else d.tokens,
      if Dlq in keys then map[] else d.dlq,
      if DlqPayload in keys then map[] else d.dlqPayload,
      if DlqMeta in keys then map[] else d.dlqMeta,
      if RouteMissing in keys then map[] else d.missing)
  }

  /** The nine keys once the dead-letter group is gone. */
  function Unburied(d: Data): Data {
    d.(dlq := map[], dlqPayload := map[], dlqMeta := map[])
  }

  /** PEXPIRE with a retention of 0 deletes the group at once. */
  function Retained(d: Data, retention: int): Data {
    if retention > 0 then d else Unburied(d)
  }

  /** The nine keys after the dead-letter branch. */
  function Grave(d: Data, cfg: Config, id: Id, body: Body, meta: Body, now: int): Data {
    Retained(Interred(d, id, now, now - cfg.dlqRetention, body, meta), cfg.dlqRetention)
  }

  datatype Store = Store(data: Data, deadline: map<Key, int>, clock: int) {
    /** The store after a script that left d in the nine keys and ran PEXPIRE on the given keys at its
        end. PEXPIRE ignores a key that does not exist, and a key emptied by the script has lost its
        deadline with itself. */
    function With(d: Data, g: Group, ttl: int): Store {
      Store(d,
        map k: Key | Exists(d, k) && (In(k, g) || k in deadline) :: if In(k, g) then clock + ttl else deadline[k],
        clock)
    }

    function Keep(d: Data): Store {
      With(d, NoKeys, 0)
    }
  }

  const EMPTY := Store(NOTHING, map[], 0)

  // -------------------------------------------------------------------------------- the scripts

  function EnqueueScript(s: Store, cfg: Config, id: Id, body: Body, due: int): (Store, bool) {
    if id in s.data.dlqPayload || id in s.data.payload then (s, false)
    else (s.With(Enqueued(s.data, id, body, due), LiveKeys, cfg.liveTTL), true)
  }

  /** `first` is the first due member of ready. */
  function ClaimScript(s: Store, cfg: Config, first: Option<Id>, until: int, token: Token): (Store, Option<Lease>) {
    match first
    case None => (s, None)
    case Some(id) =>
      if id !in s.data.payload then (s.Keep(Unclaimable(s.data, id)), None)
      else (s.With(Claimed(s.data, id, until, token), LiveKeys, cfg.liveTTL), Some(Lease(id, token, s.data.Attempt(id) + 1)))
  }

  function AckScript(s: Store, id: Id, token: Token): (Store, bool) {
    if !s.data.Holds(id, token) then (s, false) else (s.Keep(Acked(s.data, id)), true)
  }

  function RenewScript(s: Store, cfg: Config, id: Id, token: Token, until: int): (Store, bool) {
    if !s.data.Holds(id, token) || id !in s.data.leased then (s, false)
    else (s.With(s.data.(leased := s.data.leased[id := until]), LiveKeys, cfg.liveTTL), true)
  }

  function DeferScript(s: Store, cfg: Config, id: Id, token: Token, due: int): (Store, bool) {
    if !s.data.Holds(id, token) || id !in s.data.leased then (s, false)
    else (s.With(Deferred(s.data, id, due), LiveKeys, cfg.liveTTL), true)
  }

  /** The dead-letter branch, with the payload read before it (absent: HSET fails there, after the
      earlier commands took effect). */
  function DeadLetter(s: Store, cfg: Config, d: Data, id: Id, body: Option<Body>, meta: Body, now: int): (Store, NackReply) {
    match body
    case None => (s.Keep(Buried(Pruned(d, now - cfg.dlqRetention), id, now)), ScriptError)
    case Some(b) =>
      var grave := Grave(d, cfg, id, b, meta, now);
      (if cfg.dlqRetention > 0 then s.With(grave, DeadKeys, cfg.dlqRetention) else s.Keep(grave), DeadLettered)
  }

  function NackScript(s: Store, cfg: Config, id: Id, token: Token, now: int, delay: int, maxAttempts: int, meta: Body)
    : (Store, NackReply)
  {
    if !s.data.Holds(id, token) then
      (s, TokenMismatch)
    else
      var body := if id in s.data.payload then Some(s.data.payload[id]) else None;
      var d := Dropped(s.data, id);
      if s.data.Attempt(id) >= maxAttempts then DeadLetter(s, cfg, d, id, body, meta, now)
      else (s.With(Requeue(d, id, now + delay), LiveKeys, cfg.liveTTL), Requeued)
  }

  function ReclaimScript(s: Store, cfg: Config, ids: seq<Id>, now: int): Store {
    s.With(ReclaimedAll(s.data, ids, now), LiveKeys, cfg.liveTTL)
  }

  function ReplayScript(s: Store, cfg: Config, id: Id, due: int): (Store, bool) {
    if id !in s.data.dlqPayload || id !in s.data.dlq || s.data.dlq[id] <= due - cfg.dlqRetention then (s, false)
    else (s.With(Replayed(s.data, id, due), LiveKeys, cfg.liveTTL), true)
  }

  function PruneScript(s: Store, cutoff: int): Store {
    s.Keep(Pruned(s.data, cutoff))
  }

  /** HSETNX then read: the first miss stamps, later misses read the stamp. */
  function RouteMissingScript(s: Store, cfg: Config, id: Id, now: int): (Store, int) {
    var stamp := if id in s.data.missing then s.data.missing[id] else now;
    (s.With(s.data.(missing := s.data.missing[id := stamp]), MarkerKey, cfg.liveTTL), stamp)
  }

  function ClearRouteMissingScript(s: Store, id: Id, token: Token): (Store, bool) {
    if !s.data.Holds(id, token) then (s, false)
    else (s.Keep(s.data.(missing := s.data.missing - {id})), true)
  }

  /** Time passes on the Redis server; every key whose deadline is reached is gone. */
  function Tick(s: Store, clock: int): Store {
    var due := set k | k in s.deadline && s.deadline[k] <= clock;
    s.(clock := clock).Keep(Without(s.data, due))
  }
}
