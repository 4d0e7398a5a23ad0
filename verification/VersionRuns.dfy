/** Any number of transactions over the allocator's tables, interleaved statement by statement: plain
    writers, card writers with their compare-and-set on card_seq, and the cutover. Row locks are what
    InnoDB grants: shared on the state row, exclusive on a channel's sequence row and on a message row,
    all held until the transaction ends. */
module VersionRuns {
  import opened Prelude
  import opened VersionStore

  /** A message, which lives in one storage channel. */
  datatype Msg = Msg(id: string, home: Channel)
  datatype Frame = Frame(cardSeq: int, hash: string)
  datatype Row = Row(version: int, frame: Option<Frame>)
  datatype Card = Card(m: Msg, frame: Frame, version: int)

  /** Committed rows: allocator state, sequence rows, message_extra rows, legacy block boundaries. */
  datatype Database = Database(
    state: Option<StateRow>, seqs: map<Channel, int>, rows: map<Msg, Row>, bounds: map<string, int>)

  /** The database, and what happened to it: versions committed by the transactional allocator, values
      handed out by the legacy one, accepted card frames, and frames whose write ran to its end. */
  datatype World = World(
    db: Database, log: map<Channel, seq<int>>, issued: set<(string, int)>,
    base: map<Msg, Frame>, cards: map<Msg, seq<Card>>, done: set<(Msg, Frame)>)
  {
    function Log(c: Channel): seq<int> {
      if c in log then log[c] else []
    }

    function Cards(m: Msg): seq<Card> {
      if m in cards then cards[m] else []
    }

    /** The frame the message should show: the last accepted one. */
    function Stored(m: Msg): Option<Frame> {
      if Cards(m) != [] then Some(Cards(m)[|Cards(m)| - 1].frame)
      else if m in base then Some(base[m]) else None
    }

    predicate Active() {
      db.state.Some? && db.state.value.mode == MODE_TRANSACTIONAL
    }

    function Floor(): int {
      if db.state.Some? then db.state.value.floor else 0
    }
  }

  datatype View = View(active: bool, floor: int)

  /** Where a transaction is; the phases with an argument wait for the lock they name. */
  datatype Phase =
    | Fresh | Asking | Settled | Failed | Rejected(verdict: Verdict)
    | Absent(c: Channel, count: nat, baseline: int)
    | Present(c: Channel, count: nat)
    | Gating(m: Msg, frame: Frame, version: int)
    | Admitted(m: Msg, frame: Frame, version: int)
    | Touching(m: Msg, version: int)
    | Flipping(floor: int)

  datatype Tx = Tx(
    phase: Phase, ticket: nat, shared: bool, view: Option<View>, held: map<Channel, int>,
    got: map<Channel, seq<int>>, locked: set<Msg>, writes: map<Msg, Row>, card: Option<Card>)
  {
    function Got(c: Channel): seq<int> {
      if c in got then got[c] else []
    }

    predicate Works(active: bool) {
      phase.Settled? && view.Some? && view.value.active == active && card.None?
    }
  }

  const NEW := Tx(Fresh, 0, false, None, map[], map[], {}, map[], None)

  datatype System = System(w: World, txs: map<nat, Tx>, clock: nat) {
    function Put(t: nat, tx: Tx): System {
      this.(txs := txs[t := tx])
    }

    function Queue(t: nat, tx: Tx, phase: Phase): System {
      this.(txs := txs[t := tx.(phase := phase, ticket := clock)], clock := clock + 1)
    }
  }

  datatype Event =
    | Begin(t: nat)
    | AskState(t: nat)
    | ReadState(t: nat, guard: Guard)
    | Legacy(t: nat, c: Channel, values: seq<int>, bound: int)
    | Look(t: nat, c: Channel, count: nat, found: bool, maxExtra: int, legacyMin: int)
    | Insert(t: nat)
    | Take(t: nat)
    | OpenGate(t: nat, m: Msg, frame: Frame)
    | Judge(t: nat)
    | Write(t: nat)
    | AskTouch(t: nat, m: Msg, version: int)
    | Touch(t: nat)
    | Commit(t: nat)
    | Rollback(t: nat)
    | AskFlip(t: nat, floor: int)
    | DoFlip(t: nat, observed: int)

  // ------------------------------------------------------------------------------- lock conflicts

  ghost predicate SeqFree(y: System, t: nat, c: Channel) {
    forall u :: u in y.txs && u != t ==> c !in y.txs[u].held
  }

  ghost predicate RowFree(y: System, t: nat, m: Msg) {
    forall u :: u in y.txs && u != t ==> m !in y.txs[u].locked
  }

  ghost predicate StateFree(y: System, t: nat) {
    forall u :: u in y.txs && u != t ==> !y.txs[u].shared
  }

  /** What a read of the channel's past can report, however old its snapshot: a legacy boundary or
      version, or a version the transactional allocator committed. */
  ghost predicate Attested(w: World, c: Channel, v: int) {
    v <= 0 || (c.id in w.db.bounds && v <= w.db.bounds[c.id]) || v in w.Log(c)
  }

  /** The maximum both tables show, 0 when they are empty. */
  ghost predicate IsObserved(db: Database, m: int) {
    && 0 <= m
    && (forall x :: x in db.rows ==> db.rows[x].version <= m)
    && (forall id :: id in db.bounds ==> db.bounds[id] <= m)
    && (m == 0 || (exists x :: x in db.rows && db.rows[x].version == m) || (exists id :: id in db.bounds && db.bounds[id] == m))
  }

  // --------------------------------------------------------------------------------- card gate

  datatype Verdict = Accept | Conflict | Replay

  /** casGate's comparison. */
  function Gate(stored: Option<Frame>, frame: Frame): Verdict {
    if stored.Some? && stored.value.cardSeq >= frame.cardSeq then
      if stored.value == frame then Replay else Conflict
    else Accept
  }

  function StoredFrame(db: Database, m: Msg): Option<Frame> {
    if m in db.rows then db.rows[m].frame else None
  }

  // ----------------------------------------------------------------------------------- the steps

  ghost predicate Enabled(y: System, ev: Event) {
    if ev.Begin? then ev.t !in y.txs
    else
      ev.t in y.txs &&
      var tx := y.txs[ev.t];
      match ev
      case AskState(_) => tx.phase.Fresh?
      case ReadState(_, _) => tx.phase.Asking?
      case Legacy(_, c, values, bound) =>
        && tx.Works(false) && 1 <= |values| <= MAX_RESERVE_COUNT
        && (forall v :: v in values ==> v <= bound) && (c.id in y.w.db.bounds ==> y.w.db.bounds[c.id] <= bound)
      case Look(_, c, count, found, maxExtra, legacyMin) =>
        && tx.Works(true) && 1 <= count <= MAX_RESERVE_COUNT
        && (found ==> c in y.w.db.seqs || c in tx.held) && (c in tx.held ==> found)
        && Attested(y.w, c, maxExtra) && Attested(y.w, c, legacyMin)
      case Insert(_) => tx.phase.Absent? && SeqFree(y, ev.t, tx.phase.c)
      case Take(_) => tx.phase.Present? && tx.view.Some? && SeqFree(y, ev.t, tx.phase.c)
      case OpenGate(_, m, frame) =>
        tx.Works(true) && tx.writes == map[] && tx.got.Keys == {m.home} && |tx.got[m.home]| == 1 && frame.cardSeq > 0
      case Judge(_) => tx.phase.Gating? && RowFree(y, ev.t, tx.phase.m)
      case Write(_) => tx.phase.Admitted? && RowFree(y, ev.t, tx.phase.m)
      case AskTouch(_, m, version) => tx.phase.Settled? && tx.view.Some? && tx.card.None? && version in tx.Got(m.home)
      case Touch(_) => tx.phase.Touching? && RowFree(y, ev.t, tx.phase.m)
      case Commit(_) => tx.phase.Settled?
      case Rollback(_) => true
      case AskFlip(_, _) => tx.phase.Fresh?
      case DoFlip(_, observed) => tx.phase.Flipping? && StateFree(y, ev.t) && IsObserved(y.w.db, observed)
  }

  /** The sequence table as the transaction sees it. */
  function Visible(w: World, tx: Tx): map<Channel, int> {
    w.db.seqs + tx.held
  }

  /** FOR SHARE on the state row, held to the end also when the read is refused. */
  function AfterRead(w: World, tx: Tx, guard: Guard): Tx {
    match Resolve(w.db.state, guard)
    case Err(_) => tx.(phase := Failed, shared := true)
    case Ok(st) => tx.(phase := Settled, shared := true, view := Some(View(st.mode == MODE_TRANSACTIONAL, st.floor)))
  }

  /** INSERT ... ON DUPLICATE KEY UPDATE: locks the row and keeps its value if it exists after all. */
  function AfterInsert(w: World, tx: Tx): Tx
    requires tx.phase.Absent?
  {
    var c := tx.phase.c;
    tx.(phase := Present(c, tx.phase.count), held := tx.held[c := Materialized(Visible(w, tx), c, tx.phase.baseline)[c]])
  }

  /** FOR UPDATE on the existing row, and the reservation; after an error only a rollback is left. */
  function AfterTake(w: World, tx: Tx): Tx
    requires tx.phase.Present? && tx.view.Some?
  {
    var c := tx.phase.c;
    var r := Taken(Visible(w, tx), c, tx.phase.count, tx.view.value.floor);
    var locked := if c in r.seqs then tx.held[c := r.seqs[c]] else tx.held;
    match r.versions
    case Err(_) => tx.(phase := Failed, held := locked)
    case Ok(vs) => tx.(phase := Settled, held := locked, got := tx.got[c := tx.Got(c) + vs])
  }

  /** A plain writer's upsert: a new version, the stored frame kept. */
  function AfterTouch(w: World, tx: Tx): Tx
    requires tx.phase.Touching?
  {
    var m := tx.phase.m;
    var frame := if m in tx.writes then tx.writes[m].frame else StoredFrame(w.db, m);
    tx.(phase := Settled, locked := tx.locked + {m}, writes := tx.writes[m := Row(tx.phase.version, frame)])
  }

  /** The card upsert. */
  function AfterWrite(tx: Tx): Tx
    requires tx.phase.Admitted?
  {
    var m, frame, v := tx.phase.m, tx.phase.frame, tx.phase.version;
    tx.(phase := Settled, locked := tx.locked + {m}, writes := tx.writes[m := Row(v, Some(frame))],
        card := Some(Card(m, frame, v)))
  }

  /** casGate: FOR UPDATE locks the message row if there is one, and nothing if there is not. */
  function AfterJudge(w: World, tx: Tx): Tx
    requires tx.phase.Gating?
  {
    var m := tx.phase.m;
    var locked := if m in w.db.rows then tx.locked + {m} else tx.locked;
    var verdict := Gate(StoredFrame(w.db, m), tx.phase.frame);
    if verdict.Accept?
    then tx.(phase := Admitted(m, tx.phase.frame, tx.phase.version), locked := locked)
    else tx.(phase := Rejected(verdict), locked := locked)
  }

  function Judged(w: World, tx: Tx): World
    requires tx.phase.Gating?
  {
    if Gate(StoredFrame(w.db, tx.phase.m), tx.phase.frame).Accept? then w
    else w.(done := w.done + {(tx.phase.m, tx.phase.frame)})
  }

  /** Each channel's log, extended by the versions the transaction was given, in order. */
  function Extended(w: World, tx: Tx): map<Channel, seq<int>> {
    map c | c in w.log.Keys + tx.got.Keys :: w.Log(c) + tx.Got(c)
  }

  function Committed(w: World, tx: Tx): World {
    w.(db := w.db.(seqs := w.db.seqs + tx.held, rows := w.db.rows + tx.writes),
       log := if tx.view.Some? && tx.view.value.active then Extended(w, tx) else w.log,
       cards := if tx.card.Some? then w.cards[tx.card.value.m := w.Cards(tx.card.value.m) + [tx.card.value]] else w.cards,
       done := if tx.card.Some? then w.done + {(tx.card.value.m, tx.card.value.frame)} else w.done)
  }

  function Flipped(w: World, floor: int, observed: int): World {
    match Flip(w.db.state, floor, observed)
    case Flipped(row) => w.(db := w.db.(state := Some(row)))
    case _ => w
  }

  function Handed(w: World, c: Channel, values: seq<int>, bound: int): World {
    w.(db := w.db.(bounds := w.db.bounds[c.id := bound]), issued := w.issued + set v | v in values :: (c.id, v))
  }

  ghost function Apply(y: System, ev: Event): System
    requires Enabled(y, ev)
  {
    if ev.Begin? then y.Put(ev.t, NEW)
    else
      var t, w := ev.t, y.w;
      var tx := y.txs[t];
      match ev
      case AskState(_) => y.Queue(t, tx, Asking)
      case ReadState(_, guard) => y.Put(t, AfterRead(w, tx, guard))
      case Legacy(_, c, values, bound) =>
        y.(w := Handed(w, c, values, bound)).Put(t, tx.(got := tx.got[c := tx.Got(c) + values]))
      case Look(_, c, count, found, maxExtra, legacyMin) =>
        y.Queue(t, tx, if found then Present(c, count)
                       else Absent(c, count, Baseline(tx.view.value.floor, maxExtra, legacyMin)))
      case Insert(_) => y.Put(t, AfterInsert(w, tx))
      case Take(_) => y.Put(t, AfterTake(w, tx))
      case OpenGate(_, m, frame) => y.Queue(t, tx, Gating(m, frame, tx.got[m.home][0]))
      case Judge(_) => y.(w := Judged(w, tx)).Put(t, AfterJudge(w, tx))
      case Write(_) => y.Put(t, AfterWrite(tx))
      case AskTouch(_, m, version) => y.Queue(t, tx, Touching(m, version))
      case Touch(_) => y.Put(t, AfterTouch(w, tx))
      case Commit(_) => y.(w := Committed(w, tx), txs := y.txs - {t})
      case Rollback(_) => y.(txs := y.txs - {t})
      case AskFlip(_, floor) => y.Queue(t, tx, Flipping(floor))
      case DoFlip(_, observed) => y.(w := Flipped(w, tx.phase.floor, observed), txs := y.txs - {t})
  }

  // -------------------------------------------------------------------------------- the invariant

  ghost predicate Ascending(s: seq<int>) {
    forall i, j :: 0 <= i < j < |s| ==> s[i] < s[j]
  }

  /** Committed versions of one channel: ascending, above the floor, exact in a double, and covered by
      the sequence row. */
  ghost predicate GoodLog(w: World, c: Channel) {
    var log := w.Log(c);
    && Ascending(log)
    && (forall v :: v in log ==> w.Floor() < v <= MAX_SAFE_INTEGER && c in w.db.seqs && v <= w.db.seqs[c])
  }

  /** A frame newer than the stored one. */
  ghost predicate Newer(w: World, m: Msg, frame: Frame) {
    w.Stored(m).Some? ==> w.Stored(m).value.cardSeq < frame.cardSeq
  }

  ghost predicate GoodRow(w: World, m: Msg) {
    && StoredFrame(w.db, m) == w.Stored(m)
    && (m in w.db.rows ==> Attested(w, m.home, w.db.rows[m].version))
  }

  /** Accepted frames of one message: card_seq order, version order and commit order coincide. */
  ghost predicate Ordered(cards: seq<Card>) {
    forall i, j :: 0 <= i < j < |cards| ==>
      cards[i].frame.cardSeq < cards[j].frame.cardSeq && cards[i].version < cards[j].version
  }

  ghost predicate GoodCard(w: World, m: Msg, card: Card) {
    && card.m == m && card.version in w.Log(m.home) && (m, card.frame) in w.done
    && (m in w.base ==> w.base[m].cardSeq < card.frame.cardSeq)
  }

  ghost predicate GoodCards(w: World, m: Msg) {
    && Ordered(w.Cards(m))
    && (forall i :: 0 <= i < |w.Cards(m)| ==> GoodCard(w, m, w.Cards(m)[i]))
  }

  /** No frame that ran to its end is newer than the stored one. */
  ghost predicate GoodDone(w: World, m: Msg) {
    forall frame :: (m, frame) in w.done ==> !Newer(w, m, frame)
  }

  ghost predicate GoodMsg(w: World, m: Msg) {
    GoodRow(w, m) && GoodCards(w, m) && GoodDone(w, m)
  }

  ghost predicate GoodState(w: World) {
    && (forall e :: e in w.issued ==> e.0 in w.db.bounds && e.1 <= w.db.bounds[e.0])
    && (w.Active() ==> w.Floor() <= MAX_CUTOVER_FLOOR && 0 <= w.Floor()
                       && forall id :: id in w.db.bounds ==> w.db.bounds[id] <= w.Floor())
    && (!w.Active() ==> forall c :: w.Log(c) == [])
  }

  ghost predicate GoodWorld(w: World) {
    && GoodState(w)
    && (forall c :: GoodLog(w, c))
    && (forall m :: GoodMsg(w, m))
  }

  /** The sequence rows a transaction advanced and the versions it was given. */
  ghost predicate GoodClaim(w: World, tx: Tx, c: Channel) {
    && (c in tx.held && c in w.db.seqs ==> w.db.seqs[c] <= tx.held[c])
    && (c in tx.got ==>
          && c in tx.held && Ascending(tx.got[c])
          && forall v :: v in tx.got[c] ==>
               w.Floor() < v <= MAX_SAFE_INTEGER && v <= tx.held[c] && (c in w.db.seqs ==> w.db.seqs[c] < v))
  }

  ghost predicate GoodPhase(w: World, tx: Tx) {
    match tx.phase
    case Absent(c, count, baseline) =>
      && tx.view.Some? && tx.view.value.active && tx.card.None?
      && c !in tx.held && (c in w.db.seqs || baseline == w.Floor()) && 1 <= count <= MAX_RESERVE_COUNT
    case Present(c, count) =>
      && tx.view.Some? && tx.view.value.active && tx.card.None?
      && (c in w.db.seqs || c in tx.held) && 1 <= count <= MAX_RESERVE_COUNT
    case Gating(m, _, version) => OneVersion(tx, m, version)
    case Admitted(m, frame, version) => OneVersion(tx, m, version) && Newer(w, m, frame)
    case Touching(m, version) => tx.view.Some? && tx.card.None? && version in tx.Got(m.home)
    case _ => true
  }

  ghost predicate OneVersion(tx: Tx, m: Msg, version: int) {
    && tx.view.Some? && tx.view.value.active && tx.card.None? && tx.writes == map[]
    && tx.got == map[m.home := [version]]
  }

  ghost predicate GoodWrites(w: World, tx: Tx) {
    && (forall m :: m in tx.locked ==> m.home in tx.got)
    && (forall m :: m in tx.writes ==>
          && m in tx.locked && tx.writes[m].version in tx.Got(m.home)
          && (tx.card.None? ==> tx.writes[m].frame == w.Stored(m)))
    && (tx.card.Some? ==>
          var card := tx.card.value;
          && tx.view.Some? && tx.view.value.active && tx.phase.Settled?
          && tx.writes == map[card.m := Row(card.version, Some(card.frame))]
          && tx.got == map[card.m.home := [card.version]]
          && Newer(w, card.m, card.frame))
  }

  ghost predicate GoodView(w: World, tx: Tx) {
    && (tx.view.Some? ==> tx.shared && tx.view.value == View(w.Active(), w.Floor()))
    && (tx.view.None? ==> tx.held == map[] && tx.got == map[] && tx.writes == map[] && tx.card.None? && tx.locked == {})
    && (tx.phase.Settled? ==> tx.view.Some?)
    && (!tx.shared <==> tx.phase.Fresh? || tx.phase.Asking? || tx.phase.Flipping?)
    && (tx.view.Some? && !tx.view.value.active ==>
          tx.held == map[] && forall c, v :: c in tx.got && v in tx.got[c] ==> (c.id, v) in w.issued)
  }

  ghost predicate GoodTx(w: World, tx: Tx) {
    && GoodView(w, tx)
    && GoodPhase(w, tx)
    && GoodWrites(w, tx)
    && (tx.view.Some? && tx.view.value.active ==> forall c :: GoodClaim(w, tx, c))
  }

  ghost predicate Apart(a: Tx, b: Tx) {
    a.held.Keys !! b.held.Keys && a.locked !! b.locked
  }

  ghost predicate Inv(y: System) {
    && GoodWorld(y.w)
    && (forall t :: t in y.txs ==> GoodTx(y.w, y.txs[t]))
    && (forall t, u :: t in y.txs && u in y.txs && t != u ==> Apart(y.txs[t], y.txs[u]))
  }

  // ------------------------------------------------------------------- steps of one transaction

  lemma LocalStep(y: System, t: nat, tx: Tx, clock: nat)
    requires Inv(y) && GoodTx(y.w, tx)
    requires forall u :: u in y.txs && u != t ==> Apart(tx, y.txs[u])
    ensures Inv(y.(txs := y.txs[t := tx], clock := clock))
  {
    hide GoodWorld, GoodTx;
  }

  lemma SameLocks(y: System, t: nat, tx: Tx)
    requires Inv(y) && t in y.txs && tx.held.Keys <= y.txs[t].held.Keys && tx.locked <= y.txs[t].locked
    ensures forall u :: u in y.txs && u != t ==> Apart(tx, y.txs[u])
  {
    hide GoodWorld, GoodTx;
    forall u | u in y.txs && u != t ensures Apart(tx, y.txs[u]) {
      assert Apart(y.txs[t], y.txs[u]);
    }
  }

  lemma MoreSeqs(y: System, t: nat, tx: Tx, c: Channel)
    requires Inv(y) && t in y.txs && tx.held.Keys <= y.txs[t].held.Keys + {c} && tx.locked == y.txs[t].locked
    requires SeqFree(y, t, c)
    ensures forall u :: u in y.txs && u != t ==> Apart(tx, y.txs[u])
  {
    hide GoodWorld, GoodTx;
    forall u | u in y.txs && u != t ensures Apart(tx, y.txs[u]) {
      assert Apart(y.txs[t], y.txs[u]);
    }
  }

  lemma MoreRows(y: System, t: nat, tx: Tx, m: Msg)
    requires Inv(y) && t in y.txs && tx.held == y.txs[t].held && tx.locked <= y.txs[t].locked + {m}
    requires RowFree(y, t, m)
    ensures forall u :: u in y.txs && u != t ==> Apart(tx, y.txs[u])
  {
    hide GoodWorld, GoodTx;
    forall u | u in y.txs && u != t ensures Apart(tx, y.txs[u]) {
      assert Apart(y.txs[t], y.txs[u]);
    }
  }

  lemma QueueTx(w: World, tx: Tx, phase: Phase, ticket: nat)
    requires GoodTx(w, tx) && (tx.phase.Fresh? && (phase.Asking? || phase.Flipping?))
    ensures GoodTx(w, tx.(phase := phase, ticket := ticket))
  {
  }

  lemma ReadTx(w: World, tx: Tx, guard: Guard)
    requires GoodTx(w, tx) && tx.phase.Asking?
    ensures GoodTx(w, AfterRead(w, tx, guard))
  {
  }

  lemma LookTx(w: World, tx: Tx, c: Channel, count: nat, found: bool, maxExtra: int, legacyMin: int, ticket: nat)
    requires GoodWorld(w) && GoodTx(w, tx) && tx.Works(true) && 1 <= count <= MAX_RESERVE_COUNT
    requires (found ==> c in w.db.seqs || c in tx.held) && (c in tx.held ==> found)
    requires Attested(w, c, maxExtra) && Attested(w, c, legacyMin)
    ensures var phase := if found then Present(c, count) else Absent(c, count, Baseline(tx.view.value.floor, maxExtra, legacyMin));
            GoodTx(w, tx.(phase := phase, ticket := ticket))
  {
    assert GoodLog(w, c);
    var phase := if found then Present(c, count) else Absent(c, count, Baseline(tx.view.value.floor, maxExtra, legacyMin));
    SameClaims(w, tx, tx.(phase := phase, ticket := ticket));
  }

  lemma SameClaims(w: World, tx: Tx, n: Tx)
    requires (forall c :: GoodClaim(w, tx, c)) && n.held == tx.held && n.got == tx.got
    ensures forall c :: GoodClaim(w, n, c)
  {
    forall c ensures GoodClaim(w, n, c) {
      assert GoodClaim(w, tx, c);
    }
  }

  lemma InsertTx(w: World, tx: Tx)
    requires GoodWorld(w) && GoodTx(w, tx) && tx.phase.Absent?
    ensures GoodTx(w, AfterInsert(w, tx)) && AfterInsert(w, tx).held.Keys == tx.held.Keys + {tx.phase.c}
  {
    var n := AfterInsert(w, tx);
    forall x ensures GoodClaim(w, n, x) {
      assert GoodClaim(w, tx, x);
    }
  }

  lemma Appended(s: seq<int>, e: seq<int>, low: int)
    requires Ascending(s) && Ascending(e) && (forall v :: v in s ==> v <= low) && (forall v :: v in e ==> low < v)
    ensures Ascending(s + e)
  {
    forall i, j | 0 <= i < j < |s + e| ensures (s + e)[i] < (s + e)[j] {
      if i < |s| {
        assert s[i] in s;
      }
      if j >= |s| {
        assert e[j - |s|] in e;
      }
    }
  }

  lemma RangeAscends(cur: int, count: nat)
    ensures Ascending(Range(cur, count)) && forall v :: v in Range(cur, count) ==> cur < v <= cur + count
  {
  }

  /** The version range a transaction takes is above everything it and the channel had before. */
  lemma TakeClaim(w: World, tx: Tx)
    requires GoodWorld(w) && GoodTx(w, tx) && tx.phase.Present? && tx.view.Some?
    ensures GoodClaim(w, AfterTake(w, tx), tx.phase.c)
  {
    var c, count, floor := tx.phase.c, tx.phase.count, tx.view.value.floor;
    assert GoodClaim(w, tx, c);
    var r := Advance(Visible(w, tx)[c], floor, count);
    if r.Ok? {
      RangeAscends(r.value, count);
      Appended(tx.Got(c), Range(r.value, count), r.value);
    }
  }

  lemma TakeTx(w: World, tx: Tx)
    requires GoodWorld(w) && GoodTx(w, tx) && tx.phase.Present? && tx.view.Some?
    ensures GoodTx(w, AfterTake(w, tx)) && AfterTake(w, tx).held.Keys == tx.held.Keys + {tx.phase.c}
  {
    var n := AfterTake(w, tx);
    TakeClaim(w, tx);
    forall x ensures GoodClaim(w, n, x) {
      assert GoodClaim(w, tx, x);
    }
    forall m | m in tx.writes ensures tx.writes[m].version in n.Got(m.home) {
      assert tx.writes[m].version in tx.Got(m.home);
    }
  }

  lemma GateTx(w: World, tx: Tx, m: Msg, frame: Frame, ticket: nat)
    requires GoodTx(w, tx) && tx.Works(true) && tx.writes == map[] && tx.got.Keys == {m.home} && |tx.got[m.home]| == 1
    ensures GoodTx(w, tx.(phase := Gating(m, frame, tx.got[m.home][0]), ticket := ticket))
  {
    var n := tx.(phase := Gating(m, frame, tx.got[m.home][0]), ticket := ticket);
    assert tx.got[m.home] == [tx.got[m.home][0]];
    assert tx.got == map[m.home := [tx.got[m.home][0]]];
    SameClaims(w, tx, n);
  }

  lemma JudgeTx(w: World, tx: Tx)
    requires GoodWorld(w) && GoodTx(w, tx) && tx.phase.Gating?
    ensures GoodTx(w, AfterJudge(w, tx))
  {
    assert GoodMsg(w, tx.phase.m);
    SameClaims(w, tx, AfterJudge(w, tx));
  }

  lemma WriteTx(w: World, tx: Tx)
    requires GoodTx(w, tx) && tx.phase.Admitted?
    ensures GoodTx(w, AfterWrite(tx))
  {
    SameClaims(w, tx, AfterWrite(tx));
    assert tx.phase.version in [tx.phase.version];
  }

  lemma AskTouchTx(w: World, tx: Tx, m: Msg, version: int, ticket: nat)
    requires GoodTx(w, tx) && tx.phase.Settled? && tx.view.Some? && tx.card.None? && version in tx.Got(m.home)
    ensures GoodTx(w, tx.(phase := Touching(m, version), ticket := ticket))
  {
    if tx.view.value.active {
      SameClaims(w, tx, tx.(phase := Touching(m, version), ticket := ticket));
    }
  }

  lemma TouchTx(w: World, tx: Tx)
    requires GoodWorld(w) && GoodTx(w, tx) && tx.phase.Touching?
    ensures GoodTx(w, AfterTouch(w, tx))
  {
    assert GoodMsg(w, tx.phase.m);
    if tx.view.value.active {
      SameClaims(w, tx, AfterTouch(w, tx));
    }
  }

  // ------------------------------------------------------------------- steps that change the world

  /** Legacy values: another block boundary, and values below it. */
  lemma HandedWorld(w: World, c: Channel, values: seq<int>, bound: int)
    requires GoodWorld(w) && !w.Active()
    requires (forall v :: v in values ==> v <= bound) && (c.id in w.db.bounds ==> w.db.bounds[c.id] <= bound)
    ensures GoodWorld(Handed(w, c, values, bound))
  {
    var k := Handed(w, c, values, bound);
    forall e | e in k.issued ensures e.0 in k.db.bounds && e.1 <= k.db.bounds[e.0] {
      if e !in w.issued {
        assert e.0 == c.id && e.1 in values;
      }
    }
    forall x ensures GoodLog(k, x) && k.Log(x) == w.Log(x) {
      assert GoodLog(w, x);
    }
    forall m ensures GoodMsg(k, m) {
      assert GoodMsg(w, m);
    }
  }

  lemma HandedTx(w: World, c: Channel, values: seq<int>, bound: int, tx: Tx)
    requires GoodTx(w, tx) && !w.Active()
    ensures GoodTx(Handed(w, c, values, bound), tx)
  {
  }

  lemma HandedSelf(w: World, c: Channel, values: seq<int>, bound: int, tx: Tx)
    requires GoodTx(w, tx) && tx.Works(false) && !w.Active()
    ensures GoodTx(Handed(w, c, values, bound), tx.(got := tx.got[c := tx.Got(c) + values]))
  {
    var k, n := Handed(w, c, values, bound), tx.(got := tx.got[c := tx.Got(c) + values]);
    forall m | m in n.writes ensures n.writes[m].version in n.Got(m.home) {
      assert tx.writes[m].version in tx.Got(m.home);
    }
    forall x, v | x in n.got && v in n.got[x] ensures (x.id, v) in k.issued {
      if x == c && v !in tx.Got(c) {
        assert v in values;
      }
    }
  }

  /** A rejected frame: the stored one is at least as new. */
  lemma JudgedWorld(w: World, tx: Tx)
    requires GoodWorld(w) && tx.phase.Gating?
    ensures GoodWorld(Judged(w, tx))
  {
    if Judged(w, tx) != w {
      var k := Judged(w, tx);
      SameHistory(w, k);
      forall m ensures GoodMsg(k, m) {
        JudgedMsg(w, tx, m);
      }
    }
  }

  lemma JudgedShape(w: World, tx: Tx, m: Msg)
    requires tx.phase.Gating?
    ensures var k := Judged(w, tx);
            && k.db == w.db && k.base == w.base && k.Cards(m) == w.Cards(m) && k.Stored(m) == w.Stored(m)
            && k.Log(m.home) == w.Log(m.home) && w.done <= k.done
            && forall frame :: (m, frame) in k.done ==>
                 (m, frame) in w.done || (m == tx.phase.m && frame == tx.phase.frame && !Gate(StoredFrame(w.db, m), frame).Accept?)
  {
  }

  lemma JudgedMsg(w: World, tx: Tx, m: Msg)
    requires GoodWorld(w) && tx.phase.Gating?
    ensures GoodMsg(Judged(w, tx), m)
  {
    assert GoodMsg(w, m);
    JudgedShape(w, tx, m);
    var k := Judged(w, tx);
    hide Judged, GoodWorld, Ordered;
    forall i | 0 <= i < |k.Cards(m)| ensures GoodCard(k, m, k.Cards(m)[i]) {
      assert GoodCard(w, m, w.Cards(m)[i]);
    }
  }

  lemma SameHistory(w: World, k: World)
    requires GoodWorld(w) && k == w.(done := k.done)
    ensures GoodState(k) && forall c :: GoodLog(k, c)
    ensures forall m :: k.Stored(m) == w.Stored(m)
  {
    forall c ensures GoodLog(k, c) && k.Log(c) == w.Log(c) {
      assert GoodLog(w, c);
    }
  }

  lemma SameClaim(w: World, k: World, tx: Tx, c: Channel)
    requires GoodClaim(w, tx, c) && k == w.(done := k.done)
    ensures GoodClaim(k, tx, c)
  {
  }

  lemma SameForTx(w: World, k: World, tx: Tx)
    requires GoodTx(w, tx) && k == w.(done := k.done)
    ensures GoodTx(k, tx)
  {
    hide GoodClaim;
    if tx.view.Some? && tx.view.value.active {
      forall c ensures GoodClaim(k, tx, c) {
        SameClaim(w, k, tx, c);
      }
    }
  }

  /** The flip: nobody holds the state row, so nobody has read the mode, and every version issued so
      far is at most the observed maximum. */
  lemma FlippedWorld(w: World, floor: int, observed: int)
    requires GoodWorld(w) && IsObserved(w.db, observed)
    ensures GoodWorld(Flipped(w, floor, observed))
  {
    var k := Flipped(w, floor, observed);
    if k != w {
      assert !w.Active();
      forall x ensures GoodLog(k, x) {
        assert w.Log(x) == [];
      }
      forall m ensures GoodMsg(k, m) {
        assert GoodMsg(w, m);
      }
    }
  }

  lemma UnreadTx(w: World, k: World, tx: Tx)
    requires GoodTx(w, tx) && !tx.shared
    ensures GoodTx(k, tx)
  {
  }

  // --------------------------------------------------------------------------------------- commit

  /** What a commit leaves where. */
  lemma CommittedShape(w: World, tx: Tx)
    ensures var k := Committed(w, tx);
            && k.db.state == w.db.state && k.db.bounds == w.db.bounds && k.issued == w.issued && k.base == w.base
            && k.db.seqs == w.db.seqs + tx.held && k.db.rows == w.db.rows + tx.writes
            && w.done <= k.done
            && k.Active() == w.Active() && k.Floor() == w.Floor()
  {
  }

  lemma CommittedLogIs(w: World, tx: Tx, c: Channel)
    ensures Committed(w, tx).Log(c)
         == if tx.view.Some? && tx.view.value.active then w.Log(c) + tx.Got(c) else w.Log(c)
  {
    assert w.Log(c) + [] == w.Log(c) && [] + tx.Got(c) == tx.Got(c);
  }

  lemma CommittedCardsAre(w: World, tx: Tx, m: Msg)
    ensures var k := Committed(w, tx);
            var own := tx.card.Some? && tx.card.value.m == m;
            && k.Cards(m) == (if own then w.Cards(m) + [tx.card.value] else w.Cards(m))
            && k.Stored(m) == (if own then Some(tx.card.value.frame) else w.Stored(m))
            && (own ==> (m, tx.card.value.frame) in k.done)
            && forall frame :: (m, frame) in k.done ==> (m, frame) in w.done || (own && frame == tx.card.value.frame)
  {
  }

  lemma LoggedHasRow(w: World, c: Channel)
    requires GoodLog(w, c) && w.Log(c) != []
    ensures c in w.db.seqs
  {
    assert w.Log(c)[0] in w.Log(c);
  }

  lemma NoRowNoLog(w: World, c: Channel)
    requires GoodLog(w, c) && c !in w.db.seqs
    ensures w.Log(c) == []
  {
    if w.Log(c) != [] {
      LoggedHasRow(w, c);
    }
  }

  lemma CommittedLog(w: World, tx: Tx, c: Channel)
    requires GoodWorld(w) && GoodTx(w, tx) && tx.phase.Settled?
    ensures GoodLog(Committed(w, tx), c)
  {
    assert GoodLog(w, c);
    CommittedShape(w, tx);
    CommittedLogIs(w, tx, c);
    hide Committed, GoodState, GoodMsg, GoodWrites, GoodPhase;
    if tx.view.value.active {
      assert GoodClaim(w, tx, c);
      if c in w.db.seqs {
        Appended(w.Log(c), tx.Got(c), w.db.seqs[c]);
      } else {
        NoRowNoLog(w, c);
        assert w.Log(c) + tx.Got(c) == tx.Got(c);
      }
    }
  }

  lemma CommittedState(w: World, tx: Tx)
    requires GoodWorld(w) && GoodTx(w, tx) && tx.phase.Settled?
    ensures GoodState(Committed(w, tx))
  {
    CommittedShape(w, tx);
    forall c ensures !w.Active() ==> Committed(w, tx).Log(c) == [] {
      CommittedLogIs(w, tx, c);
    }
    hide Committed, GoodLog, GoodMsg, GoodClaim, GoodWrites, GoodPhase;
  }

  lemma CommittedRow(w: World, tx: Tx, m: Msg)
    requires GoodWorld(w) && GoodTx(w, tx) && tx.phase.Settled?
    ensures GoodRow(Committed(w, tx), m)
  {
    assert GoodMsg(w, m);
    CommittedShape(w, tx);
    CommittedLogIs(w, tx, m.home);
    CommittedCardsAre(w, tx, m);
    hide Committed, GoodLog, GoodClaim, GoodState, GoodCards, GoodDone, Newer, Ordered, GoodPhase;
    if m in tx.writes {
      assert tx.writes[m].version in tx.Got(m.home);
    }
  }

  lemma Appending(cards: seq<Card>, card: Card)
    requires Ordered(cards)
    requires forall i :: 0 <= i < |cards| ==> cards[i].version < card.version
    requires cards != [] ==> cards[|cards| - 1].frame.cardSeq < card.frame.cardSeq
    ensures Ordered(cards + [card])
  {
    forall i | 0 <= i < |cards| ensures cards[i].frame.cardSeq < card.frame.cardSeq {
      if i < |cards| - 1 {
        assert cards[i].frame.cardSeq < cards[|cards| - 1].frame.cardSeq;
      }
    }
  }

  lemma CardStays(w: World, k: World, m: Msg, card: Card)
    requires GoodCard(w, m, card) && k.base == w.base && w.done <= k.done
    requires forall v :: v in w.Log(m.home) ==> v in k.Log(m.home)
    ensures GoodCard(k, m, card)
  {
  }

  /** A card's version is above all earlier ones of its channel, so above those of its message. */
  lemma NextVersion(w: World, tx: Tx, m: Msg)
    requires GoodWorld(w) && GoodTx(w, tx) && tx.card.Some? && tx.card.value.m == m
    ensures forall i :: 0 <= i < |w.Cards(m)| ==> w.Cards(m)[i].version < tx.card.value.version
    ensures tx.card.value.version in tx.Got(m.home)
  {
    assert GoodMsg(w, m) && GoodLog(w, m.home) && GoodClaim(w, tx, m.home);
    hide GoodRow, GoodDone, Ordered, GoodPhase, GoodState;
    var version := tx.card.value.version;
    assert version in tx.Got(m.home);
    forall i | 0 <= i < |w.Cards(m)| ensures w.Cards(m)[i].version < version {
      assert GoodCard(w, m, w.Cards(m)[i]);
    }
  }

  lemma OverBase(w: World, m: Msg, frame: Frame)
    requires GoodCards(w, m) && Newer(w, m, frame)
    ensures w.Cards(m) != [] ==> w.Cards(m)[|w.Cards(m)| - 1].frame.cardSeq < frame.cardSeq
    ensures m in w.base ==> w.base[m].cardSeq < frame.cardSeq
  {
    if w.Cards(m) != [] {
      assert GoodCard(w, m, w.Cards(m)[|w.Cards(m)| - 1]);
    }
  }

  lemma CardsExtend(w: World, k: World, m: Msg, card: Card)
    requires GoodCards(w, m) && k.base == w.base && w.done <= k.done
    requires forall v :: v in w.Log(m.home) ==> v in k.Log(m.home)
    requires k.Cards(m) == w.Cards(m) + [card] && card.m == m && Newer(w, m, card.frame)
    requires card.version in k.Log(m.home) && (m, card.frame) in k.done
    requires forall i :: 0 <= i < |w.Cards(m)| ==> w.Cards(m)[i].version < card.version
    ensures GoodCards(k, m)
  {
    OverBase(w, m, card.frame);
    Appending(w.Cards(m), card);
    hide Ordered;
    forall i | 0 <= i < |w.Cards(m)| ensures GoodCard(k, m, w.Cards(m)[i]) {
      CardStays(w, k, m, w.Cards(m)[i]);
    }
    assert GoodCard(k, m, card);
  }

  lemma CommittedCards(w: World, tx: Tx, m: Msg)
    requires GoodWorld(w) && GoodTx(w, tx) && tx.phase.Settled?
    ensures GoodCards(Committed(w, tx), m)
  {
    assert GoodMsg(w, m);
    CommittedShape(w, tx);
    CommittedLogIs(w, tx, m.home);
    CommittedCardsAre(w, tx, m);
    var k := Committed(w, tx);
    hide Committed, GoodWorld, GoodPhase, GoodClaim, Ordered, GoodRow, GoodDone;
    if tx.card.Some? && tx.card.value.m == m {
      NextVersion(w, tx, m);
      CardsExtend(w, k, m, tx.card.value);
    } else {
      forall i | 0 <= i < |w.Cards(m)| ensures GoodCard(k, m, w.Cards(m)[i]) {
        CardStays(w, k, m, w.Cards(m)[i]);
      }
    }
  }

  lemma CommittedDone(w: World, tx: Tx, m: Msg)
    requires GoodWorld(w) && GoodTx(w, tx) && tx.phase.Settled?
    ensures GoodDone(Committed(w, tx), m)
  {
    assert GoodMsg(w, m);
    CommittedCardsAre(w, tx, m);
    hide Committed, GoodLog, GoodState, GoodClaim, GoodCards, GoodRow, Ordered, GoodPhase;
  }

  lemma CommittedWorld(w: World, tx: Tx)
    requires GoodWorld(w) && GoodTx(w, tx) && tx.phase.Settled?
    ensures GoodWorld(Committed(w, tx))
  {
    hide Committed, GoodLog, GoodRow, GoodCards, GoodDone, GoodState;
    CommittedState(w, tx);
    forall c ensures GoodLog(Committed(w, tx), c) {
      CommittedLog(w, tx, c);
    }
    forall m ensures GoodMsg(Committed(w, tx), m) {
      CommittedRow(w, tx, m);
      CommittedCards(w, tx, m);
      CommittedDone(w, tx, m);
    }
  }

  /** Exclusive rows protect the other transactions from a commit. */
  lemma CommittedOther(w: World, tx: Tx, other: Tx)
    requires GoodWorld(w) && GoodTx(w, tx) && tx.phase.Settled? && GoodTx(w, other) && Apart(tx, other)
    ensures GoodTx(Committed(w, tx), other)
  {
    var k := Committed(w, tx);
    CommittedShape(w, tx);
    OtherNewer(w, tx, other);
    OtherWrites(w, tx, other);
    hide Committed, GoodWorld, Newer;
    if other.view.Some? && other.view.value.active {
      forall c ensures GoodClaim(k, other, c) {
        assert GoodClaim(w, other, c);
      }
    }
    hide GoodClaim;
  }

  lemma OtherNewer(w: World, tx: Tx, other: Tx)
    requires GoodWorld(w) && GoodTx(w, tx) && GoodTx(w, other) && Apart(tx, other)
    ensures other.phase.Admitted? ==> Newer(Committed(w, tx), other.phase.m, other.phase.frame)
    ensures other.card.Some? ==> Newer(Committed(w, tx), other.card.value.m, other.card.value.frame)
  {
    if other.phase.Admitted? {
      OtherCard(w, tx, other, other.phase.m);
    }
    if other.card.Some? {
      OtherCard(w, tx, other, other.card.value.m);
    }
    hide Committed, GoodWorld, GoodClaim;
  }

  /** Two card writers of one message would hold the same sequence row. */
  lemma OtherCard(w: World, tx: Tx, other: Tx, m: Msg)
    requires GoodTx(w, tx) && GoodTx(w, other) && Apart(tx, other) && m.home in other.got
    requires other.view.Some? && other.view.value.active
    ensures Committed(w, tx).Stored(m) == w.Stored(m)
  {
    assert GoodClaim(w, other, m.home);
    CommittedCardsAre(w, tx, m);
    hide Committed;
    if tx.card.Some? {
      assert GoodClaim(w, tx, tx.card.value.m.home);
      assert tx.card.value.m.home in tx.held;
    }
  }

  lemma OtherWrites(w: World, tx: Tx, other: Tx)
    requires GoodTx(w, tx) && GoodTx(w, other) && Apart(tx, other)
    ensures forall m :: m in other.writes ==> Committed(w, tx).Stored(m) == w.Stored(m)
  {
    hide Committed, GoodClaim, GoodPhase, Newer;
    forall m | m in other.writes ensures Committed(w, tx).Stored(m) == w.Stored(m) {
      CommittedCardsAre(w, tx, m);
      if tx.card.Some? {
        assert tx.card.value.m in tx.locked && m in other.locked;
      }
    }
  }

  // ---------------------------------------------------------------------------------- every step

  lemma RemovedTx(y: System, t: nat)
    requires Inv(y)
    ensures Inv(y.(txs := y.txs - {t}))
  {
    hide GoodWorld, GoodTx, Apart;
  }

  lemma CommitStep(y: System, t: nat)
    requires Inv(y) && Enabled(y, Commit(t))
    ensures Inv(Apply(y, Commit(t)))
  {
    var w, tx := y.w, y.txs[t];
    assert GoodTx(w, tx);
    CommittedWorld(w, tx);
    var z := Apply(y, Commit(t));
    forall u | u in z.txs ensures GoodTx(z.w, z.txs[u]) {
      assert Apart(tx, y.txs[u]);
      CommittedOther(w, tx, y.txs[u]);
    }
    hide GoodWorld, GoodTx, Apart, Committed;
  }

  lemma FlipStep(y: System, t: nat, observed: int)
    requires Inv(y) && Enabled(y, DoFlip(t, observed))
    ensures Inv(Apply(y, DoFlip(t, observed)))
  {
    var w, tx := y.w, y.txs[t];
    FlippedWorld(w, tx.phase.floor, observed);
    var z := Apply(y, DoFlip(t, observed));
    forall u | u in z.txs ensures GoodTx(z.w, z.txs[u]) {
      UnreadTx(w, z.w, y.txs[u]);
    }
    hide GoodWorld, GoodTx, Apart, Flipped;
  }

  lemma LegacyStep(y: System, t: nat, c: Channel, values: seq<int>, bound: int)
    requires Inv(y) && Enabled(y, Legacy(t, c, values, bound))
    ensures Inv(Apply(y, Legacy(t, c, values, bound)))
  {
    var w, tx := y.w, y.txs[t];
    assert GoodTx(w, tx);
    HandedWorld(w, c, values, bound);
    var z := Apply(y, Legacy(t, c, values, bound));
    forall u | u in y.txs && u != t ensures GoodTx(z.w, y.txs[u]) {
      HandedTx(w, c, values, bound, y.txs[u]);
    }
    HandedSelf(w, c, values, bound, tx);
    SameLocks(y, t, z.txs[t]);
    hide GoodWorld, GoodTx, Handed;
    NewTx(y, z, t);
  }

  lemma JudgeShape(y: System, t: nat)
    requires Inv(y) && Enabled(y, Judge(t))
    ensures var z, w, tx := Apply(y, Judge(t)), y.w, y.txs[t];
            && GoodTx(w, tx) && z.w == Judged(w, tx) == w.(done := z.w.done) && z.txs == y.txs[t := AfterJudge(w, tx)]
            && z.txs[t].held == tx.held && z.txs[t].locked <= tx.locked + {tx.phase.m}
            && RowFree(y, t, tx.phase.m)
  {
    hide GoodTx, GoodWorld;
  }

  lemma JudgeStep(y: System, t: nat)
    requires Inv(y) && Enabled(y, Judge(t))
    ensures Inv(Apply(y, Judge(t)))
  {
    var w, tx, z := y.w, y.txs[t], Apply(y, Judge(t));
    JudgeShape(y, t);
    hide GoodWorld, GoodTx, Judged, AfterJudge, Apply, RowFree;
    JudgedWorld(w, tx);
    JudgeTx(w, tx);
    forall u | u in y.txs && u != t ensures GoodTx(z.w, y.txs[u]) {
      assert GoodTx(w, y.txs[u]);
      SameForTx(w, z.w, y.txs[u]);
    }
    SameForTx(w, z.w, AfterJudge(w, tx));
    MoreRows(y, t, z.txs[t], tx.phase.m);
    NewTx(y, z, t);
  }

  lemma NewTx(y: System, z: System, t: nat)
    requires Inv(y) && t in y.txs && t in z.txs && z.txs == y.txs[t := z.txs[t]]
    requires GoodWorld(z.w) && GoodTx(z.w, z.txs[t])
    requires forall u :: u in y.txs && u != t ==> GoodTx(z.w, y.txs[u]) && Apart(z.txs[t], y.txs[u])
    ensures Inv(z)
  {
    hide GoodWorld, GoodTx;
  }

  /** Steps within one transaction. */
  lemma OwnStep(y: System, ev: Event)
    requires Inv(y) && Enabled(y, ev)
    requires ev.AskState? || ev.ReadState? || ev.Look? || ev.OpenGate? || ev.AskTouch? || ev.AskFlip?
    ensures Inv(Apply(y, ev))
  {
    var t, w, tx := ev.t, y.w, y.txs[ev.t];
    assert GoodTx(w, tx);
    var z := Apply(y, ev);
    match ev {
      case AskState(_) => QueueTx(w, tx, Asking, y.clock);
      case ReadState(_, guard) => ReadTx(w, tx, guard);
      case Look(_, c, count, found, maxExtra, legacyMin) =>
        LookTx(w, tx, c, count, found, maxExtra, legacyMin, y.clock);
      case OpenGate(_, m, frame) => GateTx(w, tx, m, frame, y.clock);
      case AskTouch(_, m, version) => AskTouchTx(w, tx, m, version, y.clock);
      case AskFlip(_, floor) => QueueTx(w, tx, Flipping(floor), y.clock);
    }
    hide GoodWorld, GoodTx;
    SameLocks(y, t, z.txs[t]);
    LocalStep(y, t, z.txs[t], z.clock);
  }

  /** Steps within one transaction that take a row lock. */
  lemma SeqStep(y: System, ev: Event)
    requires Inv(y) && Enabled(y, ev) && (ev.Insert? || ev.Take?)
    ensures Inv(Apply(y, ev))
  {
    var t, w, tx := ev.t, y.w, y.txs[ev.t];
    assert GoodTx(w, tx);
    var z := Apply(y, ev);
    if ev.Insert? {
      InsertTx(w, tx);
    } else {
      TakeTx(w, tx);
    }
    MoreSeqs(y, t, z.txs[t], tx.phase.c);
    hide GoodWorld, GoodTx, AfterInsert, AfterTake;
    LocalStep(y, t, z.txs[t], z.clock);
  }

  lemma RowStep(y: System, ev: Event)
    requires Inv(y) && Enabled(y, ev) && (ev.Write? || ev.Touch?)
    ensures Inv(Apply(y, ev))
  {
    var t, w, tx := ev.t, y.w, y.txs[ev.t];
    assert GoodTx(w, tx);
    var z := Apply(y, ev);
    if ev.Write? {
      WriteTx(w, tx);
    } else {
      TouchTx(w, tx);
    }
    MoreRows(y, t, z.txs[t], tx.phase.m);
    hide GoodWorld, GoodTx, AfterWrite, AfterTouch;
    LocalStep(y, t, z.txs[t], z.clock);
  }

  lemma BeginStep(y: System, t: nat)
    requires Inv(y) && Enabled(y, Begin(t))
    ensures Inv(Apply(y, Begin(t)))
  {
    assert GoodTx(y.w, NEW);
    hide GoodWorld, GoodTx;
  }

  /** Every statement of every transaction keeps the invariant. */
  lemma StepKeepsInv(y: System, ev: Event)
    requires Inv(y) && Enabled(y, ev)
    ensures Inv(Apply(y, ev))
  {
    match ev {
      case Begin(t) => BeginStep(y, t);
      case Legacy(t, c, values, bound) => LegacyStep(y, t, c, values, bound);
      case Judge(t) => JudgeStep(y, t);
      case Commit(t) => CommitStep(y, t);
      case Rollback(t) => RemovedTx(y, t);
      case DoFlip(t, observed) => FlipStep(y, t, observed);
      case Insert(_) => SeqStep(y, ev);
      case Take(_) => SeqStep(y, ev);
      case Write(_) => RowStep(y, ev);
      case Touch(_) => RowStep(y, ev);
      case _ => OwnStep(y, ev);
    }
  }
}
