/** What every run of the allocator, its writers and its cutover guarantees. */
module VersionTheorems {
  import opened Prelude
  import opened VersionStore
  import opened VersionRuns

  /** Before the cutover, with nothing running: every stored version came from the legacy allocator.
      Sequence rows may have survived an earlier transactional interval. */
  ghost predicate Initial(y: System) {
    && y.txs == map[] && y.w.log == map[] && y.w.cards == map[] && y.w.done == {} && !y.w.Active()
    && (forall m :: StoredFrame(y.w.db, m) == if m in y.w.base then Some(y.w.base[m]) else None)
    && (forall m :: m in y.w.db.rows ==> Attested(y.w, m.home, y.w.db.rows[m].version))
    && (forall e :: e in y.w.issued ==> e.0 in y.w.db.bounds && e.1 <= y.w.db.bounds[e.0])
  }

  ghost predicate Legal(y: System, evs: seq<Event>)
    decreases |evs|
  {
    evs == [] || (Enabled(y, evs[0]) && Legal(Apply(y, evs[0]), evs[1..]))
  }

  ghost function Exec(y: System, evs: seq<Event>): System
    requires Legal(y, evs)
    decreases |evs|
  {
    if evs == [] then y else Exec(Apply(y, evs[0]), evs[1..])
  }

  lemma InitialIsGood(y: System)
    requires Initial(y)
    ensures Inv(y)
  {
  }

  lemma {:induction false} RunKeepsInv(y: System, evs: seq<Event>)
    requires Inv(y) && Legal(y, evs)
    ensures Inv(Exec(y, evs))
    decreases |evs|
  {
    if evs != [] {
      hide Inv, Enabled, Apply;
      StepKeepsInv(y, evs[0]);
      RunKeepsInv(Apply(y, evs[0]), evs[1..]);
    }
  }

  // --------------------------------------------------------------------------- no skipped version

  /** Every version of t is above every version of s. */
  ghost predicate AllBelow(s: seq<int>, t: seq<int>) {
    forall u, v :: u in s && v in t ==> u < v
  }

  ghost predicate Grown(s: seq<int>, t: seq<int>) {
    s <= t && AllBelow(s, t[|s|..])
  }

  lemma GrownTwice(r: seq<int>, s: seq<int>, t: seq<int>)
    requires Grown(r, s) && Grown(s, t)
    ensures Grown(r, t)
  {
    forall u, v | u in r && v in t[|r|..] ensures u < v {
      assert t[|r|..] == s[|r|..] + t[|s|..];
      assert r <= s && u in s;
    }
  }

  /** Versions a running transaction still has to commit are above everything committed. */
  lemma RunningAbove(y: System, t: nat, c: Channel)
    requires Inv(y) && t in y.txs && y.txs[t].view.Some? && y.txs[t].view.value.active
    ensures AllBelow(y.w.Log(c), y.txs[t].Got(c)) && Ascending(y.txs[t].Got(c))
  {
    var w, tx := y.w, y.txs[t];
    assert GoodTx(w, tx) && GoodLog(w, c) && GoodClaim(w, tx, c);
  }

  /** Everything else happens inside one transaction. */
  lemma WorldUntouched(y: System, ev: Event)
    requires Enabled(y, ev) && !ev.Legacy? && !ev.Judge? && !ev.Commit? && !ev.DoFlip?
    ensures Apply(y, ev).w == y.w
  {
    hide AfterRead, AfterInsert, AfterTake, AfterWrite, AfterTouch;
  }

  lemma JudgeKeepsTables(y: System, t: nat)
    requires Enabled(y, Judge(t))
    ensures Apply(y, Judge(t)).w == y.w.(done := Apply(y, Judge(t)).w.done)
  {
    hide AfterJudge;
  }

  lemma FlipKeepsHistory(y: System, t: nat, observed: int)
    requires Enabled(y, DoFlip(t, observed))
    ensures var z := Apply(y, DoFlip(t, observed));
            && z.w == y.w.(db := z.w.db) && z.w.db.rows == y.w.db.rows
            && (y.w.Active() ==> z.w == y.w)
  {
  }

  lemma StepGrows(y: System, ev: Event, c: Channel)
    requires Inv(y) && Enabled(y, ev)
    ensures Grown(y.w.Log(c), Apply(y, ev).w.Log(c))
  {
    var w := y.w;
    if ev.Commit? {
      var tx := y.txs[ev.t];
      assert GoodTx(w, tx);
      CommittedLogIs(w, tx, c);
      if tx.view.value.active {
        RunningAbove(y, ev.t, c);
        assert (w.Log(c) + tx.Got(c))[|w.Log(c)|..] == tx.Got(c);
      }
      hide Inv, Committed;
    } else {
      assert w.Log(c)[|w.Log(c)|..] == [];
      LogUntouched(y, ev, c);
      hide Inv, Enabled, Apply;
    }
  }

  lemma LogUntouched(y: System, ev: Event, c: Channel)
    requires Enabled(y, ev) && !ev.Commit?
    ensures Apply(y, ev).w.Log(c) == y.w.Log(c)
  {
    match ev {
      case Legacy(_, _, _, _) =>
      case Judge(t) => JudgeKeepsTables(y, t);
      case DoFlip(t, observed) => FlipKeepsHistory(y, t, observed);
      case _ => WorldUntouched(y, ev);
    }
    hide Enabled;
  }

  /** If v is a channel's greatest committed version, nothing running then or started later ever
      commits a version at or below v there: the committed versions only grow, strictly upwards. */
  lemma {:induction false} NoSkippedVersion(y: System, evs: seq<Event>, c: Channel)
    requires Inv(y) && Legal(y, evs)
    ensures Grown(y.w.Log(c), Exec(y, evs).w.Log(c))
    decreases |evs|
  {
    if evs == [] {
      assert y.w.Log(c)[|y.w.Log(c)|..] == [];
    } else {
      hide Inv, Enabled, Apply, Grown;
      var z := Apply(y, evs[0]);
      StepKeepsInv(y, evs[0]);
      StepGrows(y, evs[0], c);
      NoSkippedVersion(z, evs[1..], c);
      GrownTwice(y.w.Log(c), z.w.Log(c), Exec(y, evs).w.Log(c));
    }
  }

  /** Committed versions are distinct, in commit order, above the floor and exact in a double. */
  lemma CommittedVersions(y: System, evs: seq<Event>, c: Channel)
    requires Initial(y) && Legal(y, evs)
    ensures var w := Exec(y, evs).w;
            && Ascending(w.Log(c))
            && (w.Log(c) != [] ==> w.Active())
            && forall v :: v in w.Log(c) ==> w.Floor() < v <= 9_007_199_254_740_991
  {
    InitialIsGood(y);
    RunKeepsInv(y, evs);
    assert GoodLog(Exec(y, evs).w, c);
  }

  // ------------------------------------------------------------------ what a syncing reader relies on

  /** Every row that is new or changed carries a version above every version its channel showed. */
  ghost predicate Shows(v: Database, w: Database) {
    forall m, x :: m in w.rows && x in v.rows && x.home == m.home && (m in v.rows ==> v.rows[m] != w.rows[m]) ==>
      v.rows[x].version < w.rows[m].version
  }

  ghost predicate Kept(v: Database, w: Database) {
    forall m :: m in v.rows ==> m in w.rows
  }

  lemma WriteIsNewest(y: System, t: nat, m: Msg, x: Msg)
    requires Inv(y) && t in y.txs && y.w.Active() && m in y.txs[t].writes && x in y.w.db.rows && x.home == m.home
    ensures y.w.db.rows[x].version < y.txs[t].writes[m].version
  {
    var w, tx := y.w, y.txs[t];
    assert GoodTx(w, tx) && GoodMsg(w, x) && GoodLog(w, m.home) && GoodClaim(w, tx, m.home);
    assert tx.writes[m].version in tx.Got(m.home);
  }

  lemma StepShows(y: System, ev: Event)
    requires Inv(y) && Enabled(y, ev) && y.w.Active()
    ensures var z := Apply(y, ev); z.w.Active() && Shows(y.w.db, z.w.db) && Kept(y.w.db, z.w.db)
  {
    var w := y.w;
    if ev.Commit? {
      var tx := y.txs[ev.t];
      CommittedShape(w, tx);
      forall m, x | m in tx.writes && x in w.db.rows && x.home == m.home
        ensures w.db.rows[x].version < tx.writes[m].version
      {
        WriteIsNewest(y, ev.t, m, x);
      }
      hide Inv, Committed;
    } else {
      TablesUntouched(y, ev);
      hide Inv, Enabled, Apply;
    }
  }

  lemma TablesUntouched(y: System, ev: Event)
    requires Inv(y) && Enabled(y, ev) && !ev.Commit? && y.w.Active()
    ensures var z := Apply(y, ev);
            && z.w.db.rows == y.w.db.rows && z.w.Active() && z.w.Floor() == y.w.Floor() && z.w.issued == y.w.issued
  {
    if ev.t in y.txs && y.txs[ev.t].view.Some? {
      ViewAgrees(y, ev.t);
    }
    match ev {
      case Legacy(_, _, _, _) =>
      case Judge(t) => JudgeKeepsTables(y, t);
      case DoFlip(t, observed) => FlipKeepsHistory(y, t, observed);
      case _ => WorldUntouched(y, ev);
    }
    hide Inv, Apply;
  }

  lemma ViewAgrees(y: System, t: nat)
    requires Inv(y) && t in y.txs && y.txs[t].view.Some?
    ensures y.txs[t].view.value == View(y.w.Active(), y.w.Floor())
  {
    assert GoodTx(y.w, y.txs[t]);
  }

  lemma ShowsTwice(u: Database, v: Database, w: Database)
    requires Shows(u, v) && Shows(v, w) && Kept(u, v) && Kept(v, w)
    ensures Shows(u, w) && Kept(u, w)
  {
    forall m, x | m in w.rows && x in u.rows && x.home == m.home && (m in u.rows ==> u.rows[m] != w.rows[m])
      ensures u.rows[x].version < w.rows[m].version
    {
      assert x in v.rows;
      assert u.rows[x] != v.rows[x] ==> u.rows[x].version < v.rows[x].version;
    }
  }

  /** After the cutover a reader that asks for versions above its cursor sees every later change, in
      whatever order the writers commit. */
  lemma {:induction false} SyncMissesNothing(y: System, evs: seq<Event>)
    requires Inv(y) && Legal(y, evs) && y.w.Active()
    ensures Shows(y.w.db, Exec(y, evs).w.db) && Kept(y.w.db, Exec(y, evs).w.db)
    decreases |evs|
  {
    if evs != [] {
      hide Inv, Enabled, Apply, Shows, Kept;
      var z := Apply(y, evs[0]);
      StepKeepsInv(y, evs[0]);
      StepShows(y, evs[0]);
      SyncMissesNothing(z, evs[1..]);
      ShowsTwice(y.w.db, z.w.db, Exec(y, evs).w.db);
    }
  }

  // -------------------------------------------------------------------------------- cutover safety

  lemma StepOneWay(y: System, ev: Event)
    requires Inv(y) && Enabled(y, ev) && y.w.Active()
    ensures var z := Apply(y, ev);
            z.w.Active() && z.w.Floor() == y.w.Floor() && z.w.issued == y.w.issued
  {
    if ev.Commit? {
      CommittedShape(y.w, y.txs[ev.t]);
      hide Committed, Inv;
    } else {
      TablesUntouched(y, ev);
      hide Inv, Enabled, Apply;
    }
  }

  /** The flip is one-way, and from it on no legacy value is handed out. */
  lemma {:induction false} OneWay(y: System, evs: seq<Event>)
    requires Inv(y) && Legal(y, evs) && y.w.Active()
    ensures var z := Exec(y, evs);
            z.w.Active() && z.w.Floor() == y.w.Floor() && z.w.issued == y.w.issued
    decreases |evs|
  {
    if evs != [] {
      hide Inv, Enabled, Apply;
      StepKeepsInv(y, evs[0]);
      StepOneWay(y, evs[0]);
      OneWay(Apply(y, evs[0]), evs[1..]);
    }
  }

  /** Every version committed after the flip, on any channel, exceeds every value the legacy allocator
      ever handed out on any channel, committed or not. */
  lemma CutoverSafety(y: System, evs: seq<Event>, c: Channel, v: int, legacy: (string, int))
    requires Initial(y) && Legal(y, evs)
    requires v in Exec(y, evs).w.Log(c) && legacy in Exec(y, evs).w.issued
    ensures Exec(y, evs).w.Active() && legacy.1 <= Exec(y, evs).w.Floor() < v
  {
    InitialIsGood(y);
    RunKeepsInv(y, evs);
    assert GoodLog(Exec(y, evs).w, c);
  }

  /** A transaction that has read the mode keeps it: reading the state row again, as ReserveTx does
      after Mode, gives the same answer until it ends. */
  lemma SecondReadAgrees(y: System, t: nat, guard: Guard)
    requires Inv(y) && t in y.txs && y.txs[t].view.Some? && Resolve(y.w.db.state, guard).Ok?
    ensures AfterRead(y.w, y.txs[t], guard).view == y.txs[t].view
  {
    assert GoodTx(y.w, y.txs[t]);
  }

  // ------------------------------------------------------------------------------ headroom for one batch

  /** First use of a channel never overflows, whatever the stale reads behind its baseline were: the row
      starts at the floor exactly, and any batch up to the limit fits. */
  lemma FirstUseFits(y: System, t: nat)
    requires Inv(y) && t in y.txs && y.txs[t].phase.Absent? && y.txs[t].phase.c !in y.w.db.seqs
    ensures var tx := y.txs[t];
            var n := AfterInsert(y.w, tx);
            && n.phase == Present(tx.phase.c, tx.phase.count) && n.view.Some?
            && n.held[tx.phase.c] == y.w.Floor()
            && AfterTake(y.w, n).phase.Settled?
            && AfterTake(y.w, n).Got(tx.phase.c) == Range(y.w.Floor(), tx.phase.count)
  {
    var w, tx := y.w, y.txs[t];
    assert GoodTx(w, tx) && GoodClaim(w, tx, tx.phase.c);
    assert [] + Range(w.Floor(), tx.phase.count) == Range(w.Floor(), tx.phase.count);
  }

  /** So does the first batch on a surviving row at or below the floor. */
  lemma RaisedRowFits(y: System, t: nat)
    requires Inv(y) && t in y.txs && y.txs[t].phase.Present? && y.txs[t].view.Some?
    requires Visible(y.w, y.txs[t])[y.txs[t].phase.c] <= y.w.Floor()
    ensures var tx := y.txs[t];
            var n := AfterTake(y.w, tx);
            n.phase.Settled? && n.Got(tx.phase.c) == tx.Got(tx.phase.c) + Range(y.w.Floor(), tx.phase.count)
  {
    assert GoodTx(y.w, y.txs[t]);
  }

  // ------------------------------------------------------------------------------------ card frames

  /** The frames of m whose write ran to its end. */
  ghost predicate Ran(w: World, m: Msg, frame: Frame) {
    (m, frame) in w.done
  }

  /** Per message, commit order, version order and card_seq order coincide, and the row shows the last
      accepted frame, which no frame that ran exceeds. */
  lemma CardOrder(y: System, evs: seq<Event>, m: Msg)
    requires Initial(y) && Legal(y, evs)
    ensures var w := Exec(y, evs).w;
            && Ordered(w.Cards(m)) && StoredFrame(w.db, m) == w.Stored(m)
            && forall frame :: Ran(w, m, frame) ==>
                 w.Stored(m).Some? && frame.cardSeq <= w.Stored(m).value.cardSeq
  {
    InitialIsGood(y);
    RunKeepsInv(y, evs);
    assert GoodMsg(Exec(y, evs).w, m);
  }

  /** The stored frame is one that ran, or the one before them all. */
  lemma StoredRan(w: World, m: Msg)
    requires GoodMsg(w, m) && w.Stored(m).Some?
    ensures Ran(w, m, w.Stored(m).value) || (w.Cards(m) == [] && m in w.base && w.Stored(m).value == w.base[m])
  {
    if w.Cards(m) != [] {
      assert GoodCard(w, m, w.Cards(m)[|w.Cards(m)| - 1]);
    }
  }

  /** The greatest frame that ran is the one the row shows. */
  lemma GreatestFrameWins(y: System, evs: seq<Event>, m: Msg, frame: Frame)
    requires Initial(y) && Legal(y, evs)
    requires var w := Exec(y, evs).w;
             && Ran(w, m, frame) && (m in w.base ==> w.base[m].cardSeq < frame.cardSeq)
             && forall f :: Ran(w, m, f) ==> f == frame || f.cardSeq < frame.cardSeq
    ensures StoredFrame(Exec(y, evs).w.db, m) == Some(frame)
  {
    CardOrder(y, evs, m);
    InitialIsGood(y);
    RunKeepsInv(y, evs);
    StoredRan(Exec(y, evs).w, m);
  }

  /** A card writer's row takes its frame and version; a plain writer's takes its version and keeps the
      frame the message shows. */
  lemma WriteOutcome(y: System, ev: Event)
    requires Inv(y) && Enabled(y, ev) && (ev.Write? || ev.Touch?)
    ensures var tx, n := y.txs[ev.t], Apply(y, ev).txs[ev.t];
            var m, version := tx.phase.m, tx.phase.version;
            var frame := if ev.Write? then Some(tx.phase.frame) else y.w.Stored(m);
            && n.phase.Settled? && n.writes == tx.writes[m := Row(version, frame)]
            && n.got == tx.got && n.held == tx.held && m in n.locked && version in tx.Got(m.home)
            && n.card == (if ev.Write? then Some(Card(m, tx.phase.frame, version)) else tx.card)
            && Apply(y, ev).w == y.w
  {
    var tx := y.txs[ev.t];
    assert GoodTx(y.w, tx) && GoodMsg(y.w, tx.phase.m);
    hide Inv;
  }

  /** A commit shows exactly what its transaction wrote, moves exactly the sequence rows it holds, and
      appends exactly the versions it was given. */
  lemma CommitOutcome(y: System, t: nat, m: Msg, c: Channel)
    requires Inv(y) && Enabled(y, Commit(t))
    ensures var tx, w, k := y.txs[t], y.w, Apply(y, Commit(t)).w;
            && t !in Apply(y, Commit(t)).txs
            && (if m in tx.writes then m in k.db.rows && k.db.rows[m] == tx.writes[m]
                else (m in k.db.rows <==> m in w.db.rows) && (m in w.db.rows ==> k.db.rows[m] == w.db.rows[m]))
            && (if c in tx.held then c in k.db.seqs && k.db.seqs[c] == tx.held[c]
                else (c in k.db.seqs <==> c in w.db.seqs) && (c in w.db.seqs ==> k.db.seqs[c] == w.db.seqs[c]))
            && k.Log(c) == (if w.Active() then w.Log(c) + tx.Got(c) else w.Log(c))
            && k.db.state == w.db.state && k.db.bounds == w.db.bounds
  {
    var tx := y.txs[t];
    assert GoodTx(y.w, tx);
    CommittedShape(y.w, tx);
    CommittedLogIs(y.w, tx, c);
    hide Inv, Committed;
  }

  /** However the same frames, with distinct card_seq, were ordered, interleaved or retried, by however
      many writers, the row ends the same. */
  lemma CardConfluence(x: System, evs: seq<Event>, y: System, more: seq<Event>, m: Msg)
    requires Initial(x) && Legal(x, evs) && Initial(y) && Legal(y, more)
    requires var v, w := Exec(x, evs).w, Exec(y, more).w;
             && (m in v.base <==> m in w.base) && (m in v.base ==> v.base[m] == w.base[m])
             && (forall f :: Ran(v, m, f) <==> Ran(w, m, f))
             && (forall f, g :: Ran(v, m, f) && Ran(v, m, g) && f.cardSeq == g.cardSeq ==> f == g)
    ensures StoredFrame(Exec(x, evs).w.db, m) == StoredFrame(Exec(y, more).w.db, m)
  {
    InitialIsGood(x);
    InitialIsGood(y);
    RunKeepsInv(x, evs);
    RunKeepsInv(y, more);
    hide Initial, Legal, Exec, GoodState, GoodLog;
    SameFrame(Exec(x, evs).w, Exec(y, more).w, m);
  }

  lemma SameFrame(x: World, z: World, m: Msg)
    requires GoodMsg(x, m) && GoodMsg(z, m)
    requires (m in x.base <==> m in z.base) && (m in x.base ==> x.base[m] == z.base[m])
    requires forall frame :: Ran(x, m, frame) <==> Ran(z, m, frame)
    requires forall f, g :: Ran(x, m, f) && Ran(x, m, g) && f.cardSeq == g.cardSeq ==> f == g
    ensures StoredFrame(x.db, m) == StoredFrame(z.db, m)
  {
    NotBeyond(x, z, m);
    NotBeyond(z, x, m);
    if x.Stored(m).Some? {
      StoredRan(x, m);
      StoredRan(z, m);
    }
  }

  /** One run's result is never newer than the other's, and untouched only together. */
  lemma NotBeyond(x: World, z: World, m: Msg)
    requires GoodMsg(x, m) && GoodMsg(z, m)
    requires (m in x.base <==> m in z.base) && (m in x.base ==> x.base[m] == z.base[m])
    requires forall frame :: Ran(x, m, frame) ==> Ran(z, m, frame)
    ensures x.Stored(m).Some? ==> z.Stored(m).Some? && x.Stored(m).value.cardSeq <= z.Stored(m).value.cardSeq
    ensures x.Cards(m) != [] ==> z.Cards(m) != []
  {
    if x.Stored(m).Some? {
      StoredRan(x, m);
      var f := x.Stored(m).value;
      if Ran(x, m, f) {
        assert !Newer(z, m, f);
      }
      if x.Cards(m) != [] {
        assert GoodCard(x, m, x.Cards(m)[|x.Cards(m)| - 1]);
      }
      if z.Cards(m) != [] {
        assert GoodCard(z, m, z.Cards(m)[|z.Cards(m)| - 1]);
      }
    }
  }

  /** The gate answers by the last accepted frame, or the one before them all: a newer frame is let
      through, the very same frame is a replay, and anything else a conflict. No answer changes a table. */
  lemma JudgedByRow(y: System, evs: seq<Event>, t: nat)
    requires Initial(y) && Legal(y, evs) && Enabled(Exec(y, evs), Judge(t))
    ensures var x := Exec(y, evs);
            var tx, z := x.txs[t], Apply(x, Judge(t));
            var m, frame, shown := tx.phase.m, tx.phase.frame, x.w.Stored(tx.phase.m);
            && z.w == x.w.(done := z.w.done)
            && z.txs[t].phase ==
                 if shown == Some(frame) then Rejected(Replay)
                 else if shown.Some? && frame.cardSeq <= shown.value.cardSeq then Rejected(Conflict)
                 else Admitted(m, frame, tx.phase.version)
  {
    InitialIsGood(y);
    RunKeepsInv(y, evs);
    hide Initial, Legal, Exec, Inv;
    JudgedAt(Exec(y, evs), t);
  }

  lemma JudgedAt(y: System, t: nat)
    requires Inv(y) && Enabled(y, Judge(t))
    ensures var tx, z := y.txs[t], Apply(y, Judge(t));
            var m, frame, shown := tx.phase.m, tx.phase.frame, y.w.Stored(tx.phase.m);
            && z.w == y.w.(done := z.w.done)
            && z.txs[t].phase ==
                 if shown == Some(frame) then Rejected(Replay)
                 else if shown.Some? && frame.cardSeq <= shown.value.cardSeq then Rejected(Conflict)
                 else Admitted(m, frame, tx.phase.version)
  {
    assert GoodMsg(y.w, y.txs[t].phase.m);
    hide Inv;
  }

  /** An accepted frame sent again while it is the last accepted one is a replay. Only a rollback is left
      then, and the tables, the committed versions and the accepted frames are as they were. */
  lemma AcceptedAgainIsReplay(y: System, evs: seq<Event>, t: nat, ev: Event)
    requires Initial(y) && Legal(y, evs) && Enabled(Exec(y, evs), Judge(t))
    requires var x := Exec(y, evs);
             var cards := x.w.Cards(x.txs[t].phase.m);
             cards != [] && cards[|cards| - 1].frame == x.txs[t].phase.frame
    requires Enabled(Apply(Exec(y, evs), Judge(t)), ev) && !ev.Begin? && ev.t == t
    ensures var x := Exec(y, evs);
            var z := Apply(x, Judge(t));
            && z.txs[t].phase == Rejected(Replay) && ev == Rollback(t)
            && Apply(z, ev).w == x.w.(done := Apply(z, ev).w.done)
  {
    JudgedByRow(y, evs, t);
    RejectionConsumesNothing(Apply(Exec(y, evs), Judge(t)), ev);
  }

  /** A conflict or replay has only a rollback left, which leaves every table and the committed versions
      as they were: it consumes no version. */
  lemma RejectionConsumesNothing(y: System, ev: Event)
    requires Enabled(y, ev) && ev.t in y.txs && y.txs[ev.t].phase.Rejected?
    ensures ev.Rollback? && Apply(y, ev).w == y.w
  {
  }
}
