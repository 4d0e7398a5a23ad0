/** Deadlock freedom of the transactional writers: state row, then channel sequence, then message row.
    A waiter waits for the holders of a conflicting lock and for earlier conflicting requests. */
module LockOrder {
  import opened Prelude
  import opened VersionStore
  import opened VersionRuns

  predicate WantsSeq(tx: Tx, c: Channel) {
    (tx.phase.Absent? || tx.phase.Present?) && tx.phase.c == c && c !in tx.held
  }

  predicate WantsRow(tx: Tx, m: Msg) {
    (tx.phase.Gating? || tx.phase.Admitted? || tx.phase.Touching?) && tx.phase.m == m && m !in tx.locked
  }

  predicate Earlier(u: Tx, t: Tx) {
    u.ticket < t.ticket
  }

  /** Why u keeps t waiting: the shared state lock conflicts only with the flip's exclusive one. */
  ghost predicate Blocks(u: Tx, t: Tx) {
    || (t.phase.Asking? && u.phase.Flipping? && Earlier(u, t))
    || (t.phase.Flipping? && (u.shared || ((u.phase.Asking? || u.phase.Flipping?) && Earlier(u, t))))
    || (exists c :: WantsSeq(t, c) && (c in u.held || (WantsSeq(u, c) && Earlier(u, t))))
    || (exists m :: WantsRow(t, m) && (m in u.locked || (WantsRow(u, m) && Earlier(u, t))))
  }

  ghost predicate Waits(y: System, t: nat, u: nat) {
    t in y.txs && u in y.txs && t != u && Blocks(y.txs[u], y.txs[t])
  }

  /** The callers' discipline: transactional mode, and one storage channel per transaction. */
  ghost predicate Disciplined(y: System) {
    forall t :: t in y.txs ==>
      && (y.txs[t].view.Some? ==> y.txs[t].view.value.active)
      && (y.txs[t].phase.Absent? || y.txs[t].phase.Present? ==> y.txs[t].held.Keys <= {y.txs[t].phase.c})
  }

  /** Which lock in the global order a transaction waits for. */
  function Level(tx: Tx): nat {
    if tx.phase.Asking? || tx.phase.Flipping? then 2
    else if (tx.phase.Absent? || tx.phase.Present?) && tx.phase.c !in tx.held then 1
    else 0
  }

  predicate Below(u: Tx, t: Tx) {
    Level(u) < Level(t) || (Level(u) == Level(t) && 0 < Level(t) && u.ticket < t.ticket)
  }

  /** Waiting goes down the lock order, or to an earlier ticket for the same lock. */
  lemma WaitingDescends(y: System, t: nat, u: nat)
    requires Inv(y) && Disciplined(y) && Waits(y, t, u)
    ensures Below(y.txs[u], y.txs[t])
  {
    var w, a, b := y.w, y.txs[t], y.txs[u];
    assert GoodTx(w, a) && GoodTx(w, b) && Apart(a, b);
    if m :| WantsRow(a, m) && (m in b.locked || (WantsRow(b, m) && Earlier(b, a))) {
      RowsAreHeld(w, a, m);
      RowsAreHeld(w, b, m);
    }
    hide GoodWorld, GoodWrites, GoodPhase, GoodClaim;
  }

  /** Whoever locks or wants a message row holds its channel's sequence row. */
  lemma RowsAreHeld(w: World, tx: Tx, m: Msg)
    requires GoodTx(w, tx) && (m in tx.locked || WantsRow(tx, m)) && (tx.view.Some? ==> tx.view.value.active)
    ensures m.home in tx.held
  {
    assert tx.view.Some?;
    assert GoodClaim(w, tx, m.home);
  }

  ghost predicate Chain(y: System, path: seq<nat>) {
    forall i :: 0 <= i < |path| - 1 ==> Waits(y, path[i], path[i + 1])
  }

  lemma BelowTransitive(a: Tx, b: Tx, c: Tx)
    requires Below(a, b) && Below(b, c)
    ensures Below(a, c)
  {
  }

  lemma {:induction false} ChainDescends(y: System, path: seq<nat>)
    requires Inv(y) && Disciplined(y) && 2 <= |path| && Chain(y, path)
    ensures path[0] in y.txs && path[|path| - 1] in y.txs && Below(y.txs[path[|path| - 1]], y.txs[path[0]])
  {
    hide Inv, Disciplined, Blocks, Below;
    var n := |path|;
    assert Waits(y, path[n - 2], path[n - 1]);
    WaitingDescends(y, path[n - 2], path[n - 1]);
    if n > 2 {
      var front := path[..n - 1];
      forall i | 0 <= i < |front| - 1 ensures Waits(y, front[i], front[i + 1]) {
        assert Waits(y, path[i], path[i + 1]);
      }
      ChainDescends(y, front);
      BelowTransitive(y.txs[path[n - 1]], y.txs[path[n - 2]], y.txs[path[0]]);
    }
  }

  /** The wait-for graph of card writers, plain reservers and pending flips has no cycle. */
  lemma NoDeadlock(y: System, path: seq<nat>)
    requires Inv(y) && Disciplined(y) && 2 <= |path| && Chain(y, path)
    ensures path[0] != path[|path| - 1]
  {
    ChainDescends(y, path);
  }

  ghost predicate Lowest(y: System, some: set<nat>, t: nat)
    requires forall u :: u in some ==> u in y.txs
  {
    t in some && forall u :: u in some ==> !Below(y.txs[u], y.txs[t])
  }

  lemma {:induction false} LowestExists(y: System, some: set<nat>) returns (t: nat)
    requires some != {} && forall u :: u in some ==> u in y.txs
    ensures Lowest(y, some, t)
    decreases some
  {
    var first :| first in some;
    var rest := some - {first};
    t := first;
    if rest != {} {
      var u := LowestExists(y, rest);
      if Below(y.txs[first], y.txs[u]) {
        forall v | v in some ensures !Below(y.txs[v], y.txs[first]) {
          if v in rest && Below(y.txs[v], y.txs[first]) {
            BelowTransitive(y.txs[v], y.txs[first], y.txs[u]);
          }
        }
      } else {
        t := u;
        assert forall v :: v in some ==> v == first || v in rest;
      }
    } else {
      assert some == {first};
    }
  }

  /** A step that brings the transaction forward; giving up counts only after an error or a rejection. */
  ghost predicate Forward(y: System, ev: Event) {
    ev.t in y.txs && Enabled(y, ev) && (ev.Rollback? ==> y.txs[ev.t].phase.Failed? || y.txs[ev.t].phase.Rejected?)
  }

  /** Whatever locks are held and wanted, some transaction can go forward. */
  lemma SomeoneMoves(y: System, observed: int) returns (ev: Event)
    requires Inv(y) && Disciplined(y) && y.txs != map[] && IsObserved(y.w.db, observed)
    ensures Forward(y, ev)
  {
    var t := LowestExists(y, y.txs.Keys);
    var tx := y.txs[t];
    assert GoodTx(y.w, tx);
    forall u | u in y.txs && u != t ensures !Blocks(y.txs[u], tx) {
      if Blocks(y.txs[u], tx) {
        WaitingDescends(y, t, u);
      }
    }
    ev := Granted(y, t, observed);
  }

  lemma Granted(y: System, t: nat, observed: int) returns (ev: Event)
    requires Inv(y) && t in y.txs && IsObserved(y.w.db, observed)
    requires forall u :: u in y.txs && u != t ==> !Blocks(y.txs[u], y.txs[t])
    ensures Forward(y, ev)
  {
    var tx := y.txs[t];
    assert GoodTx(y.w, tx) && GoodPhase(y.w, tx);
    hide Inv, GoodTx, SeqFree, RowFree, StateFree, Attested, IsObserved, Blocks;
    match tx.phase {
      case Flipping(_) =>
        StateGranted(y, t);
        ev := DoFlip(t, observed);
      case Absent(_, _, _) => ev := SeqLockGranted(y, t);
      case Present(_, _) => ev := SeqLockGranted(y, t);
      case Gating(_, _, _) => ev := RowLockGranted(y, t);
      case Admitted(_, _, _) => ev := RowLockGranted(y, t);
      case Touching(_, _) => ev := RowLockGranted(y, t);
      case _ => ev := Unhindered(y, t);
    }
  }

  lemma Unhindered(y: System, t: nat) returns (ev: Event)
    requires t in y.txs
    requires var phase := y.txs[t].phase;
             phase.Fresh? || phase.Asking? || phase.Settled? || phase.Failed? || phase.Rejected?
    ensures Forward(y, ev)
  {
    var phase := y.txs[t].phase;
    ev := if phase.Fresh? then AskState(t) else if phase.Asking? then ReadState(t, Unset)
          else if phase.Settled? then Commit(t) else Rollback(t);
  }

  lemma StateGranted(y: System, t: nat)
    requires t in y.txs && y.txs[t].phase.Flipping?
    requires forall u :: u in y.txs && u != t ==> !Blocks(y.txs[u], y.txs[t])
    ensures StateFree(y, t)
  {
  }

  lemma SeqLockGranted(y: System, t: nat) returns (ev: Event)
    requires Inv(y) && t in y.txs && (y.txs[t].phase.Absent? || y.txs[t].phase.Present?)
    requires forall u :: u in y.txs && u != t ==> !Blocks(y.txs[u], y.txs[t])
    ensures Forward(y, ev)
  {
    var tx := y.txs[t];
    assert GoodTx(y.w, tx) && GoodPhase(y.w, tx);
    SeqGranted(y, t, tx.phase.c);
    ev := if tx.phase.Absent? then Insert(t) else Take(t);
    hide Inv, GoodTx, SeqFree, RowFree, Blocks;
  }

  lemma RowLockGranted(y: System, t: nat) returns (ev: Event)
    requires Inv(y) && t in y.txs
    requires y.txs[t].phase.Gating? || y.txs[t].phase.Admitted? || y.txs[t].phase.Touching?
    requires forall u :: u in y.txs && u != t ==> !Blocks(y.txs[u], y.txs[t])
    ensures Forward(y, ev)
  {
    var tx := y.txs[t];
    assert GoodTx(y.w, tx) && GoodPhase(y.w, tx);
    RowGranted(y, t, tx.phase.m);
    ev := if tx.phase.Gating? then Judge(t) else if tx.phase.Admitted? then Write(t) else Touch(t);
    hide Inv, GoodTx, SeqFree, RowFree, Blocks;
  }

  lemma SeqGranted(y: System, t: nat, c: Channel)
    requires Inv(y) && t in y.txs && (WantsSeq(y.txs[t], c) || c in y.txs[t].held)
    requires forall u :: u in y.txs && u != t ==> !Blocks(y.txs[u], y.txs[t])
    ensures SeqFree(y, t, c)
  {
    forall u | u in y.txs && u != t ensures c !in y.txs[u].held {
      assert Apart(y.txs[t], y.txs[u]);
    }
  }

  lemma RowGranted(y: System, t: nat, m: Msg)
    requires Inv(y) && t in y.txs && (WantsRow(y.txs[t], m) || m in y.txs[t].locked)
    requires forall u :: u in y.txs && u != t ==> !Blocks(y.txs[u], y.txs[t])
    ensures RowFree(y, t, m)
  {
    forall u | u in y.txs && u != t ensures m !in y.txs[u].locked {
      assert Apart(y.txs[t], y.txs[u]);
    }
  }

  /** One channel per transaction is needed: two writers that reserve on two channels in opposite
      orders wait for each other. */
  lemma TwoChannelsDeadlock() returns (y: System)
    ensures Inv(y) && Waits(y, 0, 1) && Waits(y, 1, 0)
    ensures forall t :: t in y.txs ==> y.txs[t].view == Some(View(true, 0))
  {
    var a, b := Channel("a", 2), Channel("b", 2);
    assert "a"[0] != "b"[0];
    var state := Some(StateRow(MODE_TRANSACTIONAL, 1, 0));
    var w := World(Database(state, map[a := 0, b := 0], map[], map[]), map[], {}, map[], map[], {});
    var first := Tx(Present(b, 1), 0, true, Some(View(true, 0)), map[a := 1], map[a := [1]], {}, map[], None);
    var second := Tx(Present(a, 1), 1, true, Some(View(true, 0)), map[b := 1], map[b := [1]], {}, map[], None);
    y := System(w, map[0 := first, 1 := second], 2);
    assert GoodWorld(w);
    assert GoodTx(w, first) && GoodTx(w, second) && Apart(first, second) && Apart(second, first);
    assert WantsSeq(first, b) && WantsSeq(second, a);
    hide GoodWorld, GoodTx;
  }
}
