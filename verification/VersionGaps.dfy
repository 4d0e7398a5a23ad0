/** No gaps: a reservation takes exactly the next numbers, and since a rollback returns them, the versions
    a channel commits after the cutover are consecutive, from a first one fixed by the floor and the row
    that survived. */
module VersionGaps {
  import opened Prelude
  import opened VersionStore
  import opened VersionRuns
  import opened VersionTheorems

  // ------------------------------------------------------------------------------- one reservation

  /** The row as a transaction that may lock it sees it. */
  ghost function RowOf(w: World, tx: Tx, c: Channel): int
    requires c in tx.held || c in w.db.seqs
  {
    if c in tx.held then tx.held[c] else w.db.seqs[c]
  }

  lemma TakenIs(w: World, tx: Tx)
    requires GoodPhase(w, tx) && GoodView(w, tx) && tx.phase.Present?
    ensures var c, count, n := tx.phase.c, tx.phase.count, AfterTake(w, tx);
            var top := Max(RowOf(w, tx, c), w.Floor());
            if top + count <= 9_007_199_254_740_991 then
              n == tx.(phase := Settled, held := tx.held[c := top + count], got := tx.got[c := tx.Got(c) + Range(top, count)])
            else
              n == tx.(phase := Failed, held := tx.held[c := RowOf(w, tx, c)])
  {
  }

  /** Under the row lock a reservation is granted if and only if it fits below 2^53, and then it is the
      next count numbers above the row and the floor. */
  lemma TakeGrants(y: System, t: nat)
    requires Inv(y) && Enabled(y, Take(t))
    ensures var tx, n := y.txs[t], Apply(y, Take(t)).txs[t];
            var c, count := tx.phase.c, tx.phase.count;
            && (c in tx.held || c in y.w.db.seqs)
            && var row := RowOf(y.w, tx, c);
               var top := if row < y.w.Floor() then y.w.Floor() else row;
               if top + count <= 9_007_199_254_740_991 then
                 && n.phase.Settled? && n.held == tx.held[c := top + count]
                 && tx.Got(c) <= n.Got(c)
                 && (var taken := n.Got(c)[|tx.Got(c)|..]; |taken| == count && forall i :: 0 <= i < count ==> taken[i] == top + 1 + i)
                 && (forall x :: x != c ==> n.Got(x) == tx.Got(x))
               else
                 n.phase.Failed? && n.got == tx.got
  {
    var w, tx := y.w, y.txs[t];
    assert GoodTx(w, tx);
    hide Inv, AfterTake, GoodWrites, GoodClaim;
    TakenIs(w, tx);
  }

  // ---------------------------------------------------------------------------- the whole run

  ghost predicate Consecutive(s: seq<int>) {
    forall i :: 0 <= i < |s| ==> s[i] == s[0] + i
  }

  /** The first version of a channel: above the floor, and above the row that survived, if any. */
  ghost function First(seqs: map<Channel, int>, floor: int, c: Channel): int {
    1 + if c in seqs && floor < seqs[c] then seqs[c] else floor
  }

  /** The committed versions of a channel and its row, given the rows there were at the start. */
  ghost predicate Even(w: World, seqs: map<Channel, int>, c: Channel) {
    var log := w.Log(c);
    if log == [] then
      if c in seqs then c in w.db.seqs && w.db.seqs[c] == seqs[c]
      else c in w.db.seqs ==> w.db.seqs[c] == w.Floor()
    else
      && Consecutive(log) && log[0] == First(seqs, w.Floor(), c)
      && c in w.db.seqs && w.db.seqs[c] == log[|log| - 1]
  }

  /** The next version of a channel. */
  ghost function Next(w: World, seqs: map<Channel, int>, c: Channel): int {
    var log := w.Log(c);
    if log == [] then First(seqs, w.Floor(), c) else log[|log| - 1] + 1
  }

  /** What a transaction has taken of a channel continues what is committed, and its row is at the last. */
  ghost predicate EvenClaim(w: World, seqs: map<Channel, int>, tx: Tx, c: Channel) {
    if c in tx.got then
      && c in tx.held && tx.got[c] != [] && Consecutive(tx.got[c])
      && tx.got[c][0] == Next(w, seqs, c) && tx.held[c] == tx.got[c][|tx.got[c]| - 1]
    else
      c in tx.held ==>
        && (tx.phase.Failed? || (tx.phase.Present? && tx.phase.c == c))
        && tx.held[c] == if c in w.db.seqs then w.db.seqs[c] else w.Floor()
  }

  ghost predicate EvenTx(w: World, seqs: map<Channel, int>, tx: Tx) {
    tx.view.Some? && tx.view.value.active ==> forall c :: EvenClaim(w, seqs, tx, c)
  }

  ghost predicate Gapless(y: System, seqs: map<Channel, int>) {
    && (y.w.Active() ==> forall c :: Even(y.w, seqs, c))
    && (!y.w.Active() ==> y.w.db.seqs == seqs && forall c :: y.w.Log(c) == [])
    && (forall t :: t in y.txs ==> EvenTx(y.w, seqs, y.txs[t]))
  }

  lemma JoinConsecutive(s: seq<int>, t: seq<int>)
    requires Consecutive(s) && Consecutive(t) && s != [] && t != [] && t[0] == s[|s| - 1] + 1
    ensures Consecutive(s + t)
  {
  }

  /** Nothing about the channel changes. */
  lemma SameClaim(w: World, k: World, seqs: map<Channel, int>, tx: Tx, n: Tx, c: Channel)
    requires EvenClaim(w, seqs, tx, c) && k.Log(c) == w.Log(c) && k.Floor() == w.Floor()
    requires (c in k.db.seqs <==> c in w.db.seqs) && (c in w.db.seqs ==> k.db.seqs[c] == w.db.seqs[c])
    requires (c in n.got <==> c in tx.got) && (c in tx.got ==> n.got[c] == tx.got[c])
    requires (c in n.held <==> c in tx.held) && (c in tx.held ==> n.held[c] == tx.held[c])
    requires tx.phase.Failed? || (tx.phase.Present? && tx.phase.c == c) ==> n.phase == tx.phase
    ensures EvenClaim(k, seqs, n, c)
  {
    hide Consecutive;
  }

  lemma InsertClaim(w: World, seqs: map<Channel, int>, tx: Tx, c: Channel)
    requires GoodTx(w, tx) && tx.phase.Absent? && EvenClaim(w, seqs, tx, c)
    ensures EvenClaim(w, seqs, AfterInsert(w, tx), c)
  {
    hide GoodWrites, GoodClaim;
  }

  lemma RangeIsConsecutive(top: int, count: nat)
    requires count > 0
    ensures var r := Range(top, count); Consecutive(r) && r[0] == top + 1 && r[count - 1] == top + count
  {
  }

  /** A range taken continues the channel. */
  lemma ClaimTaken(w: World, seqs: map<Channel, int>, tx: Tx, n: Tx, c: Channel, top: int, count: nat)
    requires EvenClaim(w, seqs, tx, c) && count > 0
    requires c in n.got && c in n.held && n.got[c] == tx.Got(c) + Range(top, count) && n.held[c] == top + count
    requires top + 1 == if c in tx.got then tx.got[c][|tx.got[c]| - 1] + 1 else Next(w, seqs, c)
    ensures EvenClaim(w, seqs, n, c)
  {
    RangeIsConsecutive(top, count);
    var r := Range(top, count);
    hide Range, Next, Consecutive;
    if c in tx.got {
      JoinConsecutive(tx.got[c], r);
      assert (tx.got[c] + r)[|tx.got[c]| + count - 1] == r[count - 1];
    } else {
      assert [] + r == r;
    }
  }

  lemma TakeClaim(w: World, seqs: map<Channel, int>, tx: Tx, c: Channel)
    requires GoodTx(w, tx) && GoodLog(w, c) && Even(w, seqs, c) && tx.phase.Present? && tx.view.Some? && EvenClaim(w, seqs, tx, c)
    ensures EvenClaim(w, seqs, AfterTake(w, tx), c)
  {
    PhaseOf(w, tx);
    TakenIs(w, tx);
    assert GoodClaim(w, tx, c);
    hide AfterTake, GoodTx, GoodView, GoodWrites, Range;
    if c == tx.phase.c {
      var top := Max(RowOf(w, tx, c), w.Floor());
      TakenFollows(w, seqs, tx, c);
      hide GoodClaim, GoodLog, Next, Even, EvenClaim, Consecutive;
      if top + tx.phase.count <= MAX_SAFE_INTEGER {
        ClaimTaken(w, seqs, tx, AfterTake(w, tx), c, top, tx.phase.count);
      } else {
        ClaimRefused(w, seqs, tx, AfterTake(w, tx), c);
      }
    } else {
      hide GoodClaim, GoodLog, Next, Even, GoodPhase;
      SameClaim(w, w, seqs, tx, AfterTake(w, tx), c);
    }
  }

  lemma ClaimRefused(w: World, seqs: map<Channel, int>, tx: Tx, n: Tx, c: Channel)
    requires EvenClaim(w, seqs, tx, c) && (c in tx.held || c in w.db.seqs)
    requires n == tx.(phase := Failed, held := tx.held[c := RowOf(w, tx, c)])
    ensures EvenClaim(w, seqs, n, c)
  {
  }

  /** The row as seen is at the last version so far. */
  lemma TakenFollows(w: World, seqs: map<Channel, int>, tx: Tx, c: Channel)
    requires GoodLog(w, c) && GoodClaim(w, tx, c) && Even(w, seqs, c) && EvenClaim(w, seqs, tx, c)
    requires c in tx.held || c in w.db.seqs
    ensures Max(RowOf(w, tx, c), w.Floor()) + 1
         == if c in tx.got then tx.got[c][|tx.got[c]| - 1] + 1 else Next(w, seqs, c)
  {
    if c in tx.got {
      assert tx.got[c][|tx.got[c]| - 1] in tx.got[c];
    } else if w.Log(c) != [] {
      assert w.Log(c)[|w.Log(c)| - 1] in w.Log(c);
    }
  }

  /** A commit appends what its transaction took. */
  lemma CommitEven(w: World, seqs: map<Channel, int>, tx: Tx, c: Channel)
    requires w.Active() && Even(w, seqs, c) && EvenClaim(w, seqs, tx, c)
    requires tx.phase.Settled? && tx.view.Some? && tx.view.value.active
    ensures Even(Committed(w, tx), seqs, c) && (c in tx.got ==> c in tx.held)
  {
    CommittedShape(w, tx);
    CommittedLogIs(w, tx, c);
    hide Committed;
    if c in tx.got {
      if w.Log(c) == [] {
        assert [] + tx.got[c] == tx.got[c];
      } else {
        JoinConsecutive(w.Log(c), tx.got[c]);
      }
    } else {
      assert w.Log(c) + [] == w.Log(c);
    }
  }

  lemma StartIsGapless(y: System)
    requires Initial(y)
    ensures Gapless(y, y.w.db.seqs)
  {
  }

  // ---------------------------------------------------------------------------- every step

  /** The allocator's tables as committed stay the same. */
  ghost predicate SameTables(w: World, k: World) {
    k.db.seqs == w.db.seqs && k.log == w.log && k.Active() == w.Active() && k.Floor() == w.Floor()
  }

  lemma SameEven(w: World, k: World, seqs: map<Channel, int>, tx: Tx)
    requires SameTables(w, k)
    ensures (forall c :: Even(w, seqs, c)) ==> forall c :: Even(k, seqs, c)
    ensures EvenTx(w, seqs, tx) ==> EvenTx(k, seqs, tx)
  {
    if forall c :: Even(w, seqs, c) {
      forall c ensures Even(k, seqs, c) {
        assert Even(w, seqs, c);
      }
    }
    if EvenTx(w, seqs, tx) && tx.view.Some? && tx.view.value.active {
      forall c ensures EvenClaim(k, seqs, tx, c) {
        assert EvenClaim(w, seqs, tx, c);
      }
    }
  }

  /** Only transaction t changed, and the tables did not. */
  lemma OneTx(y: System, z: System, seqs: map<Channel, int>, t: nat)
    requires Gapless(y, seqs) && SameTables(y.w, z.w)
    requires forall u :: u in z.txs && u != t ==> u in y.txs && z.txs[u] == y.txs[u]
    requires t in z.txs ==> EvenTx(y.w, seqs, z.txs[t])
    ensures Gapless(z, seqs)
  {
    hide Even, EvenTx, SameTables;
    forall u | u in z.txs ensures EvenTx(z.w, seqs, z.txs[u]) {
      SameEven(y.w, z.w, seqs, z.txs[u]);
    }
    SameEven(y.w, z.w, seqs, NEW);
    SameLogs(y.w, z.w);
  }

  lemma SameLogs(w: World, k: World)
    requires SameTables(w, k)
    ensures k.Active() == w.Active() && k.db.seqs == w.db.seqs && forall c :: k.Log(c) == w.Log(c)
  {
  }

  /** A statement that takes nothing of a channel. */
  lemma SameTaken(w: World, seqs: map<Channel, int>, tx: Tx, n: Tx)
    requires EvenTx(w, seqs, tx) && n.got == tx.got && n.held == tx.held
    requires n.view == tx.view || (n.held == map[] && n.got == map[])
    requires tx.phase.Failed? || tx.phase.Present? ==> n.phase == tx.phase
    ensures EvenTx(w, seqs, n)
  {
    if n.view.Some? && n.view.value.active {
      forall c ensures EvenClaim(w, seqs, n, c) {
        assert n.view == tx.view ==> EvenClaim(w, seqs, tx, c);
      }
    }
  }

  lemma SeqTxEven(w: World, seqs: map<Channel, int>, tx: Tx)
    requires GoodWorld(w) && GoodTx(w, tx) && EvenTx(w, seqs, tx) && forall c :: Even(w, seqs, c)
    ensures tx.phase.Absent? ==> EvenTx(w, seqs, AfterInsert(w, tx))
    ensures tx.phase.Present? && tx.view.Some? ==> EvenTx(w, seqs, AfterTake(w, tx))
  {
    if tx.phase.Absent? || tx.phase.Present? {
      hide GoodWorld, GoodTx, Even, EvenClaim;
      assert GoodPhase(w, tx) by { PhaseOf(w, tx); }
      forall c
        ensures tx.phase.Absent? ==> EvenClaim(w, seqs, AfterInsert(w, tx), c)
        ensures tx.phase.Present? && tx.view.Some? ==> EvenClaim(w, seqs, AfterTake(w, tx), c)
      {
        LogOf(w, c);
        assert Even(w, seqs, c) && EvenClaim(w, seqs, tx, c);
        if tx.phase.Absent? {
          InsertClaim(w, seqs, tx, c);
        } else {
          TakeClaim(w, seqs, tx, c);
        }
      }
    }
  }

  lemma PhaseOf(w: World, tx: Tx)
    requires GoodTx(w, tx)
    ensures GoodPhase(w, tx) && GoodView(w, tx)
  {
  }

  lemma LogOf(w: World, c: Channel)
    requires GoodWorld(w)
    ensures GoodLog(w, c)
  {
  }

  /** The transaction that moves stays even. */
  lemma OwnEven(y: System, seqs: map<Channel, int>, ev: Event)
    requires Inv(y) && Gapless(y, seqs) && Enabled(y, ev) && !ev.Commit? && !ev.DoFlip?
    ensures var z := Apply(y, ev); ev.t in z.txs ==> EvenTx(y.w, seqs, z.txs[ev.t])
  {
    if !ev.Begin? && !ev.Rollback? && !ev.Legacy? {
      var w, tx := y.w, y.txs[ev.t];
      assert GoodTx(w, tx);
      PhaseOf(w, tx);
      if ev.Insert? || ev.Take? {
        SeqTxEven(w, seqs, tx);
      } else {
        hide Inv, GoodTx, EvenTx, Even, Resolve, GoodPhase;
        SameTaken(w, seqs, tx, Apply(y, ev).txs[ev.t]);
      }
    } else if ev.Legacy? {
      assert GoodTx(y.w, y.txs[ev.t]);
    }
  }

  lemma OtherTables(y: System, ev: Event)
    requires Inv(y) && Enabled(y, ev) && !ev.Commit? && !ev.DoFlip?
    ensures SameTables(y.w, Apply(y, ev).w)
    ensures forall u :: u in Apply(y, ev).txs && u != ev.t ==> u in y.txs && Apply(y, ev).txs[u] == y.txs[u]
  {
    if ev.Judge? {
      JudgeKeepsTables(y, ev.t);
    } else if !ev.Legacy? {
      WorldUntouched(y, ev);
    }
    hide Inv, AfterRead, AfterInsert, AfterTake, AfterWrite, AfterTouch, AfterJudge;
  }

  /** A commit leaves the others' channels alone. */
  lemma CommitOthers(w: World, seqs: map<Channel, int>, tx: Tx, other: Tx)
    requires tx.got.Keys <= tx.held.Keys && Apart(tx, other) && EvenTx(w, seqs, other)
    ensures EvenTx(Committed(w, tx), seqs, other)
  {
    var k := Committed(w, tx);
    CommittedShape(w, tx);
    if other.view.Some? && other.view.value.active {
      forall c ensures EvenClaim(k, seqs, other, c) {
        assert EvenClaim(w, seqs, other, c);
        if c in other.held {
          CommittedLogIs(w, tx, c);
          assert c !in tx.got;
          assert w.Log(c) + [] == w.Log(c);
          hide Committed;
          SameClaim(w, k, seqs, other, other, c);
        }
      }
    }
  }

  lemma CommitActive(y: System, seqs: map<Channel, int>, t: nat)
    requires Inv(y) && Gapless(y, seqs) && Enabled(y, Commit(t)) && y.w.Active()
    ensures Gapless(Apply(y, Commit(t)), seqs)
  {
    var w, tx := y.w, y.txs[t];
    var k := Committed(w, tx);
    assert GoodTx(w, tx) && EvenTx(w, seqs, tx);
    PhaseOf(w, tx);
    CommittedShape(w, tx);
    hide Inv, GoodTx, Even, Committed, EvenClaim;
    forall c ensures Even(k, seqs, c) && (c in tx.got ==> c in tx.held) {
      assert Even(w, seqs, c) && EvenClaim(w, seqs, tx, c);
      CommitEven(w, seqs, tx, c);
    }
    forall u | u in y.txs && u != t ensures EvenTx(k, seqs, y.txs[u]) {
      ApartIn(y, t, u);
      CommitOthers(w, seqs, tx, y.txs[u]);
    }
    hide EvenTx;
  }

  lemma ApartIn(y: System, t: nat, u: nat)
    requires Inv(y) && t in y.txs && u in y.txs && t != u
    ensures Apart(y.txs[t], y.txs[u])
  {
  }

  /** Before the flip nobody holds a sequence row. */
  lemma CommitInactive(y: System, seqs: map<Channel, int>, t: nat)
    requires Inv(y) && Gapless(y, seqs) && Enabled(y, Commit(t)) && !y.w.Active()
    ensures Gapless(Apply(y, Commit(t)), seqs)
  {
    var w, tx := y.w, y.txs[t];
    var k := Committed(w, tx);
    assert GoodTx(w, tx);
    PhaseOf(w, tx);
    CommittedShape(w, tx);
    assert k.db.seqs == w.db.seqs && k.log == w.log;
    hide Inv, GoodTx, GoodView, GoodPhase, Committed, Even, EvenClaim, EvenTx, Gapless;
    OneTx(y, Apply(y, Commit(t)), seqs, t);
  }

  lemma CommitGapless(y: System, seqs: map<Channel, int>, t: nat)
    requires Inv(y) && Gapless(y, seqs) && Enabled(y, Commit(t))
    ensures Gapless(Apply(y, Commit(t)), seqs)
  {
    hide Inv, Gapless, Enabled, Apply;
    if y.w.Active() {
      CommitActive(y, seqs, t);
    } else {
      CommitInactive(y, seqs, t);
    }
  }

  lemma FlipGapless(y: System, seqs: map<Channel, int>, t: nat, observed: int)
    requires Inv(y) && Gapless(y, seqs) && Enabled(y, DoFlip(t, observed))
    ensures Gapless(Apply(y, DoFlip(t, observed)), seqs)
  {
    var z := Apply(y, DoFlip(t, observed));
    FlipKeepsHistory(y, t, observed);
    forall u | u in z.txs ensures z.txs[u].view.None? {
      assert GoodTx(y.w, y.txs[u]);
      PhaseOf(y.w, y.txs[u]);
    }
    assert z.w.db.seqs == y.w.db.seqs && forall c :: z.w.Log(c) == y.w.Log(c);
    hide Inv;
    if y.w.Active() {
      assert z.w == y.w;
    }
  }

  lemma StepKeepsGapless(y: System, seqs: map<Channel, int>, ev: Event)
    requires Inv(y) && Gapless(y, seqs) && Enabled(y, ev)
    ensures Gapless(Apply(y, ev), seqs)
  {
    hide Inv, Gapless, Apply;
    if ev.Commit? {
      CommitGapless(y, seqs, ev.t);
    } else if ev.DoFlip? {
      FlipGapless(y, seqs, ev.t, ev.observed);
    } else {
      OwnEven(y, seqs, ev);
      OtherTables(y, ev);
      hide Enabled;
      OneTx(y, Apply(y, ev), seqs, ev.t);
    }
  }

  lemma {:induction false} RunKeepsGapless(y: System, seqs: map<Channel, int>, evs: seq<Event>)
    requires Inv(y) && Gapless(y, seqs) && Legal(y, evs)
    ensures Gapless(Exec(y, evs), seqs)
    decreases |evs|
  {
    if evs != [] {
      hide Inv, Gapless, Enabled, Apply;
      StepKeepsInv(y, evs[0]);
      StepKeepsGapless(y, seqs, evs[0]);
      RunKeepsGapless(Apply(y, evs[0]), seqs, evs[1..]);
    }
  }

  /** However writers, rollbacks and refusals interleave, the versions a channel commits are consecutive:
      from one above the floor, or above the row that survived if that is greater, without a gap. */
  lemma VersionsAreConsecutive(y: System, evs: seq<Event>, c: Channel, i: nat)
    requires Initial(y) && Legal(y, evs) && i < |Exec(y, evs).w.Log(c)|
    ensures var w := Exec(y, evs).w;
            var seqs := y.w.db.seqs;
            w.Log(c)[i] == 1 + i + if c in seqs && w.Floor() < seqs[c] then seqs[c] else w.Floor()
  {
    InitialIsGood(y);
    StartIsGapless(y);
    RunKeepsInv(y, evs);
    RunKeepsGapless(y, y.w.db.seqs, evs);
    hide Initial, Legal, Exec, Inv;
    assert Even(Exec(y, evs).w, y.w.db.seqs, c);
  }
}
