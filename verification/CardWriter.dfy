/** The card write path of internal/carddispatch/mutation.go: one compare-and-set transaction, and its
    bounded retry on lock errors. */
module CardWriter {
  import opened Prelude
  import opened VersionStore
  import opened VersionRuns
  import opened VersionTheorems

  const CAS_MAX_ATTEMPTS := 5

  /** What the reads of one attempt report. */
  datatype Snapshot = Snapshot(found: bool, maxExtra: int, legacyMin: int)

  datatype Outcome = Outcome(db: Database, verdict: Result<Verdict, Failure>)

  /** One transaction run on its own. Only an accepted frame changes anything. */
  function CardWrite(db: Database, guard: Guard, m: Msg, frame: Frame, seen: Snapshot, legacy: Result<int, Failure>): Outcome {
    match Resolve(db.state, guard)
    case Err(e) => Outcome(db, Err(e))
    case Ok(st) =>
      var verdict := Gate(StoredFrame(db, m), frame);
      if st.mode == MODE_LEGACY then
        if !verdict.Accept? then Outcome(db, Ok(verdict))
        else if legacy.Err? then Outcome(db, Err(legacy.error))
        else Outcome(db.(rows := db.rows[m := Row(legacy.value, Some(frame))]), Ok(verdict))
      else
        var r := Reserved(db.seqs, m.home, 1, st.floor, seen.found, Baseline(st.floor, seen.maxExtra, seen.legacyMin));
        match r.versions
        case Err(e) => Outcome(db, Err(e))
        case Ok(vs) =>
          if verdict.Accept? then
            Outcome(db.(seqs := r.seqs, rows := db.rows[m := Row(vs[0], Some(frame))]), Ok(Accept))
          else Outcome(db, Ok(verdict))
  }

  /** What one attempt meets: the tables as other writers left them, its own reads, the legacy
      allocator's next values, and the statement that fails, if one does. */
  datatype Attempt = Attempt(before: Database, seen: Snapshot, legacy: seq<Result<int, Failure>>, fault: Option<Fault>)

  /** All or nothing: the transaction as if alone, or a failed statement and no trace. */
  ghost predicate AllOrNothing(o: Outcome, guard: Guard, m: Msg, frame: Frame, a: Attempt)
    requires |a.legacy| > 0
  {
    || o == CardWrite(a.before, guard, m, frame, a.seen, a.legacy[0])
    || (a.fault.Some? && o == Outcome(a.before, Err(StatementFailed(a.fault.value.lock))))
  }

  // -------------------------------------------------------------------- what the caller may rely on

  predicate Transactional(db: Database) {
    db.state.Some? && db.state.value.mode == 1
  }

  /** The message's row shows a frame at or above this one. */
  predicate NotNewer(db: Database, m: Msg, frame: Frame) {
    m in db.rows && db.rows[m].frame.Some? && frame.cardSeq <= db.rows[m].frame.value.cardSeq
  }

  /** An answer and the tables it leaves. A replay means that the row shows exactly this frame, a conflict
      that it shows another one at or above it; only an acceptance changes anything, namely the row and,
      when transactional, its channel's sequence, by the next number. */
  ghost predicate Answers(a: Attempt, m: Msg, frame: Frame, after: Database, r: Result<Verdict, Failure>)
    requires |a.legacy| > 0
  {
    var db := a.before;
    && (r != Ok(Accept) ==> after == db)
    && (r.Ok? ==>
          && (r.value.Replay? <==> m in db.rows && db.rows[m].frame == Some(frame))
          && (r.value.Conflict? <==> NotNewer(db, m, frame) && db.rows[m].frame != Some(frame))
          && (r.value.Accept? <==> !NotNewer(db, m, frame)))
    && (r == Ok(Accept) ==>
          && m in after.rows
          && var version := after.rows[m].version;
             && after == db.(seqs := after.seqs, rows := db.rows[m := Row(version, Some(frame))])
             && if Transactional(db) then
                  && version == Top(db.seqs, m.home, db.state.value.floor, a.seen.maxExtra, a.seen.legacyMin) + 1
                  && after.seqs == db.seqs[m.home := version]
                else
                  a.legacy[0] == Ok(version) && after.seqs == db.seqs)
  }

  /** When there is an answer, if no statement fails: under a matching mode, and with a version left. */
  ghost predicate Answerable(a: Attempt, guard: Guard, m: Msg, frame: Frame)
    requires |a.legacy| > 0
  {
    && Resolve(a.before.state, guard).Ok?
    && if Transactional(a.before) then
         && (a.seen.found ==> m.home in a.before.seqs)
         && Top(a.before.seqs, m.home, a.before.state.value.floor, a.seen.maxExtra, a.seen.legacyMin) < 9_007_199_254_740_991
       else
         NotNewer(a.before, m, frame) || a.legacy[0].Ok?
  }

  lemma WriteAnswers(guard: Guard, m: Msg, frame: Frame, a: Attempt)
    requires |a.legacy| > 0
    ensures var o := CardWrite(a.before, guard, m, frame, a.seen, a.legacy[0]);
            Answers(a, m, frame, o.db, o.verdict) && (o.verdict.Ok? <==> Answerable(a, guard, m, frame))
  {
    ModeRead(a.before.state, guard);
    if Resolve(a.before.state, guard).Ok? && Transactional(a.before) && (a.seen.found ==> m.home in a.before.seqs) {
      ReservationGrants(a.before.seqs, m.home, 1, a.before.state.value.floor, a.seen.found, a.seen.maxExtra, a.seen.legacyMin);
    }
    hide Resolve;
  }

  lemma AttemptAnswers(db: Database, r: Result<Verdict, Failure>, guard: Guard, m: Msg, frame: Frame, a: Attempt)
    requires |a.legacy| > 0 && AllOrNothing(Outcome(db, r), guard, m, frame, a)
    ensures Answers(a, m, frame, db, r)
  {
    WriteAnswers(guard, m, frame, a);
    hide CardWrite;
  }

  class Backend {
    const guard: Guard
    var db: Database

    constructor (guard: Guard, db: Database)
      ensures this.guard == guard && this.db == db
    {
      this.guard, this.db := guard, db;
    }

    method CasGate(m: Msg, frame: Frame, fault: Option<Fault>) returns (r: Result<Verdict, Failure>)
      ensures r == if fault.Some? && fault.value.at.LockMessage? then Err(StatementFailed(fault.value.lock))
                   else Ok(Gate(StoredFrame(db, m), frame))
    {
      if fault.Some? && fault.value.at.LockMessage? {
        return Err(StatementFailed(fault.value.lock));
      }
      return Ok(Gate(StoredFrame(db, m), frame));
    }

    /** casWriteOnce: the channel sequence before the message row when transactional, after it when
        legacy; everything but an accepted and committed frame rolls back. */
    method CasWriteOnce(m: Msg, frame: Frame, a: Attempt) returns (r: Result<Verdict, Failure>)
      requires MAX_RESERVE_COUNT <= |a.legacy| && db == a.before
      modifies this
      ensures AllOrNothing(Outcome(db, r), guard, m, frame, a)
      ensures a.fault.None? ==> Outcome(db, r) == CardWrite(a.before, guard, m, frame, a.seen, a.legacy[0])
      ensures Answers(a, m, frame, db, r) && (a.fault.None? ==> (r.Ok? <==> Answerable(a, guard, m, frame)))
      ensures r.Ok? && a.fault.Some? ==> a.fault.value.at !in {ReadMode, LockMessage}
      ensures r == Ok(Accept) && a.fault.Some? ==> a.fault.value.at !in {WriteMessage, CommitAll}
      ensures r.Ok? && a.fault.Some? && Transactional(a.before) ==>
                a.fault.value.at in {LockMessage, WriteMessage, CommitAll} || (a.seen.found && a.fault.value.at in {ReadPast, InsertRow})
    {
      WriteAnswers(guard, m, frame, a);
      hide Answers, Answerable;
      var tx := new Session(db.state, guard, db.seqs, a.legacy, a.fault);
      if tx.Fails(ReadMode) {
        return Err(StatementFailed(a.fault.value.lock));
      }
      var mode := Resolve(db.state, guard);
      if mode.Err? {
        return Err(mode.error);
      }
      var versions;
      if mode.value.mode == MODE_TRANSACTIONAL {
        versions := tx.ReserveTx(m.home, 1, a.seen.found, a.seen.maxExtra, a.seen.legacyMin);
        if versions.Err? {
          return Err(versions.error);
        }
        r := CasGate(m, frame, a.fault);
        if r != Ok(Accept) {
          return;
        }
      } else {
        r := CasGate(m, frame, a.fault);
        if r != Ok(Accept) {
          return;
        }
        versions := tx.ReserveTx(m.home, 1, a.seen.found, a.seen.maxExtra, a.seen.legacyMin);
        if versions.Err? {
          return Err(versions.error);
        }
      }
      if tx.Fails(WriteMessage) || tx.Fails(CommitAll) {
        return Err(StatementFailed(a.fault.value.lock));
      }
      db := db.(seqs := tx.seqs, rows := db.rows[m := Row(versions.value[0], Some(frame))]);
      return Ok(Accept);
    }

    /** CASWrite: whole-transaction retries on lock errors, at most five attempts, with other writers'
        commits in between. Every attempt but the last met a lock error and left no trace; the last one
        is all or nothing on the tables as it found them, and no lock error ends the loop early. */
    method CASWrite(m: Msg, frame: Frame, tries: seq<Attempt>) returns (r: Result<Verdict, Failure>, attempts: nat)
      requires |tries| == CAS_MAX_ATTEMPTS && forall i :: 0 <= i < |tries| ==> MAX_RESERVE_COUNT <= |tries[i].legacy|
      modifies this
      ensures 1 <= attempts <= 5
      ensures AllOrNothing(Outcome(db, r), guard, m, frame, tries[attempts - 1])
      ensures Answers(tries[attempts - 1], m, frame, db, r)
      ensures r == Err(StatementFailed(true)) ==> attempts == 5
      ensures forall i :: 0 <= i < attempts - 1 ==>
                AllOrNothing(Outcome(tries[i].before, Err(StatementFailed(true))), guard, m, frame, tries[i])
    {
      r, attempts := Err(StatementFailed(true)), 0;
      while attempts < CAS_MAX_ATTEMPTS && r == Err(StatementFailed(true))
        invariant attempts <= CAS_MAX_ATTEMPTS && (attempts == 0 ==> r == Err(StatementFailed(true)))
        invariant attempts > 0 ==> AllOrNothing(Outcome(db, r), guard, m, frame, tries[attempts - 1])
        invariant forall i :: 0 <= i < attempts - 1 ==>
                    AllOrNothing(Outcome(tries[i].before, Err(StatementFailed(true))), guard, m, frame, tries[i])
      {
        db := tries[attempts].before;
        r := CasWriteOnce(m, frame, tries[attempts]);
        attempts := attempts + 1;
      }
      AttemptAnswers(db, r, guard, m, frame, tries[attempts - 1]);
    }
  }

  /** The same frame written again is answered as a replay and leaves the tables alone, unless the channel
      has meanwhile run out of versions. */
  lemma RewriteIsReplay(guard: Guard, m: Msg, frame: Frame, a: Attempt, b: Attempt)
    requires |a.legacy| > 0 && |b.legacy| > 0
    requires var o := CardWrite(a.before, guard, m, frame, a.seen, a.legacy[0]);
             o.verdict == Ok(Accept) && b.before == o.db && (b.seen.found ==> m.home in b.before.seqs)
    ensures var o := CardWrite(b.before, guard, m, frame, b.seen, b.legacy[0]);
            && o.db == b.before
            && (o.verdict == Ok(Replay) || (Transactional(b.before) && o.verdict == Err(Overflow)))
  {
    WriteAnswers(guard, m, frame, a);
    WriteAnswers(guard, m, frame, b);
    if Transactional(b.before) {
      ReservationGrants(b.before.seqs, m.home, 1, b.before.state.value.floor, b.seen.found, b.seen.maxExtra, b.seen.legacyMin);
    }
  }

  /** Conflicts, replays and errors consume no version and touch no row; an acceptance raises exactly the
      message's own channel, by one version, above everything issued there. */
  lemma OnlyAcceptedFramesWrite(db: Database, guard: Guard, m: Msg, frame: Frame, seen: Snapshot, legacy: Result<int, Failure>)
    ensures var o := CardWrite(db, guard, m, frame, seen, legacy);
            && (o.verdict != Ok(Accept) ==> o.db == db)
            && (o.verdict == Ok(Accept) ==>
                  && StoredFrame(o.db, m) == Some(frame)
                  && (StoredFrame(db, m).Some? ==> StoredFrame(db, m).value.cardSeq < frame.cardSeq)
                  && (forall x :: x != m ==> (x in o.db.rows <==> x in db.rows) && StoredFrame(o.db, x) == StoredFrame(db, x))
                  && (forall c :: c != m.home && c in db.seqs ==> c in o.db.seqs && o.db.seqs[c] == db.seqs[c])
                  && (o.db.seqs != db.seqs ==>
                        m.home in o.db.seqs && o.db.seqs[m.home] == o.db.rows[m].version
                        && (m.home in db.seqs ==> db.seqs[m.home] < o.db.rows[m].version)))
  {
    match Resolve(db.state, guard)
    case Err(_) =>
    case Ok(st) =>
      ReservedIsFresh(db.seqs, m.home, 1, st.floor, seen.found, Baseline(st.floor, seen.maxExtra, seen.legacyMin));
  }

  // ------------------------------------------------- the method as a run of the interleaved system

  ghost predicate Runs(y: System, evs: seq<Event>, z: System) {
    Legal(y, evs) && Exec(y, evs) == z
  }

  lemma {:induction false} Then(y: System, evs: seq<Event>, z: System, ev: Event)
    requires Runs(y, evs, z) && Enabled(z, ev)
    ensures Runs(y, evs + [ev], Apply(z, ev))
    decreases |evs|
  {
    hide Apply;
    if evs == [] {
      assert evs + [ev] == [ev] && [ev][1..] == [];
      assert Legal(Apply(y, ev), []) && Exec(Apply(y, ev), []) == Apply(y, ev);
    } else {
      assert (evs + [ev])[1..] == evs[1..] + [ev];
      Then(Apply(y, evs[0]), evs[1..], z, ev);
    }
  }

  lemma Step(y: System, evs: seq<Event>, z: System, ev: Event) returns (n: System, more: seq<Event>)
    requires Runs(y, evs, z) && Enabled(z, ev)
    ensures n == Apply(z, ev) && more == evs + [ev] && Runs(y, more, n)
  {
    Then(y, evs, z, ev);
    n, more := Apply(z, ev), evs + [ev];
  }

  /** Only transaction t is open. */
  ghost predicate Alone(z: System, w: World, t: nat, tx: Tx) {
    z.w == w && z.txs == map[t := tx]
  }

  /** Up to the mode read. */
  lemma Opened(y: System, t: nat, guard: Guard) returns (z: System, evs: seq<Event>, tx: Tx)
    requires y.txs == map[] && Resolve(y.w.db.state, guard).Ok? && y.w.Active()
    ensures Runs(y, evs, z) && Alone(z, y.w, t, tx)
    ensures tx == NEW.(phase := Settled, ticket := tx.ticket, shared := true, view := Some(View(true, y.w.Floor())))
  {
    hide Runs;
    assert Runs(y, [], y) by { Nothing(y); }
    z, evs := Step(y, [], y, Begin(t));
    z, evs := Step(y, evs, z, AskState(t));
    z, evs := Step(y, evs, z, ReadState(t, guard));
    tx := z.txs[t];
  }

  lemma Nothing(y: System)
    ensures Runs(y, [], y)
  {
  }

  function Base(w: World, seen: Snapshot): int {
    Baseline(w.Floor(), seen.maxExtra, seen.legacyMin)
  }

  /** Up to the locked sequence row, inserted first when the existence read missed it. */
  lemma Located(y: System, prefix: seq<Event>, x: System, t: nat, ready: Tx, c: Channel, seen: Snapshot)
    returns (z: System, evs: seq<Event>, tx: Tx)
    requires Runs(y, prefix, x) && Alone(x, y.w, t, ready) && ready.Works(true)
    requires ready.held == map[] && ready.view.value.floor == y.w.Floor()
    requires (seen.found ==> c in y.w.db.seqs) && Attested(y.w, c, seen.maxExtra) && Attested(y.w, c, seen.legacyMin)
    ensures Runs(y, evs, z) && Alone(z, y.w, t, tx)
    ensures tx == ready.(phase := Present(c, 1), ticket := tx.ticket,
                         held := if seen.found then map[] else map[c := Materialized(y.w.db.seqs, c, Base(y.w, seen))[c]])
  {
    hide Runs, Attested;
    z, evs := Step(y, prefix, x, Look(t, c, 1, seen.found, seen.maxExtra, seen.legacyMin));
    tx := z.txs[t];
    if !seen.found {
      assert Visible(y.w, tx) == y.w.db.seqs;
      z, evs := Step(y, evs, z, Insert(t));
      tx := z.txs[t];
    }
  }

  lemma TakenAlone(w: World, ready: Tx, tx: Tx, c: Channel, seen: Snapshot)
    requires ready.Works(true) && ready.held == map[] && ready.got == map[] && ready.view.value.floor == w.Floor()
    requires tx == ready.(phase := Present(c, 1), ticket := tx.ticket,
                          held := if seen.found then map[] else map[c := Materialized(w.db.seqs, c, Base(w, seen))[c]])
    requires Reserved(w.db.seqs, c, 1, w.Floor(), seen.found, Base(w, seen)).versions.Ok?
    ensures var r := Reserved(w.db.seqs, c, 1, w.Floor(), seen.found, Base(w, seen));
            && AfterTake(w, tx) == ready.(ticket := tx.ticket, held := map[c := r.seqs[c]], got := map[c := r.versions.value])
            && r.seqs == w.db.seqs + map[c := r.seqs[c]] && |r.versions.value| == 1
  {
    var start := if seen.found then w.db.seqs else Materialized(w.db.seqs, c, Base(w, seen));
    assert Visible(w, tx) == start;
    var vs := Range(Max(start[c], w.Floor()), 1);
    assert [] + vs == vs;
  }

  /** The reservation of one version. */
  lemma ReservedAlone(y: System, prefix: seq<Event>, x: System, t: nat, ready: Tx, c: Channel, seen: Snapshot)
    returns (z: System, evs: seq<Event>, tx: Tx)
    requires Runs(y, prefix, x) && Alone(x, y.w, t, ready) && ready.Works(true)
    requires ready.held == map[] && ready.got == map[] && ready.view.value.floor == y.w.Floor()
    requires (seen.found ==> c in y.w.db.seqs) && Attested(y.w, c, seen.maxExtra) && Attested(y.w, c, seen.legacyMin)
    requires Reserved(y.w.db.seqs, c, 1, y.w.Floor(), seen.found, Base(y.w, seen)).versions.Ok?
    ensures Runs(y, evs, z) && Alone(z, y.w, t, tx)
    ensures var r := Reserved(y.w.db.seqs, c, 1, y.w.Floor(), seen.found, Base(y.w, seen));
            && tx == ready.(ticket := tx.ticket, held := map[c := r.seqs[c]], got := map[c := r.versions.value])
            && r.seqs == y.w.db.seqs + tx.held && |r.versions.value| == 1
  {
    hide Runs, Attested, Reserved, Materialized, AfterTake, Base;
    z, evs, tx := Located(y, prefix, x, t, ready, c, seen);
    TakenAlone(y.w, ready, tx, c, seen);
    z, evs := Step(y, evs, z, Take(t));
    tx := z.txs[t];
  }

  /** The gate, and then the write and commit or the rollback. */
  lemma JudgedAlone(y: System, prefix: seq<Event>, x: System, t: nat, ready: Tx, m: Msg, frame: Frame)
    returns (z: System, evs: seq<Event>)
    requires Runs(y, prefix, x) && Alone(x, y.w, t, ready) && ready.Works(true) && frame.cardSeq > 0
    requires ready.writes == map[] && ready.got.Keys == {m.home} && |ready.got[m.home]| == 1
    ensures Runs(y, evs, z) && z.txs == map[]
    ensures z.w.db == if Gate(StoredFrame(y.w.db, m), frame).Accept?
                      then y.w.db.(seqs := y.w.db.seqs + ready.held,
                                   rows := y.w.db.rows[m := Row(ready.got[m.home][0], Some(frame))])
                      else y.w.db
  {
    hide Runs;
    z, evs := Step(y, prefix, x, OpenGate(t, m, frame));
    z, evs := Step(y, evs, z, Judge(t));
    if Gate(StoredFrame(y.w.db, m), frame).Accept? {
      z, evs := Step(y, evs, z, Write(t));
      var row := Row(ready.got[m.home][0], Some(frame));
      assert y.w.db.rows + map[m := row] == y.w.db.rows[m := row];
      z, evs := Step(y, evs, z, Commit(t));
    } else {
      z, evs := Step(y, evs, z, Rollback(t));
    }
  }

  /** The straight-line method is one run of the interleaved system with nobody else in it. */
  lemma CardWriteIsARun(y: System, t: nat, guard: Guard, m: Msg, frame: Frame, seen: Snapshot, legacy: Result<int, Failure>)
    returns (z: System, evs: seq<Event>)
    requires y.txs == map[] && y.w.Active() && frame.cardSeq > 0
    requires (seen.found ==> m.home in y.w.db.seqs)
             && Attested(y.w, m.home, seen.maxExtra) && Attested(y.w, m.home, seen.legacyMin)
    requires CardWrite(y.w.db, guard, m, frame, seen, legacy).verdict.Ok?
    ensures Legal(y, evs) && Exec(y, evs) == z && z.txs == map[]
    ensures z.w.db == CardWrite(y.w.db, guard, m, frame, seen, legacy).db
  {
    hide Attested, Legal, Exec, Reserved;
    var tx;
    z, evs, tx := Opened(y, t, guard);
    var r := Reserved(y.w.db.seqs, m.home, 1, y.w.Floor(), seen.found, Base(y.w, seen));
    z, evs, tx := ReservedAlone(y, evs, z, t, tx, m.home, seen);
    z, evs := JudgedAlone(y, evs, z, t, tx, m, frame);
  }
}
