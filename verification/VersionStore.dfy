/** internal/msgextraseq: the message_extra version allocator of one caller's transaction, and the
    one-way cutover from the legacy allocator. */
module VersionStore {
  import opened Prelude

  const MODE_LEGACY := 0
  const MODE_TRANSACTIONAL := 1
  const MAX_RESERVE_COUNT := 1000
  /** 2^53 - 1. */
  const MAX_SAFE_INTEGER := 9_007_199_254_740_991
  const MAX_CUTOVER_FLOOR := MAX_SAFE_INTEGER - MAX_RESERVE_COUNT

  datatype Channel = Channel(id: string, kind: int)

  datatype StateRow = StateRow(mode: int, epoch: nat, floor: int)

  datatype Guard = Unset | Malformed | Expects(mode: int)

  datatype Failure =
    | InvalidCount | Overflow | UnknownMode | ExpectedModeMismatch | InvariantViolation
    | StateRowMissing | FloorTooLow(observed: int) | FloorTooHigh
    | StatementFailed(lock: bool)

  function Max(a: int, b: int): (m: int)
    ensures a <= m && b <= m && (m == a || m == b)
  {
    if a < b then b else a
  }

  // ------------------------------------------------------------------------------ reading the mode

  /** readStateForShare: a missing row reads as legacy, and the deployment guard is checked last. */
  function Resolve(row: Option<StateRow>, guard: Guard): Result<StateRow, Failure> {
    if row.Some? && row.value.mode != MODE_LEGACY && row.value.mode != MODE_TRANSACTIONAL then Err(UnknownMode)
    else
      var state := if row.Some? then row.value else StateRow(MODE_LEGACY, 0, 0);
      match guard
      case Unset => Ok(state)
      case Malformed => Err(ExpectedModeMismatch)
      case Expects(mode) => if state.mode == mode then Ok(state) else Err(ExpectedModeMismatch)
  }

  /** The guard closes the hole a lost state row would open: a deployment that expects the
      transactional allocator never resolves to the legacy one. */
  lemma GuardStopsDowngrade(row: Option<StateRow>)
    ensures var r := Resolve(row, Expects(MODE_TRANSACTIONAL));
            r.Ok? <==> row.Some? && row.value.mode == MODE_TRANSACTIONAL
    ensures Resolve(row, Malformed).Err?
  {
  }

  /** The read answers the row as it is, or the legacy mode for a missing row, and refuses exactly an
      unknown mode, a malformed guard, and a mode other than the expected one. */
  lemma ModeRead(row: Option<StateRow>, guard: Guard)
    ensures var mode := if row.Some? then row.value.mode else 0;
            Resolve(row, guard).Ok? <==> (mode == 0 || mode == 1) && guard != Malformed && (guard.Expects? ==> guard.mode == mode)
    ensures var r := Resolve(row, guard);
            r.Ok? ==> if row.Some? then r.value == row.value else r.value == StateRow(0, 0, 0)
    ensures var r := Resolve(row, guard);
            r.Err? ==> r.error == if row.Some? && row.value.mode !in {0, 1} then UnknownMode else ExpectedModeMismatch
  {
  }

  // ---------------------------------------------------------------------------------- reservations

  /** count versions directly above cur. */
  function Range(cur: int, count: nat): seq<int> {
    seq(count, i => cur + i + 1)
  }

  /** The floor raise and the overflow guard. */
  function Advance(current: int, floor: int, count: nat): Result<int, Failure> {
    var cur := Max(current, floor);
    if cur > MAX_SAFE_INTEGER - count then Err(Overflow) else Ok(cur)
  }

  function Baseline(floor: int, maxExtra: int, legacyMin: int): int {
    Max(Max(floor, maxExtra), legacyMin)
  }

  /** The race-safe upsert: an existing row keeps its value. */
  function Materialized(seqs: map<Channel, int>, c: Channel, baseline: int): map<Channel, int> {
    if c in seqs then seqs else seqs[c := baseline]
  }

  datatype Reservation = Reservation(seqs: map<Channel, int>, versions: Result<seq<int>, Failure>)

  /** From the locked sequence row on. */
  function Taken(seqs: map<Channel, int>, c: Channel, count: nat, floor: int): Reservation {
    if c !in seqs then Reservation(seqs, Err(InvariantViolation))
    else
      match Advance(seqs[c], floor, count)
      case Err(e) => Reservation(seqs, Err(e))
      case Ok(cur) => Reservation(seqs[c := cur + count], Ok(Range(cur, count)))
  }

  /** reserveTransactional: what a possibly stale existence read leads to. */
  function Reserved(seqs: map<Channel, int>, c: Channel, count: nat, floor: int, found: bool, baseline: int): Reservation {
    Taken(if found then seqs else Materialized(seqs, c, baseline), c, count, floor)
  }

  /** A reservation is count consecutive versions above both the old row and the floor, ending at the
      new row and within the exact range of a double; a refused one changes no existing row. */
  lemma ReservedIsFresh(seqs: map<Channel, int>, c: Channel, count: nat, floor: int, found: bool, baseline: int)
    requires 1 <= count
    ensures var r := Reserved(seqs, c, count, floor, found, baseline);
            && (forall x :: x in seqs && (x != c || r.versions.Err?) ==> x in r.seqs && r.seqs[x] == seqs[x])
            && match r.versions
               case Err(_) => true
               case Ok(vs) =>
                 && |vs| == count && c in r.seqs && r.seqs[c] == vs[count - 1] <= MAX_SAFE_INTEGER
                 && (forall i :: 0 <= i < count ==> vs[i] == vs[0] + i && floor < vs[i])
                 && (c in seqs ==> seqs[c] < vs[0])
  {
  }

  /** Where a reservation of count versions above top leads: exactly the next count numbers and the row
      at the last of them, or Overflow beyond 2^53 - 1. */
  ghost predicate Grants(seqs: map<Channel, int>, after: map<Channel, int>, r: Result<seq<int>, Failure>,
                         c: Channel, count: nat, top: int) {
    if top + count <= 9_007_199_254_740_991 then
      && r.Ok? && |r.value| == count && (forall i :: 0 <= i < count ==> r.value[i] == top + 1 + i)
      && after == seqs[c := top + count]
    else
      r == Err(Overflow) && after == if c in seqs then seqs else seqs[c := top]
  }

  /** The greatest number that is taken: by the row if there is one, otherwise by what the reads of the
      past showed, and in any case by the floor. */
  ghost function Top(seqs: map<Channel, int>, c: Channel, floor: int, maxExtra: int, legacyMin: int): (top: int)
    ensures floor <= top
    ensures c in seqs ==> seqs[c] <= top && (top == floor || top == seqs[c])
    ensures c !in seqs ==> maxExtra <= top && legacyMin <= top && (top == floor || top == maxExtra || top == legacyMin)
  {
    Max(floor, if c in seqs then seqs[c] else Max(maxExtra, legacyMin))
  }

  /** With every statement succeeding, a reservation is granted if and only if it fits. */
  lemma ReservationGrants(seqs: map<Channel, int>, c: Channel, count: nat, floor: int, found: bool, maxExtra: int, legacyMin: int)
    requires found ==> c in seqs
    ensures var r := Reserved(seqs, c, count, floor, found, Baseline(floor, maxExtra, legacyMin));
            Grants(seqs, r.seqs, r.versions, c, count, Top(seqs, c, floor, maxExtra, legacyMin))
  {
  }

  /** The statements of one reservation, and of the card write around it. */
  datatype Stage = ReadMode | FindRow | ReadPast | InsertRow | LockRow | UpdateRow | LockMessage | WriteMessage | CommitAll

  /** One statement fails, of a lock error or of something else. */
  datatype Fault = Fault(at: Stage, lock: bool)

  /** The sequence rows and the answer of a reservation in which a statement may fail: what was executed
      before it stays, for the caller's rollback to undo. */
  function Interrupted(seqs: map<Channel, int>, c: Channel, count: nat, floor: int, found: bool, baseline: int,
                       fault: Option<Fault>): Reservation {
    var start := if found then seqs else Materialized(seqs, c, baseline);
    var whole := Reserved(seqs, c, count, floor, found, baseline);
    if fault.None? then whole
    else
      var failure := Err(StatementFailed(fault.value.lock));
      match fault.value.at
      case FindRow => Reservation(seqs, failure)
      case ReadPast => if found then whole else Reservation(seqs, failure)
      case InsertRow => if found then whole else Reservation(seqs, failure)
      case LockRow => Reservation(start, failure)
      case UpdateRow => if whole.versions.Ok? then Reservation(start, failure) else whole
      case _ => whole
  }

  /** A failed statement never lets a version out, nor touches an existing row. */
  lemma InterruptedIsSafe(seqs: map<Channel, int>, c: Channel, count: nat, floor: int, found: bool, baseline: int, fault: Option<Fault>)
    ensures var r := Interrupted(seqs, c, count, floor, found, baseline, fault);
            && (r.versions.Ok? ==> r == Reserved(seqs, c, count, floor, found, baseline))
            && (r.versions.Err? ==> forall x :: x in seqs ==> x in r.seqs && r.seqs[x] == seqs[x])
  {
  }

  /** The tables as the caller's transaction sees them: its own uncommitted rows over the committed
      ones, with every lock the code takes already granted. */
  class Session {
    var state: Option<StateRow>
    const guard: Guard
    var seqs: map<Channel, int>
    /** What the legacy allocator's next calls return, in order. */
    var legacy: seq<Result<int, Failure>>
    /** The statement that fails, if one does. */
    const fault: Option<Fault>

    constructor (state: Option<StateRow>, guard: Guard, seqs: map<Channel, int>, legacy: seq<Result<int, Failure>>, fault: Option<Fault>)
      ensures this.state == state && this.guard == guard && this.seqs == seqs && this.legacy == legacy && this.fault == fault
    {
      this.state, this.guard, this.seqs, this.legacy, this.fault := state, guard, seqs, legacy, fault;
    }

    predicate Fails(at: Stage) {
      fault.Some? && fault.value.at == at
    }

    method ComputeBootstrap(floor: int, maxExtra: int, legacyMin: int) returns (r: Result<int, Failure>)
      ensures r.Err? <==> Fails(ReadPast)
      ensures r.Err? ==> r == Err(StatementFailed(fault.value.lock))
      ensures r.Ok? ==> floor <= r.value && maxExtra <= r.value && legacyMin <= r.value
      ensures r.Ok? ==> r.value in {floor, maxExtra, legacyMin} && r.value == Baseline(floor, maxExtra, legacyMin)
    {
      if Fails(ReadPast) {
        return Err(StatementFailed(fault.value.lock));
      }
      var baseline := floor;
      if maxExtra > baseline {
        baseline := maxExtra;
      }
      if legacyMin > baseline {
        baseline := legacyMin;
      }
      return Ok(baseline);
    }

    method LockSequenceRow(c: Channel, floor: int, found: bool, maxExtra: int, legacyMin: int)
      returns (r: Result<int, Failure>)
      modifies this`seqs
      ensures var start := if found then old(seqs) else Materialized(old(seqs), c, Baseline(floor, maxExtra, legacyMin));
              if Fails(FindRow) || (!found && (Fails(ReadPast) || Fails(InsertRow))) then
                r == Err(StatementFailed(fault.value.lock)) && seqs == old(seqs)
              else
                && seqs == start
                && r == if Fails(LockRow) then Err(StatementFailed(fault.value.lock))
                        else if c in start then Ok(start[c]) else Err(InvariantViolation)
    {
      if Fails(FindRow) {
        return Err(StatementFailed(fault.value.lock));
      }
      if !found {
        var baseline := ComputeBootstrap(floor, maxExtra, legacyMin);
        if baseline.Err? {
          return baseline;
        }
        if Fails(InsertRow) {
          return Err(StatementFailed(fault.value.lock));
        }
        if c !in seqs {
          seqs := seqs[c := baseline.value];
        }
      }
      if Fails(LockRow) {
        return Err(StatementFailed(fault.value.lock));
      }
      if c !in seqs {
        return Err(InvariantViolation);
      }
      return Ok(seqs[c]);
    }

    method ReserveTransactional(c: Channel, count: nat, floor: int, found: bool, maxExtra: int, legacyMin: int)
      returns (r: Result<seq<int>, Failure>)
      modifies this`seqs
      ensures Reservation(seqs, r)
           == Interrupted(old(seqs), c, count, floor, found, Baseline(floor, maxExtra, legacyMin), fault)
      ensures fault.None? && (found ==> c in old(seqs)) ==>
                Grants(old(seqs), seqs, r, c, count, Top(old(seqs), c, floor, maxExtra, legacyMin))
      ensures fault.None? && found && c !in old(seqs) ==> r == Err(InvariantViolation) && seqs == old(seqs)
    {
      if found ==> c in seqs {
        ReservationGrants(seqs, c, count, floor, found, maxExtra, legacyMin);
      }
      var locked := LockSequenceRow(c, floor, found, maxExtra, legacyMin);
      if locked.Err? {
        return Err(locked.error);
      }
      var cur := locked.value;
      if cur < floor {
        cur := floor;
      }
      if cur > MAX_SAFE_INTEGER - count {
        return Err(Overflow);
      }
      assert Advance(locked.value, floor, count) == Ok(cur);
      if Fails(UpdateRow) {
        return Err(StatementFailed(fault.value.lock));
      }
      ghost var next := seqs[c := cur + count];
      seqs := seqs[c := cur + count];
      var versions := new int[count];
      for i := 0 to count
        invariant seqs == next
        invariant forall j :: 0 <= j < i ==> versions[j] == cur + j + 1
      {
        versions[i] := cur + i + 1;
      }
      assert forall j :: 0 <= j < count ==> versions[..][j] == Range(cur, count)[j];
      assert versions[..] == Range(cur, count);
      var all := versions[..];
      return Ok(all);
    }

    /** One GenSeq call per version; the first that fails ends it, and the values drawn are lost. */
    method ReserveLegacy(count: nat) returns (r: Result<seq<int>, Failure>)
      requires count <= |legacy|
      modifies this`legacy
      ensures r.Ok? ==> |r.value| == count && legacy == old(legacy)[count..]
                        && forall i :: 0 <= i < count ==> old(legacy)[i] == Ok(r.value[i])
      ensures r.Err? ==> exists k :: 0 <= k < count && old(legacy)[k] == Err(r.error) && legacy == old(legacy)[k + 1..]
                                     && forall i :: 0 <= i < k ==> old(legacy)[i].Ok?
    {
      var versions := [];
      for i := 0 to count
        invariant |versions| == i && legacy == old(legacy)[i..]
        invariant forall j :: 0 <= j < i ==> old(legacy)[j] == Ok(versions[j])
      {
        var v := legacy[0];
        assert v == old(legacy)[i];
        legacy := legacy[1..];
        if v.Err? {
          return Err(v.error);
        }
        versions := versions + [v.value];
      }
      return Ok(versions);
    }

    /** Exactly count versions in either mode; every refusal leaves existing rows alone. */
    method ReserveTx(c: Channel, count: int, found: bool, maxExtra: int, legacyMin: int)
      returns (r: Result<seq<int>, Failure>)
      requires MAX_RESERVE_COUNT <= |legacy|
      modifies this`seqs, this`legacy
      ensures r.Ok? ==> 1 <= count <= MAX_RESERVE_COUNT && |r.value| == count
      ensures count <= 0 || count > MAX_RESERVE_COUNT ==> r == Err(InvalidCount) && seqs == old(seqs) && legacy == old(legacy)
      ensures 1 <= count <= MAX_RESERVE_COUNT && Fails(ReadMode) ==>
                r == Err(StatementFailed(fault.value.lock)) && seqs == old(seqs) && legacy == old(legacy)
      ensures 1 <= count <= MAX_RESERVE_COUNT && !Fails(ReadMode) ==>
                match Resolve(state, guard)
                case Err(e) => r == Err(e) && seqs == old(seqs) && legacy == old(legacy)
                case Ok(st) =>
                  if st.mode == MODE_LEGACY then
                    && seqs == old(seqs)
                    && (r.Ok? <==> forall i :: 0 <= i < count ==> old(legacy)[i].Ok?)
                    && (r.Ok? ==> legacy == old(legacy)[count..] && forall i :: 0 <= i < count ==> old(legacy)[i] == Ok(r.value[i]))
                    && (r.Err? ==> exists k :: 0 <= k < count && old(legacy)[k] == Err(r.error) && legacy == old(legacy)[k + 1..]
                                               && forall i :: 0 <= i < k ==> old(legacy)[i].Ok?)
                  else
                    && Reservation(seqs, r)
                         == Interrupted(old(seqs), c, count, st.floor, found, Baseline(st.floor, maxExtra, legacyMin), fault)
                    && legacy == old(legacy)
                    && (r.Ok? ==> fault.None? || fault.value.at in {LockMessage, WriteMessage, CommitAll}
                                  || (found && fault.value.at in {ReadPast, InsertRow}))
                    && (fault.None? && (found ==> c in old(seqs)) ==>
                          Grants(old(seqs), seqs, r, c, count, Top(old(seqs), c, st.floor, maxExtra, legacyMin)))
    {
      if count <= 0 || count > MAX_RESERVE_COUNT {
        return Err(InvalidCount);
      }
      if Fails(ReadMode) {
        return Err(StatementFailed(fault.value.lock));
      }
      var st := Resolve(state, guard);
      if st.Err? {
        return Err(st.error);
      }
      if st.value.mode == MODE_LEGACY {
        r := ReserveLegacy(count);
        return;
      }
      r := ReserveTransactional(c, count, st.value.floor, found, maxExtra, legacyMin);
      InterruptedIsSafe(old(seqs), c, count, st.value.floor, found, Baseline(st.value.floor, maxExtra, legacyMin), fault);
    }
  }

  // ------------------------------------------------------------------------------------- the flip

  datatype FlipResult = Flipped(row: StateRow) | AlreadyActive | Refused(why: Failure)

  /** cutover.Flip once the state row is locked; observed is the maximum recomputed under the lock. */
  function Flip(row: Option<StateRow>, floor: int, observed: int): FlipResult {
    if row.None? then Refused(StateRowMissing)
    else if row.value.mode == MODE_TRANSACTIONAL then AlreadyActive
    else if row.value.mode != MODE_LEGACY then Refused(UnknownMode)
    else if floor < observed then Refused(FloorTooLow(observed))
    else if floor > MAX_CUTOVER_FLOOR then Refused(FloorTooHigh)
    else Flipped(StateRow(MODE_TRANSACTIONAL, row.value.epoch + 1, floor))
  }

  /** The greatest of the values, 0 for none. */
  ghost predicate IsMaximum(values: seq<int>, m: int) {
    && (forall v :: v in values ==> v <= m)
    && (m in values || (values == [] && m == 0))
  }

  /** COALESCE(MAX(...), 0) over a column. */
  method MaxOf(values: seq<int>) returns (m: int)
    ensures IsMaximum(values, m)
  {
    m := 0;
    for i := 0 to |values|
      invariant IsMaximum(values[..i], m)
    {
      assert values[..i + 1] == values[..i] + [values[i]];
      if i == 0 || values[i] > m {
        m := values[i];
      }
    }
    assert values[..|values|] == values;
  }

  /** The three sources: message_extra.version, the legacy block boundaries, cached sync cursors. */
  datatype Evidence = Evidence(versions: seq<nat>, boundaries: seq<nat>, cursors: seq<int>)

  /** The running maxima of Preflight and observeUnderDrainBarrier. A cursor counts only within the
      issued ceiling, so the cursors never move the result. */
  method ObservedMaximum(e: Evidence) returns (observed: int)
    ensures IsMaximum(e.versions + e.boundaries, observed)
  {
    var maxVersion := MaxOf(e.versions);
    var maxSeq := MaxOf(e.boundaries);
    observed := maxVersion;
    if maxSeq > observed {
      observed := maxSeq;
    }
    var maxCursor := 0;
    for i := 0 to |e.cursors|
      invariant 0 <= maxCursor <= observed
    {
      if 0 <= e.cursors[i] <= observed && e.cursors[i] > maxCursor {
        maxCursor := e.cursors[i];
      }
    }
    if maxCursor > observed {
      observed := maxCursor;
    }
  }

  /** Activate: the evidence is recomputed under the lock and bounds the floor. The flip happens exactly
      when the row is legacy and the floor lies between every issued version and the ceiling. */
  method Activate(row: Option<StateRow>, floor: int, e: Evidence) returns (r: FlipResult)
    ensures exists observed :: IsMaximum(e.versions + e.boundaries, observed) && r == Flip(row, floor, observed)
    ensures r.Flipped? <==>
              && row.Some? && row.value.mode == MODE_LEGACY && 0 <= floor <= MAX_CUTOVER_FLOOR
              && forall v :: v in e.versions + e.boundaries ==> v <= floor
    ensures r.Flipped? ==> r.row == StateRow(MODE_TRANSACTIONAL, row.value.epoch + 1, floor)
    ensures r.AlreadyActive? <==> row.Some? && row.value.mode == MODE_TRANSACTIONAL
    ensures r.Refused? ==>
              match r.why
              case StateRowMissing => row.None?
              case UnknownMode => row.Some? && row.value.mode !in {MODE_LEGACY, MODE_TRANSACTIONAL}
              case FloorTooLow(observed) => floor < observed && IsMaximum(e.versions + e.boundaries, observed)
              case FloorTooHigh => floor > MAX_CUTOVER_FLOOR
              case _ => false
  {
    var observed := ObservedMaximum(e);
    r := Flip(row, floor, observed);
  }
}
