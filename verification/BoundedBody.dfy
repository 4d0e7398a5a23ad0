/** Reading bodies with a byte limit in modules/agentmailgateway/gateway.go: the simple reader, the
    chunked one that must agree with it, and the bounded copy. */
module BoundedBody {
  import opened Prelude

  const RESPONSE_BUFFER_CHUNK_BYTES := 256 * 1024
  const MAX_INT64 := 0x7fff_ffff_ffff_ffff

  datatype Signal = More | Eof | Fault

  function Min(a: int, b: int): int {
    if a < b then a else b
  }

  /** An io.Reader: it delivers data in pieces of its own choosing, and then ends for good, with the last
      piece if eager and by itself otherwise. Now and then it may deliver nothing. */
  class Reader {
    const data: seq<byte>
    const ending: Signal
    const eager: bool
    var pos: nat
    var stalls: nat

    ghost predicate Valid()
      reads this
    {
      pos <= |data| && !ending.More?
    }

    constructor (data: seq<byte>, ending: Signal, eager: bool, stalls: nat)
      requires !ending.More?
      ensures Valid() && this.data == data && this.ending == ending && this.eager == eager && pos == 0
    {
      this.data, this.ending, this.eager, this.stalls, pos := data, ending, eager, stalls, 0;
    }

    /** Reads into buf[from..to]. */
    method Read(buf: array<byte>, from: nat, to: nat) returns (n: nat, signal: Signal)
      requires Valid() && from < to <= buf.Length
      modifies this, buf
      ensures Valid() && pos == old(pos) + n <= |data| && from + n <= to
      ensures buf[from..from + n] == data[old(pos)..pos] && buf[..from] == old(buf[..from])
      ensures signal == (if pos < |data| then More else if old(pos) == |data| && n == 0 && stalls == old(stalls) then ending
                         else if n > 0 && eager then ending else More)
      ensures n > 0 || stalls < old(stalls) || signal == ending
      ensures stalls <= old(stalls)
    {
      var idle: bool, size: nat := *, *;
      if stalls > 0 && idle {
        stalls := stalls - 1;
        return 0, More;
      }
      if pos == |data| {
        return 0, ending;
      }
      n := if size < 1 then 1 else size;
      n := Min(n, Min(to - from, |data| - pos));
      forall i | 0 <= i < n {
        buf[from + i] := data[pos + i];
      }
      pos := pos + n;
      signal := if pos == |data| && eager then ending else More;
    }
  }

  // --------------------------------------------------------------------------- the common verdict

  datatype Verdict = Body(bytes: seq<byte>) | TooLarge | Failed

  /** What a stream amounts to under a limit, however it is split into reads. Only a fault delivered
      together with the one byte beyond the limit is reported as such. */
  function Bounded(data: seq<byte>, ending: Signal, eager: bool, limit: int): Verdict {
    if |data| > limit then
      if ending.Fault? && eager && |data| == limit + 1 && limit >= 0 then Failed else TooLarge
    else if ending.Fault? then Failed
    else Body(data)
  }

  /** The body exactly when the stream ends well within the limit, too large only beyond the limit, and
      failed only by the stream's own fault, which within the limit it always is. */
  ghost predicate Verdicts(data: seq<byte>, ending: Signal, limit: int, v: Verdict) {
    && (v.Body? <==> |data| <= limit && ending.Eof?) && (v.Body? ==> v.bytes == data)
    && (v.TooLarge? ==> limit < |data|)
    && (v.Failed? ==> ending.Fault? && |data| <= limit + 1)
    && (limit + 1 < |data| ==> v.TooLarge?)
  }

  lemma BoundedVerdicts(data: seq<byte>, ending: Signal, eager: bool, limit: int)
    requires !ending.More?
    ensures Verdicts(data, ending, limit, Bounded(data, ending, eager, limit))
  {
  }

  /** readBoundedBody: io.ReadAll over io.LimitReader, with read buffers of any size. */
  method ReadBoundedBody(reader: Reader?, limit: int) returns (v: Verdict)
    requires limit < MAX_INT64 && (reader != null ==> reader.Valid() && reader.pos == 0)
    modifies reader
    ensures reader == null ==> v == Body([])
    ensures reader != null ==> v == Bounded(reader.data, reader.ending, reader.eager, limit)
    ensures reader != null ==> Verdicts(reader.data, reader.ending, limit, v)
  {
    if reader == null {
      return Body([]);
    }
    BoundedVerdicts(reader.data, reader.ending, reader.eager, limit);
    var body: seq<byte>, budget: int := [], limit + 1;
    while budget > 0
      invariant reader.Valid() && reader.pos == |body| && body == reader.data[..|body|]
      invariant limit >= 0 ==> |body| + budget == limit + 1 && budget >= 0
      invariant limit < 0 ==> body == [] && budget == limit + 1
      invariant reader.ending.Fault? && reader.eager && body != [] ==> |body| < |reader.data|
      decreases |reader.data| - |body|, reader.stalls
    {
      var room: nat := *;
      var size := Min(budget, if room < 1 then 1 else room);
      var buf := new byte[size];
      var n, signal := reader.Read(buf, 0, size);
      body := body + buf[..n];
      budget := budget - n;
      if signal.Fault? {
        return Failed;
      }
      if signal.Eof? {
        break;
      }
    }
    v := if |body| > limit then TooLarge else Body(body);
  }

  function Joined(chunks: seq<seq<byte>>): seq<byte> {
    if chunks == [] then [] else Joined(chunks[..|chunks| - 1]) + chunks[|chunks| - 1]
  }

  lemma JoinedMore(chunks: seq<seq<byte>>, chunk: seq<byte>)
    ensures Joined(chunks + [chunk]) == Joined(chunks) + chunk
  {
    assert (chunks + [chunk])[..|chunks|] == chunks;
  }

  lemma Adjacent(s: seq<byte>, a: nat, b: nat, c: nat)
    requires a <= b <= c <= |s|
    ensures s[a..b] + s[b..c] == s[a..c]
  {
  }

  /** The inner loop of readBoundedResponseBody: fill one chunk, or as much as there is. */
  method Fill(reader: Reader, chunk: array<byte>) returns (filled: nat, signal: Signal)
    requires reader.Valid() && chunk.Length > 0
    modifies reader, chunk
    ensures reader.Valid() && reader.pos == old(reader.pos) + filled && filled <= chunk.Length
    ensures chunk[..filled] == reader.data[old(reader.pos)..reader.pos]
    ensures signal.More? ==> filled == chunk.Length && (reader.ending.Fault? && reader.eager ==> reader.pos < |reader.data|)
    ensures !signal.More? ==> signal == reader.ending && reader.pos == |reader.data| && (filled == chunk.Length ==> reader.eager)
  {
    filled, signal := 0, More;
    while filled < chunk.Length
      invariant reader.Valid() && reader.pos == old(reader.pos) + filled && filled <= chunk.Length
      invariant chunk[..filled] == reader.data[old(reader.pos)..reader.pos]
      invariant signal.More? && (filled > 0 && reader.eager ==> reader.pos < |reader.data|)
      decreases chunk.Length - filled, reader.stalls
    {
      var n;
      ghost var before := reader.pos;
      n, signal := reader.Read(chunk, filled, chunk.Length);
      assert chunk[..filled + n] == chunk[..filled] + chunk[filled..filled + n];
      Adjacent(reader.data, old(reader.pos), before, reader.pos);
      filled := filled + n;
      if !signal.More? {
        return;
      }
    }
  }

  /** readBoundedResponseBody: the body in chunks of at most 256 KiB, with its exact length, and the same
      verdict as readBoundedBody. */
  method ReadBoundedResponseBody(reader: Reader?, limit: int) returns (v: Verdict, chunks: seq<seq<byte>>, total: nat)
    requires limit < MAX_INT64 && (reader != null ==> reader.Valid() && reader.pos == 0)
    modifies reader
    ensures reader == null ==> v == Body([])
    ensures reader != null ==> v == Bounded(reader.data, reader.ending, reader.eager, limit)
    ensures reader != null ==> Verdicts(reader.data, reader.ending, limit, v)
    ensures v.Body? ==> Joined(chunks) == v.bytes && total == |v.bytes|
    ensures forall i :: 0 <= i < |chunks| ==> 0 < |chunks[i]| <= RESPONSE_BUFFER_CHUNK_BYTES
  {
    chunks, total := [], 0;
    if reader == null {
      return Body([]), [], 0;
    }
    BoundedVerdicts(reader.data, reader.ending, reader.eager, limit);
    while total <= limit
      invariant reader.Valid() && reader.pos == total && Joined(chunks) == reader.data[..total]
      invariant limit >= 0 ==> total <= limit
      invariant limit < 0 ==> total == 0
      invariant forall i :: 0 <= i < |chunks| ==> 0 < |chunks[i]| <= RESPONSE_BUFFER_CHUNK_BYTES
      invariant reader.ending.Fault? && reader.eager && total > 0 ==> total < |reader.data|
      decreases limit + 1 - total
    {
      var chunkSize := Min(RESPONSE_BUFFER_CHUNK_BYTES, limit + 1 - total);
      var chunk := new byte[chunkSize];
      var filled, signal := Fill(reader, chunk);
      if signal.Fault? {
        return Failed, [], 0;
      }
      if filled > 0 {
        JoinedMore(chunks, chunk[..filled]);
        total := total + filled;
        chunks := chunks + [chunk[..filled]];
      }
      if total > limit {
        return TooLarge, [], 0;
      }
      if signal.Eof? {
        assert reader.data[..total] == reader.data;
        return Body(Joined(chunks)), chunks, total;
      }
    }
    return TooLarge, [], 0;
  }

  // --------------------------------------------------------------------------------- bounded copy

  function AtLeastZero(n: int): nat {
    if n < 0 then 0 else n
  }

  /** How many of the offered bytes go into a destination that holds some already. */
  function Accepted(capacity: Option<nat>, held: nat, offered: nat): nat {
    if capacity.None? then offered else Min(offered, AtLeastZero(capacity.value - held))
  }

  /** Offering piece by piece, while they fit, is offering all at once. */
  lemma AcceptedMore(capacity: Option<nat>, held: nat, before: nat, piece: nat, all: nat)
    requires Accepted(capacity, held, before) == before && before + piece <= all
    ensures var n := Accepted(capacity, held + before, piece);
            && n <= piece
            && (n == piece ==> Accepted(capacity, held, before + piece) == before + piece)
            && (n < piece ==> Accepted(capacity, held, all) == before + n < all)
  {
  }

  /** An io.Writer that takes bytes until it is full, if it ever is. */
  class Writer {
    var written: seq<byte>
    const capacity: Option<nat>

    constructor (capacity: Option<nat>)
      ensures written == [] && this.capacity == capacity
    {
      written, this.capacity := [], capacity;
    }

    method Write(buf: array<byte>, n: nat) returns (ok: bool)
      requires n <= buf.Length
      modifies this
      ensures written == old(written) + buf[..Accepted(capacity, |old(written)|, n)]
      ensures ok <==> Accepted(capacity, |old(written)|, n) == n
    {
      var k := n;
      if capacity.Some? && |written| + n > capacity.value {
        k := AtLeastZero(capacity.value - |written|);
      }
      written := written + buf[..k];
      return k == n;
    }
  }

  datatype CopyResult = Copied | Exceeded | Broken

  /** io.ReadFull of one byte. */
  method Probe(src: Reader) returns (signal: Signal)
    requires src.Valid()
    modifies src
    ensures src.Valid()
    ensures signal == if old(src.pos) < |src.data| then More else src.ending
  {
    var probe := new byte[1];
    while true
      invariant src.Valid() && src.pos == old(src.pos)
      decreases src.stalls
    {
      var n, s := src.Read(probe, 0, 1);
      if n > 0 {
        return More;
      }
      if !s.More? {
        return s;
      }
    }
  }

  /** The bytes a copy under the limit wants to write. */
  function Wanted(data: seq<byte>, limit: int): seq<byte> {
    data[..Min(|data|, AtLeastZero(limit))]
  }

  /** A piece read from data, appended as far as it went. */
  lemma Appended(base: seq<byte>, want: seq<byte>, data: seq<byte>, from: nat, to: nat, piece: seq<byte>, k: nat)
    requires from <= to <= |want| <= |data| && want == data[..|want|] && piece == data[from..to] && k <= |piece|
    ensures base + want[..from] + piece[..k] == base + want[..from + k]
  {
    assert want[..from] + piece[..k] == want[..from + k];
  }

  /** All that was read has gone to the destination. */
  ghost predicate InStep(dst: Writer, src: Reader, base: seq<byte>, want: seq<byte>)
    reads dst, src
  {
    && src.pos <= |want| <= |src.data| && want == src.data[..|want|]
    && dst.written == base + want[..src.pos] && Accepted(dst.capacity, |base|, src.pos) == src.pos
  }

  /** The destination filled up on the way. */
  ghost predicate Full(dst: Writer, base: seq<byte>, want: seq<byte>)
    reads dst
  {
    var taken := Accepted(dst.capacity, |base|, |want|);
    taken < |want| && dst.written == base + want[..taken]
  }

  /** One round of io.Copy. */
  method CopyPiece(dst: Writer, src: Reader, size: nat, ghost base: seq<byte>, ghost want: seq<byte>)
    returns (whole: bool, signal: Signal)
    requires src.Valid() && InStep(dst, src, base, want) && 0 < size
    requires |want| == |src.data| || src.pos + size <= |want|
    modifies dst, src
    ensures src.Valid() && (whole ==> InStep(dst, src, base, want)) && (!whole ==> Full(dst, base, want))
    ensures !signal.More? ==> signal == src.ending && src.pos == |src.data|
    ensures 0 <= src.pos - old(src.pos) <= size && src.stalls <= old(src.stalls)
    ensures signal.More? ==> src.pos > old(src.pos) || src.stalls < old(src.stalls)
  {
    ghost var before := src.pos;
    var buf := new byte[size];
    var n;
    n, signal := src.Read(buf, 0, size);
    ghost var piece, k := buf[0..n], Accepted(dst.capacity, |base| + before, n);
    AcceptedMore(dst.capacity, |base|, before, n, |want|);
    Appended(base, want, src.data, before, before + n, piece, k);
    whole := true;
    if n > 0 {
      assert piece[..k] == buf[..k];
      whole := dst.Write(buf, n);
    }
  }

  /** io.Copy from io.LimitReader: it stops short only when the destination is full or the source fails. */
  method CopyLimited(dst: Writer, src: Reader, budget: nat) returns (ok: bool)
    requires src.Valid() && src.pos == 0
    modifies dst, src
    ensures src.Valid()
    ensures var base, want := old(dst.written), Wanted(src.data, budget);
            if ok then InStep(dst, src, base, want) && src.pos == |want| && (src.pos < budget ==> src.ending.Eof?)
            else
              || Full(dst, base, want)
              || (InStep(dst, src, base, want) && src.pos == |want| == |src.data| && src.ending.Fault?)
  {
    ghost var base, want := dst.written, Wanted(src.data, budget);
    while src.pos < budget
      invariant src.Valid() && src.pos <= budget && InStep(dst, src, base, want)
      decreases budget - src.pos, src.stalls
    {
      var room: nat := *;
      var size := Min(budget - src.pos, if room < 1 then 1 else room);
      var whole, signal := CopyPiece(dst, src, size, base, want);
      if !whole {
        return false;
      }
      if !signal.More? {
        return signal.Eof?;
      }
    }
    return true;
  }

  /** copyBoundedBody: the first bytes up to the limit are written, as far as the destination takes them.
      The copy is refused if and only if the stream is longer and was written so far, and fails exactly
      on a full destination or a fault of a stream within the limit. */
  method CopyBoundedBody(dst: Writer, src: Reader?, limit: int) returns (r: CopyResult)
    requires limit < MAX_INT64 && (src != null ==> src.Valid() && src.pos == 0)
    modifies dst, src
    ensures src == null ==> r == Copied && dst.written == old(dst.written)
    ensures src != null ==>
              var want := Wanted(src.data, limit);
              var taken := Accepted(dst.capacity, |old(dst.written)|, |want|);
              && dst.written == old(dst.written) + want[..taken]
              && (r != Broken ==> dst.written == old(dst.written) + src.data[..Min(|src.data|, if limit < 0 then 0 else limit)])
              && (r.Copied? ==> dst.written == old(dst.written) + src.data && src.ending.Eof?)
              && (r.Exceeded? <==> taken == |want| && |src.data| > AtLeastZero(limit))
              && (r.Broken? <==> taken < |want| || (|src.data| <= AtLeastZero(limit) && src.ending.Fault?))
  {
    if src == null {
      return Copied;
    }
    var ok := CopyLimited(dst, src, AtLeastZero(limit));
    if !ok {
      return Broken;
    }
    if src.pos < limit {
      return Copied;
    }
    var probe := Probe(src);
    return if probe.More? then Exceeded else if probe.Eof? then Copied else Broken;
  }
}
