/** The QueryStream RPC past request validation (src/service/mtdd_shard_service.cpp:207-345): fetch slices,
    re-cut them into wire batches, write chunks, and clean up on every exit. */
module QueryStream {
  import opened Common
  import opened RawBatch
  import opened Chunks
  import opened Postgres
  import opened StreamingQuery

  /** The gRPC call: the k-th poll for cancellation, the k-th write, the k-th operation that may throw and the final
      Close are answered by the environment. */
  class Call {
    const cancelledAt: nat -> bool
    const acceptsWrite: nat -> bool
    const throwsAt: nat -> bool
    const closeFault: CloseFault
    var polls: nat
    var writes: nat
    var risks: nat
    var attempted: seq<Chunk>
    var accepted: seq<Chunk>

    constructor (cancelledAt: nat -> bool, acceptsWrite: nat -> bool, throwsAt: nat -> bool, closeFault: CloseFault)
      ensures attempted == [] && accepted == []
      ensures this.cancelledAt == cancelledAt && this.acceptsWrite == acceptsWrite && this.throwsAt == throwsAt
      ensures this.closeFault == closeFault
    {
      this.cancelledAt, this.acceptsWrite, this.throwsAt := cancelledAt, acceptsWrite, throwsAt;
      this.closeFault := closeFault;
      polls, writes, risks, attempted, accepted := 0, 0, 0, [], [];
    }

    /** No cancellation, refused write or exception ever happens, except perhaps in the final Close. */
    ghost predicate Calm() {
      forall k: nat :: !cancelledAt(k) && acceptsWrite(k) && !throwsAt(k)
    }

    method IsCancelled() returns (b: bool)
      modifies this`polls
      ensures Calm() ==> !b
    {
      b := cancelledAt(polls);
      polls := polls + 1;
    }

    method Throws() returns (b: bool)
      modifies this`risks
      ensures Calm() ==> !b
    {
      b := throwsAt(risks);
      risks := risks + 1;
    }

    method Write(chunk: Chunk) returns (ok: bool)
      modifies this`writes, this`attempted, this`accepted
      ensures attempted == old(attempted) + [chunk]
      ensures accepted == old(accepted) + if ok then [chunk] else []
      ensures Calm() ==> ok
    {
      ok := acceptsWrite(writes);
      writes := writes + 1;
      attempted := attempted + [chunk];
      if ok {
        accepted := accepted + [chunk];
      }
    }
  }

  // ----- Slices and batches -----

  /** `fetched` holds rows [lo, hi) of the answer under the same columns. */
  predicate IsSlice(fetched: PgResult, answer: PgResult, lo: nat, hi: nat) {
    && lo <= hi <= |answer.rows| && fetched.rows == answer.rows[lo..hi]
    && fetched.fields == answer.fields && fetched.command == answer.command
  }

  /** The batch of a fetched slice is the batch of the same rows of the whole answer. */
  lemma SliceBatch(fetched: PgResult, answer: PgResult, lo: nat, hi: nat, b: nat, e: nat)
    requires IsSlice(fetched, answer, lo, hi) && b <= e <= hi - lo
    ensures BatchBytes(fetched, b, e) == BatchBytes(answer, lo + b, lo + e)
  {
    forall c | 0 <= c < |answer.fields|
      ensures Columns(fetched, b, e)[c] == Columns(answer, lo + b, lo + e)[c]
    {
      SliceColumn(fetched, answer, lo, hi, b, e, c);
    }
    hide Column, ColumnsBytes, Header;
    assert Columns(fetched, b, e) == Columns(answer, lo + b, lo + e);
  }

  /** An empty batch depends on the columns only. */
  lemma EmptyBatch(fetched: PgResult, answer: PgResult)
    requires fetched.fields == answer.fields
    ensures BatchBytes(fetched, 0, 0) == BatchBytes(answer, 0, 0)
  {
    hide ColumnsBytes, Header;
    assert Columns(fetched, 0, 0) == Columns(answer, 0, 0);
  }

  lemma SliceColumn(fetched: PgResult, answer: PgResult, lo: nat, hi: nat, b: nat, e: nat, c: nat)
    requires IsSlice(fetched, answer, lo, hi) && b <= e <= hi - lo
    ensures Column(fetched, b, e, c) == Column(answer, lo + b, lo + e, c)
  {
    var a, w := Column(fetched, b, e, c), Column(answer, lo + b, lo + e, c);
    forall i | 0 <= i < e - b
      ensures a[i] == w[i]
    {
      assert a[i] == fetched.CellAt(b + i, c);
      assert w[i] == answer.CellAt(lo + b + i, c);
    }
  }

  lemma DataChunksSnoc(result: PgResult, cuts: seq<Range>, cut: Range)
    requires forall i :: 0 <= i < |cuts| ==> cuts[i].lo <= cuts[i].hi
    requires cut.lo <= cut.hi
    ensures DataChunks(result, cuts + [cut]) == DataChunks(result, cuts) + [DataChunk(result, cut, cuts == [])]
  {
    hide DataChunk;
  }

  /** Sends one batch, as SCHEMA the first time and as BATCH afterwards; an empty payload is not sent. */
  method SendBatchChunk(call: Call, schema: Schema, batchSent: bool, payload: seq<byte>) returns (ok: bool)
    modifies call
    ensures call.Calm() ==> ok
    ensures payload == [] ==> ok && call.attempted == old(call.attempted) && call.accepted == old(call.accepted)
    ensures payload != [] ==>
            var chunk := if batchSent then BatchChunk(payload) else SchemaChunk(Some(schema), payload);
            && (ok ==> call.attempted == old(call.attempted) + [chunk] && call.accepted == old(call.accepted) + [chunk])
            && (!ok ==> call.accepted == old(call.accepted)
                        && call.attempted in {old(call.attempted), old(call.attempted) + [chunk]})
  {
    if payload == [] {
      return true;
    }
    var cancelled := call.IsCancelled();
    if cancelled {
      return false;
    }
    ok := call.Write(if batchSent then BatchChunk(payload) else SchemaChunk(Some(schema), payload));
  }

  // ----- Sending one fetched slice -----

  /** What a call has carried so far: exactly the data chunks of `cuts`, none refused. */
  ghost predicate Carried(attempted: seq<Chunk>, accepted: seq<Chunk>, answer: PgResult, cuts: seq<Range>, hi: nat) {
    Chain(cuts, 0, hi) && attempted == accepted == DataChunks(answer, cuts)
  }

  /** As `Carried`, but the last attempt may have been a refused data chunk. */
  ghost predicate CarriedOrRefused(
    attempted: seq<Chunk>, accepted: seq<Chunk>, answer: PgResult, cuts: seq<Range>, hi: nat)
  {
    && Chain(cuts, 0, hi) && accepted == DataChunks(answer, cuts)
    && (attempted == accepted || exists c: Chunk :: !c.Terminal() && attempted == accepted + [c])
  }

  datatype SendExit = Sent | Refused | Threw

  lemma ChainSnoc(cuts: seq<Range>, lo: nat, hi: nat, end: nat)
    requires Chain(cuts, lo, hi) && hi <= end
    ensures Chain(cuts + [Range(hi, end)], lo, end)
  {
    ChainAppend(cuts, [Range(hi, end)], lo, hi, end);
  }

  /** Encodes rows [b, e) of a fetched result and sends them as the next cut of the answer. */
  method SendCut(call: Call, ghost answer: PgResult, fetched: PgResult, b: nat, e: nat, ghost cuts: seq<Range>,
                 ghost lo: nat, ghost hi: nat, batchSent: bool)
    returns (exit: SendExit)
    requires b <= e && lo <= hi && BatchBytes(fetched, b, e) == BatchBytes(answer, lo, hi)
    requires SchemaOf(fetched) == SchemaOf(answer)
    requires Carried(call.attempted, call.accepted, answer, cuts, lo) && batchSent == (cuts != [])
    modifies call
    ensures exit.Sent? ==> Carried(call.attempted, call.accepted, answer, cuts + [Range(lo, hi)], hi)
    ensures !exit.Sent? ==> CarriedOrRefused(call.attempted, call.accepted, answer, cuts, lo)
    ensures exit.Threw? ==> Carried(call.attempted, call.accepted, answer, cuts, lo)
    ensures call.Calm() ==> exit.Sent?
  {
    hide BatchBytes, DataChunks;
    DataChunksSnoc(answer, cuts, Range(lo, hi));
    ChainSnoc(cuts, 0, lo, hi);
    var threw := call.Throws();
    if threw {
      return Threw;
    }
    var encoded := EncodeRawPgBatch(Some(fetched), b, e);
    var ok := SendBatchChunk(call, SchemaOf(fetched), batchSent, encoded.value);
    exit := if ok then Sent else Refused;
  }

  method SendSlice(call: Call, ghost answer: PgResult, fetched: PgResult, ghost lo: nat, ghost hi: nat, wire: nat,
                   ghost cutsIn: seq<Range>, batchSentIn: bool)
    returns (exit: SendExit, batchSent: bool, ghost cuts: seq<Range>, ghost end: nat)
    requires IsSlice(fetched, answer, lo, hi) && wire >= 1
    requires Carried(call.attempted, call.accepted, answer, cutsIn, lo) && batchSentIn == (cutsIn != [])
    modifies call
    ensures lo <= end <= hi && cuts + SliceCuts(end, hi, wire) == cutsIn + SliceCuts(lo, hi, wire)
    ensures exit.Sent? ==> end == hi && Carried(call.attempted, call.accepted, answer, cuts, hi) && batchSent == (cuts != [])
    ensures exit.Threw? ==> Carried(call.attempted, call.accepted, answer, cuts, end)
    ensures exit.Refused? ==> CarriedOrRefused(call.attempted, call.accepted, answer, cuts, end)
    ensures call.Calm() ==> exit.Sent?
  {
    hide Carried, CarriedOrRefused, BatchBytes;
    batchSent, cuts, end := batchSentIn, cutsIn, lo;
    var numRows := |fetched.rows|;
    var rowBegin := 0;
    while rowBegin < numRows
      invariant 0 <= rowBegin
      invariant end == Min(lo + rowBegin, hi)
      invariant Carried(call.attempted, call.accepted, answer, cuts, end) && batchSent == (cuts != [])
      invariant cuts + SliceCuts(lo + rowBegin, hi, wire) == cutsIn + SliceCuts(lo, hi, wire)
    {
      var rowEnd := Min(rowBegin + wire, numRows);
      SliceBatch(fetched, answer, lo, hi, rowBegin, rowEnd);
      exit := SendCut(call, answer, fetched, rowBegin, rowEnd, cuts, lo + rowBegin, lo + rowEnd, batchSent);
      if !exit.Sent? {
        return;
      }
      ghost var cut := Range(lo + rowBegin, lo + rowEnd);
      assert cuts + ([cut] + SliceCuts(lo + rowBegin + wire, hi, wire))
          == cuts + [cut] + SliceCuts(lo + rowBegin + wire, hi, wire);
      cuts, end, batchSent := cuts + [cut], lo + rowEnd, true;
      rowBegin := rowBegin + wire;
    }
    exit := Sent;
  }

  // ----- The fetch loop -----

  /** FETCHes still to come when `at` of `n` rows have been fetched and nothing fails. */
  function FetchesLeft(at: nat, n: nat, fetch: nat, schemaOpen: bool): nat
    requires fetch >= 1
    decreases n - at
  {
    if at >= n then if schemaOpen then 1 else 2
    else 1 + FetchesLeft(at + fetch, n, fetch, true)
  }

  /** ceil(N/F) + 1 FETCHes for a non-empty answer, 2 for an empty one. */
  lemma {:induction false} FetchCount(at: nat, n: nat, fetch: nat)
    requires fetch >= 1
    ensures at < n ==> FetchesLeft(at, n, fetch, false) == FetchesLeft(at, n, fetch, true) == CeilDiv(n - at, fetch) + 1
    ensures FetchesLeft(0, 0, fetch, false) == 2
    decreases n - at
  {
    if at < n {
      CeilStep(n - at, fetch);
      hide CeilDiv;
      if at + fetch < n {
        FetchCount(at + fetch, n, fetch);
      }
    }
  }

  /** Rows one fetch returns at most: the fetch size, or everything for a direct execution. */
  function StepOf(request: Request, fetchSize: nat): (step: nat)
    requires fetchSize >= 1
    ensures step >= 1
  {
    if request.useCursor then fetchSize else if request.answer.rows == [] then 1 else |request.answer.rows|
  }

  /** The first result a query returns: its first `fetchSize` rows through a cursor, else the whole answer. */
  function FirstResult(request: Request, fetchSize: nat): PgResult
    requires fetchSize >= 1
  {
    if request.useCursor then Slice(request.answer, 0, Min(fetchSize, |request.answer.rows|)) else request.answer
  }

  /** All data batches of a request's answer. */
  function AllCuts(request: Request, fetchSize: nat, wire: nat): seq<Range>
    requires fetchSize >= 1 && wire >= 1
  {
    Cuts(0, |request.answer.rows|, StepOf(request, fetchSize), wire)
  }

  function Ids(last: Option<Handle>): set<nat> {
    if last.Some? then {last.value.id} else {}
  }

  /** What a run starts streaming from: its connection, whether that is a pool lease, whether it began the
      transaction itself, the statements, pool calls and uncleared results so far, and the wire batch size. */
  datatype Origin = Origin(conn: nat, pooled: bool, local: bool, trace: seq<Statement>, poolCalls: seq<PoolCall>,
                           live: set<nat>, wire: nat)

  /** What a run holds while it streams: its connection and transaction, the last fetched result and an
      unfetched immediate result, and nothing else; `k` FETCHes have been issued since it was opened. */
  ghost predicate Held(stream: StreamingQuery, last: Option<Handle>, origin: Origin, k: nat)
    reads stream, stream.db
  {
    && stream.Valid() && stream.connection == Some(origin.conn) && stream.pooled == origin.pooled
    && stream.useCursor == stream.cursorOpen == stream.request.useCursor
    && stream.startedLocalTxn == origin.local
    && stream.db.statements == origin.trace + Fetches(if stream.useCursor then k else 0)
    && stream.db.poolCalls == origin.poolCalls
    && stream.db.live == origin.live + Ids(last) + stream.ImmediateIds()
    && Ids(last) !! origin.live && stream.ImmediateIds() !! origin.live && Ids(last) !! stream.ImmediateIds()
    && (stream.useCursor ==> stream.immediate.None?)
  }

  /** The last fetched result has not been cleared. */
  lemma LastIsLive(stream: StreamingQuery, last: Option<Handle>, origin: Origin, k: nat)
    requires Held(stream, last, origin, k) && last.Some?
    ensures last.value.id in stream.db.live
  {
  }

  /** In a direct execution the single result is either unfetched, or fetched and last. */
  ghost predicate DirectState(stream: StreamingQuery, last: Option<Handle>)
    reads stream
  {
    if stream.immediateDone then
      last.Some? && stream.immediate.None? && stream.at == |stream.request.answer.rows|
    else
      last.None? && stream.at == 0 && stream.immediate.Some?
      && stream.immediate.value.result == stream.request.answer
  }

  datatype PumpExit = Drained | PollCancelled | FetchError(message: string) | BadStatus | Command | SendRefused | Thrown

  /** A fetch: clears the previous result and keeps the new one. */
  method NextResult(stream: StreamingQuery, last: Option<Handle>, ghost origin: Origin, ghost k: nat)
    returns (fetched: Option<Handle>, message: string)
    requires Held(stream, last, origin, k)
    requires stream.useCursor ==> stream.db.txn == InTrans
    requires !stream.useCursor ==> DirectState(stream, last)
    modifies stream, stream.db
    ensures stream.request == old(stream.request) && stream.useCursor == old(stream.useCursor)
    ensures Held(stream, if fetched.Some? then fetched else last, origin, k + 1)
    ensures fetched.Some? ==> fetched.value.id in stream.db.live
    ensures !stream.useCursor ==> DirectState(stream, if fetched.Some? then fetched else last)
    ensures fetched.Some? ==>
              && IsSlice(fetched.value.result, stream.request.answer, old(stream.at), stream.at)
              && stream.at == Min(old(stream.at) + StepOf(stream.request, stream.fetchSize), |stream.request.answer.rows|)
              && (stream.useCursor ==> fetched.value.result == Slice(stream.request.answer, old(stream.at), stream.at)
                                       && stream.db.txn == InTrans && stream.db.replies(|origin.trace| + k).Accepts?)
              && (!stream.useCursor ==> last.None? && fetched.value.result == stream.request.answer)
    ensures fetched.None? ==>
              && stream.at == old(stream.at)
              && if stream.useCursor then
                   var reply := stream.db.replies(|origin.trace| + k);
                   !reply.Accepts? && message == ErrorText(reply)
                 else last.Some? && message == "" && stream.at == |stream.request.answer.rows|
  {
    hide TxnAfter;
    assert Fetches(k + 1) == Fetches(k) + [FetchForward];
    fetched, message := stream.Fetch();
    if fetched.Some? && last.Some? {
      stream.db.Clear(last.value.id);
    }
  }

  /** Every statement is accepted. */
  ghost predicate Obliging(db: Backend) {
    forall k: nat :: db.replies(k).Accepts?
  }

  /** The cuts sent so far, followed by the cuts of the rows still to fetch, are all the cuts. */
  ghost predicate OnTrack(cuts: seq<Range>, at: nat, n: nat, step: nat, wire: nat) {
    step >= 1 && wire >= 1 && at <= n && cuts + Cuts(at, n, step, wire) == Cuts(0, n, step, wire)
  }

  lemma OnTrackStart(n: nat, step: nat, wire: nat)
    requires step >= 1 && wire >= 1
    ensures OnTrack([], 0, n, step, wire)
  {
    assert [] + Cuts(0, n, step, wire) == Cuts(0, n, step, wire);
  }

  lemma OnTrackPrefix(cuts: seq<Range>, at: nat, n: nat, step: nat, wire: nat)
    requires OnTrack(cuts, at, n, step, wire)
    ensures cuts <= Cuts(0, n, step, wire)
    ensures at == n ==> cuts == Cuts(0, n, step, wire)
  {
    if at == n {
      assert Cuts(at, n, step, wire) == [];
      assert cuts + [] == cuts;
    }
  }

  /** Sending part or all of the next slice keeps to the cuts of the whole answer. */
  lemma OnTrackSlice(cuts: seq<Range>, at: nat, n: nat, step: nat, wire: nat, end: nat, cuts': seq<Range>, hi: nat)
    requires OnTrack(cuts, at, n, step, wire) && at < n && end == Min(at + step, n)
    requires hi <= end && cuts' + SliceCuts(hi, end, wire) == cuts + SliceCuts(at, end, wire)
    ensures cuts' <= Cuts(0, n, step, wire)
    ensures hi == end ==> OnTrack(cuts', end, n, step, wire)
  {
    var rest := Cuts(end, n, step, wire);
    assert Cuts(at, n, step, wire) == SliceCuts(at, end, wire) + rest;
    assert SliceCuts(end, end, wire) == [];
    hide Cuts, SliceCuts;
    Regroup(cuts, SliceCuts(at, end, wire), cuts', SliceCuts(hi, end, wire), rest);
    if hi == end {
      assert [] + rest == rest;
    }
  }

  lemma Regroup(a: seq<Range>, s: seq<Range>, a': seq<Range>, s': seq<Range>, rest: seq<Range>)
    requires a' + s' == a + s
    ensures a' + (s' + rest) == a + (s + rest) && a' <= a + (s + rest)
  {
    assert a + (s + rest) == (a + s) + rest;
    assert a' + (s' + rest) == (a' + s') + rest;
  }

  lemma SliceSends(cuts: seq<Range>, at: nat, end: nat, wire: nat, cuts': seq<Range>)
    requires wire >= 1 && at < end && cuts' + SliceCuts(end, end, wire) == cuts + SliceCuts(at, end, wire)
    ensures cuts' != []
  {
    assert |SliceCuts(at, end, wire)| >= 1 && SliceCuts(end, end, wire) == [];
  }

  /** `k` FETCHes so far and those still to come are all the FETCHes of an undisturbed run. */
  ghost predicate OnCount(k: nat, at: nat, n: nat, fetch: nat, schemaOpen: bool) {
    fetch >= 1 && k + FetchesLeft(at, n, fetch, schemaOpen) == FetchesLeft(0, n, fetch, false)
  }

  lemma OnCountStart(n: nat, fetch: nat)
    requires fetch >= 1
    ensures OnCount(0, 0, n, fetch, false)
  {
  }

  lemma OnCountStep(k: nat, at: nat, n: nat, fetch: nat, schemaOpen: bool)
    requires at <= n && OnCount(k, at, n, fetch, schemaOpen)
    ensures at < n || !schemaOpen ==> OnCount(k + 1, Min(at + fetch, n), n, fetch, true)
    ensures at == n && schemaOpen ==> k + 1 == FetchesLeft(0, n, fetch, false)
    ensures k + 1 <= FetchesLeft(0, n, fetch, false)
  {
    assert FetchesLeft(at + fetch, n, fetch, true) == FetchesLeft(Min(at + fetch, n), n, fetch, true);
  }

  /** The first `k` FETCHes after the opening statements are accepted. */
  ghost predicate FetchesSucceed(replies: nat -> Reply, base: nat, k: nat) {
    forall i :: base <= i < base + k ==> replies(i).Accepts?
  }

  /** The `k`-th FETCH is the first that fails, and it fails with this error text. */
  ghost predicate FetchFails(replies: nat -> Reply, base: nat, k: nat, text: string) {
    k >= 1 && FetchesSucceed(replies, base, k - 1) && !replies(base + k - 1).Accepts? && ErrorText(replies(base + k - 1)) == text
  }

  /** Rows handed out by `k` successful FETCHes. */
  function RowsAfter(k: nat, n: nat, fetch: nat): nat {
    Min(k * fetch, n)
  }

  lemma RowsAfterStep(k: nat, n: nat, fetch: nat)
    ensures Min(RowsAfter(k, n, fetch) + fetch, n) == RowsAfter(k + 1, n, fetch)
  {
    assert (k + 1) * fetch == k * fetch + fetch;
  }

  /** FETCHes of a run in which none fails: without columns the first one ends it. */
  function FetchesOf(request: Request, fetch: nat): nat
    requires fetch >= 1
  {
    if request.answer.fields == [] then 1 else FetchesLeft(0, |request.answer.rows|, fetch, false)
  }

  /** The run stopped at row `hi` because its `k`-th FETCH, one that is needed, failed with an empty error text. */
  ghost predicate SilentEnd(request: Request, fetch: nat, replies: nat -> Reply, base: nat, k: nat, hi: nat)
    requires fetch >= 1
  {
    && request.useCursor && k <= FetchesOf(request, fetch) && FetchFails(replies, base, k, "")
    && hi == RowsAfter(k - 1, |request.answer.rows|, fetch)
  }

  /** PostgreSQL has done all that the query needs: every FETCH succeeded, or the direct result can be used. */
  ghost predicate Completed(request: Request, fetch: nat, replies: nat -> Reply, base: nat, k: nat)
    requires fetch >= 1
  {
    if request.useCursor then k == FetchesOf(request, fetch) && FetchesSucceed(replies, base, k)
    else request.answer.status in {TuplesOk, CommandOk}
  }

  /** PostgreSQL is the reason for an ERROR chunk: a FETCH that is needed fails with this text, or the direct result
      cannot be used. */
  ghost predicate Unusable(request: Request, fetch: nat, replies: nat -> Reply, base: nat, k: nat, text: string)
    requires fetch >= 1
  {
    if request.useCursor then text != "" && k <= FetchesOf(request, fetch) && FetchFails(replies, base, k, text)
    else text == UNKNOWN_ERROR && request.answer.status !in {TuplesOk, CommandOk}
  }

  /** The first of `k` fetches has returned a result. */
  predicate Fetched(useCursor: bool, replies: nat -> Reply, base: nat, k: nat) {
    k >= 1 && (useCursor ==> replies(base).Accepts?)
  }

  /** The loop's variables. */
  datatype Progress = Progress(last: Option<Handle>, schemaOpen: bool, batchSent: bool, total: int)

  /** The loop's invariant. */
  ghost predicate Going(stream: StreamingQuery, attempted: seq<Chunk>, accepted: seq<Chunk>, p: Progress,
                        origin: Origin, cuts: seq<Range>, k: nat)
    reads stream, stream.db
  {
    var answer := stream.request.answer;
    && stream.fetchSize >= 1 && origin.wire >= 1 && stream.at <= |answer.rows|
    && stream.useCursor == stream.request.useCursor
    && Held(stream, p.last, origin, k)
    && (stream.useCursor ==> stream.db.txn == InTrans)
    && (!stream.useCursor ==> DirectState(stream, p.last))
    && Carried(attempted, accepted, answer, cuts, stream.at)
    && OnTrack(cuts, stream.at, |answer.rows|, StepOf(stream.request, stream.fetchSize), origin.wire)
    && (stream.useCursor ==>
          && OnCount(k, stream.at, |answer.rows|, stream.fetchSize, p.schemaOpen)
          && FetchesSucceed(stream.db.replies, |origin.trace|, k)
          && stream.at == RowsAfter(k, |answer.rows|, stream.fetchSize))
    && p.schemaOpen == p.last.Some? && p.batchSent == (cuts != []) && p.total == stream.at
    && (p.last.None? ==> stream.at == 0 && cuts == [] && k == 0)
    && (p.last.Some? ==> SameColumns(p.last.value.result, answer))
    && (p.last.Some? && cuts == [] ==> answer.rows == [])
    && (p.last.Some? <==> Fetched(stream.useCursor, stream.db.replies, |origin.trace|, k))
    && (p.last.Some? && !stream.useCursor ==> answer.status in {TuplesOk, CommandOk})
  }

  predicate SameColumns(result: PgResult, answer: PgResult) {
    result.fields == answer.fields && |answer.fields| > 0 && result.command == answer.command
  }

  /** Why the loop was left, in terms of the request and the replies. */
  ghost predicate Reason(exit: PumpExit, request: Request, fetch: nat, replies: nat -> Reply, base: nat, k: nat, hi: nat,
                         silent: bool)
    requires fetch >= 1
  {
    && (silent ==> exit.Drained? && SilentEnd(request, fetch, replies, base, k, hi))
    && match exit
       case Drained =>
         !silent ==> hi == |request.answer.rows| && request.answer.fields != [] && Completed(request, fetch, replies, base, k)
       case Command => request.answer.fields == [] && Completed(request, fetch, replies, base, k)
       case FetchError(message) => request.useCursor && Unusable(request, fetch, replies, base, k, message)
       case BadStatus => !request.useCursor && request.answer.status !in {TuplesOk, CommandOk}
       case _ => true
  }

  /** What holds when the loop is left, in the state before any clean-up. */
  ghost predicate Left(stream: StreamingQuery, attempted: seq<Chunk>, accepted: seq<Chunk>, exit: PumpExit, p: Progress,
                       origin: Origin, cuts: seq<Range>, hi: nat, k: nat, silent: bool)
    reads stream, stream.db
  {
    var answer := stream.request.answer;
    && stream.fetchSize >= 1 && origin.wire >= 1 && hi <= |answer.rows| && stream.useCursor == stream.request.useCursor
    && Held(stream, p.last, origin, k)
    && cuts <= AllCuts(stream.request, stream.fetchSize, origin.wire)
    && (if exit.SendRefused? then CarriedOrRefused(attempted, accepted, answer, cuts, hi)
        else Carried(attempted, accepted, answer, cuts, hi))
    && Reason(exit, stream.request, stream.fetchSize, stream.db.replies, |origin.trace|, k, hi, silent)
    && (p.last.Some? <==> Fetched(stream.useCursor, stream.db.replies, |origin.trace|, k))
    && match exit
       case Drained =>
         && p.total == hi && p.schemaOpen == p.last.Some? && p.batchSent == (cuts != [])
         && (p.last.Some? ==> SameColumns(p.last.value.result, answer))
         && (p.last.Some? && cuts == [] ==> answer.rows == [])
         && (p.last.None? ==> cuts == [] && silent)
         && (!silent ==> cuts == AllCuts(stream.request, stream.fetchSize, origin.wire))
       case BadStatus => p.last.Some? && cuts == []
       case Command =>
         p.last.Some? && cuts == [] && p.last.value.result == FirstResult(stream.request, stream.fetchSize)
       case _ => true
  }

  /** A fetched result that has not been looked at: the `k`-th, holding the rows from `before` on. */
  ghost predicate Arrived(stream: StreamingQuery, fetched: Handle, first: bool, origin: Origin, k: nat, before: nat)
    reads stream, stream.db
  {
    var answer, n := stream.request.answer, |stream.request.answer.rows|;
    && stream.fetchSize >= 1 && stream.useCursor == stream.request.useCursor
    && Held(stream, Some(fetched), origin, k)
    && (stream.useCursor ==>
          && stream.db.txn == InTrans
          && FetchesSucceed(stream.db.replies, |origin.trace|, k) && stream.at == RowsAfter(k, n, stream.fetchSize)
          && (before < n || first ==> OnCount(k, stream.at, n, stream.fetchSize, true))
          && (before == n && !first ==> k == FetchesLeft(0, n, stream.fetchSize, false)))
    && (!stream.useCursor ==> DirectState(stream, Some(fetched)) && first)
    && IsSlice(fetched.result, answer, before, stream.at)
    && stream.at == Min(before + StepOf(stream.request, stream.fetchSize), n)
    && fetched.result == (if stream.useCursor then Slice(answer, before, stream.at) else answer)
    && Fetched(stream.useCursor, stream.db.replies, |origin.trace|, k)
    && fetched.id in stream.db.live
  }

  /** Poll, then fetch. */
  method FetchNext(stream: StreamingQuery, call: Call, p: Progress, ghost origin: Origin, ghost cuts: seq<Range>, ghost k: nat)
    returns (exit: Option<PumpExit>, fetched: Option<Handle>, ghost k': nat, ghost silent: bool)
    requires Going(stream, call.attempted, call.accepted, p, origin, cuts, k)
    modifies stream, stream.db, call`polls, call`risks
    ensures stream.request == old(stream.request)
    ensures exit.Some? ==> Left(stream, call.attempted, call.accepted, exit.value, p, origin, cuts, old(stream.at), k', silent)
    ensures exit.Some? && call.Calm() ==> exit.value !in {PollCancelled, SendRefused, Thrown}
    ensures exit.Some? && Obliging(stream.db) ==> !exit.value.FetchError? && !silent
    ensures exit.None? ==>
              k' == k + 1 && !silent && fetched.Some?
              && Arrived(stream, fetched.value, p.last.None?, origin, k', old(stream.at))
  {
    hide TxnAfter, Carried, CarriedOrRefused, Held, DirectState, OnTrack, OnCount, Cuts, FetchesLeft, FetchesSucceed,
         FetchFails, ErrorText, RowsAfter, Succeeds, NextTxn, SliceCuts, Reason, FetchesOf, Fetched;
    fetched, k', silent := None, k, false;
    ghost var n, base := |stream.request.answer.rows|, |origin.trace|;
    ghost var before := stream.at;
    OnTrackPrefix(cuts, before, n, StepOf(stream.request, stream.fetchSize), origin.wire);
    StopReasons(stream.request, stream.fetchSize, stream.db.replies, base, k, before);
    FetchedStep(stream.useCursor, stream.db.replies, base, k);
    var cancelled := call.IsCancelled();
    if cancelled {
      return Some(PollCancelled), None, k, false;
    }
    var threw := call.Throws();
    if threw {
      return Some(Thrown), None, k, false;
    }
    if stream.useCursor {
      OnCountStep(k, before, n, stream.fetchSize, p.schemaOpen);
      RowsAfterStep(k, n, stream.fetchSize);
    }
    var message;
    fetched, message := NextResult(stream, p.last, origin, k);
    k' := k + 1;
    if fetched.Some? {
      if stream.useCursor {
        FetchesSucceedSnoc(stream.db.replies, base, k);
      }
      return None, fetched, k', false;
    }
    if stream.useCursor {
      FirstFailure(stream.db.replies, base, k);
      FailReasons(stream.request, stream.fetchSize, stream.db.replies, base, k, before, message, p.last.Some?);
    } else {
      DirectReasons(stream.request, stream.fetchSize, stream.db.replies, base, k');
    }
    silent := message == "" && stream.useCursor;
    exit := Some(if message != "" then FetchError(message) else Drained);
  }

  /** Everything an iteration does before it sends rows: poll, fetch, and look at the result. */
  method Receive(stream: StreamingQuery, call: Call, p: Progress, ghost origin: Origin, ghost cuts: seq<Range>, ghost k: nat)
    returns (exit: Option<PumpExit>, p': Progress, ghost k': nat, ghost silent: bool)
    requires Going(stream, call.attempted, call.accepted, p, origin, cuts, k)
    modifies stream, stream.db, call`polls, call`risks
    ensures stream.request == old(stream.request)
    ensures exit.Some? ==> Left(stream, call.attempted, call.accepted, exit.value, p', origin, cuts, old(stream.at), k', silent)
    ensures exit.Some? && call.Calm() ==> exit.value !in {PollCancelled, SendRefused, Thrown}
    ensures exit.Some? && Obliging(stream.db) ==> !exit.value.FetchError? && !silent
    ensures exit.None? ==>
              && p' == p.(last := p'.last, schemaOpen := true) && p'.last.Some?
              && Arrived(stream, p'.last.value, p.last.None?, origin, k', old(stream.at))
              && SameColumns(p'.last.value.result, stream.request.answer)
              && (old(stream.at) < stream.at || !p.schemaOpen)
              && (!stream.useCursor ==> stream.request.answer.status in {TuplesOk, CommandOk})
  {
    hide TxnAfter, Carried, CarriedOrRefused, Held, DirectState, OnTrack, OnCount, Cuts, FetchesLeft, FetchesSucceed,
         FetchFails, ErrorText, RowsAfter, Succeeds, NextTxn, SliceCuts, Reason, FetchesOf, Fetched;
    ghost var before := stream.at;
    OnTrackPrefix(cuts, before, |stream.request.answer.rows|, StepOf(stream.request, stream.fetchSize), origin.wire);
    p' := p;
    var fetched;
    exit, fetched, k', silent := FetchNext(stream, call, p, origin, cuts, k);
    if exit.Some? {
      return;
    }
    StopReasons(stream.request, stream.fetchSize, stream.db.replies, |origin.trace|, k', before);
    EndReasons(stream.request, stream.fetchSize, stream.db.replies, |origin.trace|, k');
    var opens;
    exit, opens := Inspect(call, stream.Read(fetched.value), p.schemaOpen);
    p' := p.(last := fetched, schemaOpen := opens);
  }

  lemma StopReasons(request: Request, fetch: nat, replies: nat -> Reply, base: nat, k: nat, hi: nat)
    requires fetch >= 1
    ensures forall exit, k' :: exit in {PollCancelled, Thrown} ==> Reason(exit, request, fetch, replies, base, k', hi, false)
  {
  }

  lemma FetchedStep(useCursor: bool, replies: nat -> Reply, base: nat, k: nat)
    ensures !Fetched(useCursor, replies, base, 0)
    ensures k >= 1 ==> (Fetched(useCursor, replies, base, k + 1) <==> Fetched(useCursor, replies, base, k))
    ensures Fetched(useCursor, replies, base, 1) <==> (useCursor ==> replies(base).Accepts?)
  {
  }

  /** A FETCH that fails. */
  lemma FailReasons(request: Request, fetch: nat, replies: nat -> Reply, base: nat, k: nat, hi: nat, text: string, any: bool)
    requires fetch >= 1 && request.useCursor && FetchFails(replies, base, k + 1, text)
    requires k + 1 <= FetchesLeft(0, |request.answer.rows|, fetch, false) && hi == RowsAfter(k, |request.answer.rows|, fetch)
    requires if any then request.answer.fields != [] else k == 0
    ensures text == "" ==> Reason(Drained, request, fetch, replies, base, k + 1, hi, true)
    ensures text != "" ==> Reason(FetchError(text), request, fetch, replies, base, k + 1, hi, false)
  {
    hide FetchFails, FetchesLeft, RowsAfter;
  }

  /** The end of a direct execution's only result. */
  lemma DirectReasons(request: Request, fetch: nat, replies: nat -> Reply, base: nat, k: nat)
    requires fetch >= 1
    ensures !request.useCursor && request.answer.fields != [] && request.answer.status in {TuplesOk, CommandOk} ==>
              Reason(Drained, request, fetch, replies, base, k, |request.answer.rows|, false)
  {
  }

  /** A result that ends the loop. */
  lemma EndReasons(request: Request, fetch: nat, replies: nat -> Reply, base: nat, k: nat)
    requires fetch >= 1 && (request.useCursor ==> FetchesSucceed(replies, base, k))
    ensures request.answer.fields == [] && (if request.useCursor then k == 1 else request.answer.status in {TuplesOk, CommandOk}) ==>
              forall hi :: Reason(Command, request, fetch, replies, base, k, hi, false)
    ensures !request.useCursor && request.answer.status !in {TuplesOk, CommandOk} ==>
              forall hi :: Reason(BadStatus, request, fetch, replies, base, k, hi, false)
    ensures request.useCursor && request.answer.fields != [] && k == FetchesLeft(0, |request.answer.rows|, fetch, false) ==>
              Reason(Drained, request, fetch, replies, base, k, |request.answer.rows|, false)
  {
    hide FetchesLeft, FetchesSucceed;
  }

  /** Looks at a fetched result: it stops the loop, or its rows can be sent under an open schema. */
  method Inspect(call: Call, result: PgResult, schemaOpen: bool) returns (exit: Option<PumpExit>, opens: bool)
    modifies call`risks
    ensures opens == (schemaOpen || exit.None?)
    ensures result.status !in {TuplesOk, CommandOk} ==> exit == Some(BadStatus)
    ensures result.status in {TuplesOk, CommandOk} && result.fields == [] ==> exit == Some(Command)
    ensures result.status in {TuplesOk, CommandOk} && result.fields != [] ==>
              if schemaOpen then exit == if result.rows == [] then Some(Drained) else None
              else exit == None || exit == Some(Thrown)
    ensures call.Calm() ==> exit != Some(Thrown)
  {
    opens := schemaOpen;
    if result.status != TuplesOk && result.status != CommandOk {
      return Some(BadStatus), opens;
    }
    if |result.fields| == 0 {
      return Some(Command), opens;
    }
    if |result.rows| == 0 && schemaOpen {
      return Some(Drained), opens;
    }
    if !schemaOpen {
      var threw := call.Throws();
      if threw {
        return Some(Thrown), opens;
      }
      opens := true;
    }
    exit := None;
  }

  lemma FirstFailure(replies: nat -> Reply, base: nat, k: nat)
    requires FetchesSucceed(replies, base, k) && !replies(base + k).Accepts?
    ensures FetchFails(replies, base, k + 1, ErrorText(replies(base + k)))
  {
  }

  lemma FetchesSucceedSnoc(replies: nat -> Reply, base: nat, k: nat)
    requires FetchesSucceed(replies, base, k) && replies(base + k).Accepts?
    ensures FetchesSucceed(replies, base, k + 1)
  {
  }

  /** The loop that fetches and sends until the answer is exhausted or something stops it. */
  method Pump(stream: StreamingQuery, call: Call, wire: nat, ghost origin: Origin)
    returns (exit: PumpExit, p: Progress, ghost cuts: seq<Range>, ghost hi: nat, ghost k: nat, ghost silent: bool)
    requires wire >= 1 && origin.wire == wire && stream.at == 0
    requires Going(stream, call.attempted, call.accepted, Progress(None, false, false, 0), origin, [], 0)
    modifies stream, stream.db, call
    ensures stream.request == old(stream.request)
    ensures Left(stream, call.attempted, call.accepted, exit, p, origin, cuts, hi, k, silent)
    ensures call.Calm() ==> exit !in {PollCancelled, SendRefused, Thrown}
    ensures Obliging(stream.db) ==> !exit.FetchError? && !silent
  {
    hide TxnAfter, Carried, CarriedOrRefused, Held, DirectState, OnTrack, OnCount, Cuts, SliceCuts, FetchesLeft, FetchFails;
    p, cuts, k := Progress(None, false, false, 0), [], 0;
    ghost var n, step := |stream.request.answer.rows|, StepOf(stream.request, stream.fetchSize);
    while true
      invariant stream.request == old(stream.request)
      invariant Going(stream, call.attempted, call.accepted, p, origin, cuts, k)
      decreases n - stream.at, if p.schemaOpen then 0 else 1
    {
      ghost var before, was := stream.at, cuts;
      var stop;
      stop, p, k, silent := Receive(stream, call, p, origin, cuts, k);
      if stop.Some? {
        exit, hi := stop.value, before;
        return;
      }
      LastIsLive(stream, p.last, origin, k);
      var result := stream.Read(p.last.value);
      if |result.rows| == 0 {
        continue;
      }
      ghost var answer := stream.request.answer;
      var sent, batchSent;
      sent, batchSent, cuts, hi := SendSlice(call, answer, result, before, stream.at, wire, cuts, p.batchSent);
      OnTrackSlice(was, before, n, step, wire, stream.at, cuts, hi);
      p := p.(batchSent := batchSent);
      if !sent.Sent? {
        exit, silent := if sent.Refused? then SendRefused else Thrown, false;
        return;
      }
      SliceSends(was, before, hi, wire, cuts);
      p := p.(total := p.total + |result.rows|);
    }
  }

  // ----- Clean-up -----

  /** Statements issued by the end of a run that was opened: its cursor trace, or the direct statement alone. */
  function ClosedTrace(useCursor: bool, local: bool, trace: seq<Statement>, k: nat, commit: bool): seq<Statement> {
    if useCursor then trace + Fetches(k) + CloseTrace(local, commit) else trace
  }

  method AbortStream(stream: StreamingQuery, ghost last: Option<Handle>, ghost origin: Origin, ghost k: nat)
    requires Held(stream, last, origin, k)
    modifies stream, stream.db
    ensures stream.db.Valid() && stream.request == old(stream.request) && stream.Finished()
    ensures stream.db.statements == ClosedTrace(stream.request.useCursor, origin.local, origin.trace, k, false)
    ensures stream.db.poolCalls == origin.poolCalls
              + if origin.pooled then [Released(origin.conn, true)] else []
    ensures Uncleared(stream.db.live, origin.live, last.Some?)
  {
    hide TxnAfter, Fetches;
    assert !stream.useCursor ==> Fetches(0) == [] && origin.trace + [] == origin.trace;
    stream.Abort();
  }

  /** The final Close of an opened run comes to the step at which the exception is raised. */
  predicate Hits(fault: CloseFault, request: Request, local: bool) {
    match fault
    case NoFault => false
    case AtCursor => request.useCursor
    case AtTransaction => request.useCursor && local
    case AtRelease => request.Pooled()
  }

  /** Close, and the Abort of the catch block if an exception interrupts it. */
  method CloseStream(stream: StreamingQuery, fault: CloseFault, ghost origin: Origin, ghost k: nat)
    returns (threw: bool)
    requires Held(stream, None, origin, k) && origin.pooled == stream.request.Pooled()
    modifies stream, stream.db
    ensures stream.db.Valid() && stream.request == old(stream.request) && stream.Finished()
    ensures threw == Hits(fault, stream.request, origin.local)
    ensures stream.db.statements
         == ClosedTrace(stream.request.useCursor, origin.local, origin.trace, k, !threw || fault.AtRelease?)
    ensures stream.db.poolCalls == origin.poolCalls
              + if origin.pooled then [Released(origin.conn, threw || stream.db.txn == Unknown)] else []
    ensures stream.db.live == origin.live
  {
    hide TxnAfter, Fetches, NextTxn, Succeeds;
    assert !stream.useCursor ==> Fetches(0) == [] && origin.trace + [] == origin.trace;
    threw := stream.Close(fault);
    if threw {
      stream.Abort();
    }
  }

  /** PQclear on the last result, if there is one. */
  method ClearLast(stream: StreamingQuery, last: Option<Handle>, ghost origin: Origin, ghost k: nat)
    requires Held(stream, last, origin, k)
    modifies stream.db`live
    ensures Held(stream, None, origin, k)
  {
    hide TxnAfter, Fetches;
    if last.Some? {
      stream.db.Clear(last.value.id);
    }
  }

  // ----- After the loop -----

  /** The trailer of a drained run: the rows sent, or a fixed one when not even a schema was seen. */
  function FinalTrailer(answer: PgResult, schemaOpen: bool, total: nat): Trailer {
    if schemaOpen then TrailerOf(answer, total) else Trailer("SELECT 0", 0)
  }

  /** BuildCommandTrailer: a command's own count, or the rows of this one result. */
  function CommandTrailer(result: PgResult): Trailer {
    Trailer(result.commandTag, if result.status.CommandOk? then result.commandTuples else |result.rows|)
  }

  /** The data batches of a complete run: those of the loop, or one empty batch. */
  function CompleteCuts(request: Request, fetch: nat, wire: nat): seq<Range>
    requires fetch >= 1 && wire >= 1
  {
    SentCuts(|request.answer.rows|, StepOf(request, fetch), wire)
  }

  /** Sends the empty batch of an answer without rows, then the trailer. */
  method Conclude(stream: StreamingQuery, call: Call, p: Progress, ghost origin: Origin, ghost cutsIn: seq<Range>,
                  ghost hi: nat, ghost k: nat, ghost silent: bool)
    returns (exit: SendExit, trailer: Trailer, ghost cuts: seq<Range>)
    requires Left(stream, call.attempted, call.accepted, Drained, p, origin, cutsIn, hi, k, silent)
    modifies call
    ensures cuts <= CompleteCuts(stream.request, stream.fetchSize, origin.wire) && Chain(cuts, 0, hi)
    ensures exit.Sent? ==>
              && trailer == FinalTrailer(stream.request.answer, cuts != [], hi)
              && call.attempted == call.accepted
              && call.accepted == DataChunks(stream.request.answer, cuts) + [TrailerChunk(Some(trailer))]
              && (!silent ==> cuts == CompleteCuts(stream.request, stream.fetchSize, origin.wire) != [])
    ensures exit.Threw? ==> call.attempted == call.accepted == DataChunks(stream.request.answer, cuts)
    ensures exit.Refused? ==> RefusedAfter(call.attempted, call.accepted, DataChunks(stream.request.answer, cuts))
    ensures call.Calm() ==> exit.Sent?
  {
    ghost var answer := stream.request.answer;
    hide Held, Cuts, DataChunks, BatchBytes, FetchFails;
    cuts := cutsIn;
    trailer := FinalTrailer(stream.request.answer, p.schemaOpen, p.total);
    if p.schemaOpen && !p.batchSent {
      LastIsLive(stream, p.last, origin, k);
      var result := stream.Read(p.last.value);
      EmptyBatch(result, answer);
      exit := SendCut(call, answer, result, 0, 0, cuts, 0, 0, p.batchSent);
      if !exit.Sent? {
        return;
      }
      cuts := cuts + [Range(0, 0)];
    } else if cuts != [] {
      NonEmptyCuts(cuts, |answer.rows|, StepOf(stream.request, stream.fetchSize), origin.wire);
    }
    var threw := call.Throws();
    if threw {
      return Threw, trailer, cuts;
    }
    var ok := call.Write(TrailerChunk(Some(trailer)));
    exit := if ok then Sent else Refused;
  }

  lemma NonEmptyCuts(cuts: seq<Range>, n: nat, step: nat, wire: nat)
    requires step >= 1 && wire >= 1 && cuts <= Cuts(0, n, step, wire) && cuts != []
    ensures n > 0
  {
  }

  /** Everything up to the last attempt was accepted; the last attempt may have been refused. */
  ghost predicate RefusedAfter(attempted: seq<Chunk>, accepted: seq<Chunk>, data: seq<Chunk>) {
    accepted == data && (attempted == data || exists c: Chunk :: attempted == data + [c])
  }

  // ----- The RPC -----

  datatype Status = OK | CANCELLED | NEVER

  /** How a run ends: the query did not open, it never returns, the client went away, an error was reported,
      an exception was caught, one was caught after the trailer was accepted (with the transaction already committed or
      not), a command finished, or the answer was streamed. */
  datatype Exit =
    | NotOpened(message: string) | Hung | Cancelled | Reported(message: string) | Caught(message: string)
    | CaughtLate(message: string, trailer: Trailer, committed: bool) | CommandDone | Streamed

  /** What the client side of the call has seen when the run ends. `cuts` are the data batches sent, covering
      rows [0, hi) of the answer. */
  ghost predicate Emitted(exit: Exit, status: Status, attempted: seq<Chunk>, accepted: seq<Chunk>, request: Request,
                          fetch: nat, wire: nat, cuts: seq<Range>, hi: nat, silent: bool)
  {
    && fetch >= 1 && wire >= 1 && hi <= |request.answer.rows| && Chain(cuts, 0, hi)
    && cuts <= CompleteCuts(request, fetch, wire)
    && match exit
       case Streamed =>
         && status == OK && attempted == accepted
         && accepted == DataChunks(request.answer, cuts) + [TrailerChunk(Some(FinalTrailer(request.answer, cuts != [], hi)))]
         && (!silent ==> cuts == CompleteCuts(request, fetch, wire) != [])
       case CommandDone =>
         && status == OK && attempted == accepted && cuts == [] && request.answer.fields == []
         && accepted == [TrailerChunk(Some(CommandTrailer(FirstResult(request, fetch))))]
       case Cancelled =>
         status == CANCELLED && RefusedAfter(attempted, accepted, DataChunks(request.answer, cuts))
       case Hung =>
         status == NEVER && attempted == accepted == [] && cuts == []
       case CaughtLate(message, trailer, _) =>
         && status == OK
         && attempted == DataChunks(request.answer, cuts) + [TrailerChunk(Some(trailer)), ErrorChunk(Some(message))]
         && (accepted == attempted || accepted == DataChunks(request.answer, cuts) + [TrailerChunk(Some(trailer))])
         && if request.answer.fields == [] && cuts == [] && !silent then
              trailer == CommandTrailer(FirstResult(request, fetch))
            else
              trailer == FinalTrailer(request.answer, cuts != [], hi)
              && (!silent ==> cuts == CompleteCuts(request, fetch, wire) != [])
       case _ =>
         && status == OK && (exit.NotOpened? ==> cuts == [])
         && attempted == DataChunks(request.answer, cuts) + [ErrorChunk(Some(exit.message))]
         && (accepted == attempted || accepted == DataChunks(request.answer, cuts))
  }

  /** The exits on which the query was opened. */
  predicate WasOpened(exit: Exit) {
    !exit.NotOpened? && !exit.Hung?
  }

  /** The exits that end in Close rather than Abort. */
  predicate Normal(exit: Exit) {
    exit.Streamed? || exit.CommandDone?
  }

  /** The exits that end a local transaction with COMMIT rather than ROLLBACK. */
  predicate Commits(exit: Exit) {
    Normal(exit) || (exit.CaughtLate? && exit.committed)
  }

  /** A run that comes to its final Close is late exactly when the exception is raised at a step that Close comes to. */
  ghost predicate Faulted(exit: Exit, fault: CloseFault, request: Request, local: bool) {
    && (Normal(exit) ==> !Hits(fault, request, local))
    && (exit.CaughtLate? ==> Hits(fault, request, local) && exit.committed == fault.AtRelease?)
  }

  /** The exits that clear every result. */
  predicate ClearsAll(exit: Exit) {
    Normal(exit) || exit.Caught? || exit.CaughtLate? || exit.NotOpened?
  }

  /** A batch size: the setting if it is positive. */
  function OrDefault(setting: int, default: nat): (r: nat)
    requires default >= 1
    ensures r >= 1
    ensures r == default || r == setting
    ensures r == setting <==> setting > 0 || setting == default
  {
    if setting > 0 then setting else default
  }

  method WriteErrorChunk(call: Call, message: string)
    modifies call
    ensures call.attempted == old(call.attempted) + [ErrorChunk(Some(message))]
    ensures call.accepted == old(call.accepted) || call.accepted == old(call.accepted) + [ErrorChunk(Some(message))]
    ensures call.Calm() ==> call.accepted == old(call.accepted) + [ErrorChunk(Some(message))]
  {
    var _ := call.Write(ErrorChunk(Some(message)));
  }

  const UNKNOWN_ERROR := "unknown PostgreSQL error"

  /** How an opened run ended, in terms of the request and the replies: the FETCHes of a run that came to its trailer all
      succeeded, unless one failed with an empty error text, and a reported error is PostgreSQL's. */
  ghost predicate Outcome(exit: Exit, request: Request, fetch: nat, replies: nat -> Reply, base: nat, k: nat, hi: nat,
                          silent: bool)
    requires fetch >= 1
  {
    && (silent ==> SilentEnd(request, fetch, replies, base, k, hi))
    && match exit
       case Streamed => !silent ==> request.answer.fields != [] && Completed(request, fetch, replies, base, k)
       case CommandDone => !silent && Completed(request, fetch, replies, base, k)
       case CaughtLate(_, _, _) => !silent ==> Completed(request, fetch, replies, base, k)
       case Reported(message) => !silent && Unusable(request, fetch, replies, base, k, message)
       case _ => true
  }

  /** The exits that leave the last fetched result uncleared, if there is one. */
  predicate LeavesResult(exit: Exit, useCursor: bool, replies: nat -> Reply, base: nat, k: nat) {
    !ClearsAll(exit) && Fetched(useCursor, replies, base, k)
  }

  /** What is live at the end: what was live before, and the last fetched result where the run leaves it. */
  ghost predicate Uncleared(live: set<nat>, before: set<nat>, leaves: bool) {
    if leaves then exists id :: id !in before && live == before + {id} else live == before
  }

  /** What holds when an opened run is over: the chunks it emitted, the statements it issued, its lease returned
      exactly once, and every result cleared except the last one where the run leaves it. */
  ghost predicate Over(stream: StreamingQuery, attempted: seq<Chunk>, accepted: seq<Chunk>, status: Status, exit: Exit,
                       origin: Origin, cuts: seq<Range>, hi: nat, k: nat, silent: bool)
    reads stream, stream.db
  {
    && stream.db.Valid() && stream.Finished() && WasOpened(exit)
    && Emitted(exit, status, attempted, accepted, stream.request, stream.fetchSize, origin.wire, cuts, hi, silent)
    && stream.db.statements == ClosedTrace(stream.request.useCursor, origin.local, origin.trace, k, Commits(exit))
    && stream.db.poolCalls == origin.poolCalls
         + (if origin.pooled then [Released(origin.conn, !Normal(exit) || stream.db.txn == Unknown)] else [])
    && Uncleared(stream.db.live, origin.live,
                 LeavesResult(exit, stream.request.useCursor, stream.db.replies, |origin.trace|, k))
    && Outcome(exit, stream.request, stream.fetchSize, stream.db.replies, |origin.trace|, k, hi, silent)
  }

  /** The client went away: abort, no further chunk. */
  method EndCancelled(stream: StreamingQuery, call: Call, left: PumpExit, p: Progress, ghost origin: Origin,
                      ghost cuts: seq<Range>, ghost hi: nat, ghost k: nat, ghost silent: bool)
    requires left.PollCancelled? || left.SendRefused?
    requires Left(stream, call.attempted, call.accepted, left, p, origin, cuts, hi, k, silent)
    modifies stream, stream.db
    ensures stream.request == old(stream.request)
    ensures Over(stream, call.attempted, call.accepted, CANCELLED, Cancelled, origin, cuts, hi, k, silent)
  {
    CompleteCutsExtend(cuts, stream.request, stream.fetchSize, origin.wire);
    hide Held, TxnAfter, Cuts, DataChunks, ClosedTrace, AllCuts, CompleteCuts, Chain, SilentEnd, Completed, Unusable, Fetched;
    AbortStream(stream, p.last, origin, k);
  }

  /** A failed FETCH or an unusable result: report it, then abort. */
  method EndReported(stream: StreamingQuery, call: Call, left: PumpExit, p: Progress, ghost origin: Origin,
                     ghost cuts: seq<Range>, ghost hi: nat, ghost k: nat, ghost silent: bool)
    returns (message: string)
    requires left.FetchError? || left.BadStatus?
    requires Left(stream, call.attempted, call.accepted, left, p, origin, cuts, hi, k, silent)
    modifies stream, stream.db, call
    ensures stream.request == old(stream.request)
    ensures message == if left.FetchError? then left.message else UNKNOWN_ERROR
    ensures Over(stream, call.attempted, call.accepted, OK, Reported(message), origin, cuts, hi, k, silent)
    ensures call.Calm() ==> call.accepted == call.attempted
  {
    CompleteCutsExtend(cuts, stream.request, stream.fetchSize, origin.wire);
    hide Held, TxnAfter, Cuts, DataChunks, ClosedTrace, AllCuts, CompleteCuts, Chain, SilentEnd, Completed, Unusable, Fetched;
    message := if left.FetchError? then left.message else UNKNOWN_ERROR;
    WriteErrorChunk(call, message);
    AbortStream(stream, p.last, origin, k);
  }

  /** The catch block: clear, abort, then report. */
  method EndCaught(stream: StreamingQuery, call: Call, p: Progress, ghost origin: Origin,
                   ghost cuts: seq<Range>, ghost hi: nat, ghost k: nat, ghost silent: bool, what: string)
    requires Held(stream, p.last, origin, k) && stream.fetchSize >= 1 && origin.wire >= 1
    requires Chain(cuts, 0, hi) && call.attempted == call.accepted == DataChunks(stream.request.answer, cuts)
    requires hi <= |stream.request.answer.rows| && cuts <= CompleteCuts(stream.request, stream.fetchSize, origin.wire)
    requires silent ==> SilentEnd(stream.request, stream.fetchSize, stream.db.replies, |origin.trace|, k, hi)
    modifies stream, stream.db, call
    ensures stream.request == old(stream.request)
    ensures Over(stream, call.attempted, call.accepted, OK, Caught(what), origin, cuts, hi, k, silent)
  {
    hide Held, TxnAfter, Cuts, DataChunks, ClosedTrace, AllCuts, CompleteCuts, Chain, SilentEnd, Completed, Unusable, Fetched;
    ClearLast(stream, p.last, origin, k);
    AbortStream(stream, None, origin, k);
    WriteErrorChunk(call, what);
  }

  /** After the trailer: clear, close, and report an exception that Close raises. */
  method EndTrailed(stream: StreamingQuery, call: Call, last: Option<Handle>, ghost origin: Origin, ghost k: nat,
                    what: string)
    returns (late: bool)
    requires Held(stream, last, origin, k) && origin.pooled == stream.request.Pooled()
    modifies stream, stream.db, call
    ensures stream.db.Valid() && stream.request == old(stream.request) && stream.Finished()
    ensures late == Hits(call.closeFault, stream.request, origin.local)
    ensures stream.db.statements
         == ClosedTrace(stream.request.useCursor, origin.local, origin.trace, k, !late || call.closeFault.AtRelease?)
    ensures stream.db.poolCalls == origin.poolCalls
              + if origin.pooled then [Released(origin.conn, late || stream.db.txn == Unknown)] else []
    ensures stream.db.live == origin.live
    ensures !late ==> call.attempted == old(call.attempted) && call.accepted == old(call.accepted)
    ensures late ==>
              && call.attempted == old(call.attempted) + [ErrorChunk(Some(what))]
              && call.accepted in {old(call.accepted), old(call.accepted) + [ErrorChunk(Some(what))]}
              && (call.Calm() ==> call.accepted == old(call.accepted) + [ErrorChunk(Some(what))])
  {
    hide Held, TxnAfter, ClosedTrace, Hits;
    ClearLast(stream, last, origin, k);
    late := CloseStream(stream, call.closeFault, origin, k);
    if late {
      WriteErrorChunk(call, what);
    }
  }

  lemma LateChunks(answer: PgResult, cuts: seq<Range>, hi: nat, trailer: Chunk, error: Chunk)
    requires Chain(cuts, 0, hi)
    ensures DataChunks(answer, cuts) + [trailer] + [error] == DataChunks(answer, cuts) + [trailer, error]
  {
    hide DataChunks;
  }

  /** A result without columns: its trailer alone, then close. */
  method EndCommand(stream: StreamingQuery, call: Call, p: Progress, ghost origin: Origin,
                    ghost cuts: seq<Range>, ghost hi: nat, ghost k: nat, ghost silent: bool, what: string)
    returns (status: Status, exit: Exit)
    requires Left(stream, call.attempted, call.accepted, Command, p, origin, cuts, hi, k, silent)
    requires origin.pooled == stream.request.Pooled()
    modifies stream, stream.db, call
    ensures stream.request == old(stream.request)
    ensures Over(stream, call.attempted, call.accepted, status, exit, origin, cuts, hi, k, silent)
    ensures call.Calm() ==> (exit.CommandDone? || exit.CaughtLate?) && call.accepted == call.attempted
    ensures Faulted(exit, call.closeFault, stream.request, origin.local)
    ensures exit.Caught? || exit.CaughtLate? ==> exit.message == what
  {
    hide Held, TxnAfter, Cuts, DataChunks, ClosedTrace, AllCuts, CompleteCuts, Chain, CommandTrailer, FirstResult,
         SilentEnd, Completed, Unusable, Fetched, Carried, CarriedOrRefused, SameColumns;
    CompleteCutsExtend(cuts, stream.request, stream.fetchSize, origin.wire);
    NoData(stream.request.answer);
    CarriedMeans(call.attempted, call.accepted, stream.request.answer, cuts, hi);
    LastIsLive(stream, p.last, origin, k);
    var result := stream.Read(p.last.value);
    var ok := call.Write(TrailerChunk(Some(CommandTrailer(result))));
    if !ok {
      assert call.attempted == [] + [TrailerChunk(Some(CommandTrailer(result)))];
      AbortStream(stream, p.last, origin, k);
      return CANCELLED, Cancelled;
    }
    var late := EndTrailed(stream, call, p.last, origin, k, what);
    status, exit := OK, if late then CaughtLate(what, CommandTrailer(result), call.closeFault.AtRelease?) else CommandDone;
  }

  /** The answer is exhausted (or taken to be): finish the stream, then close. */
  method EndDrained(stream: StreamingQuery, call: Call, p: Progress, ghost origin: Origin,
                    ghost cutsIn: seq<Range>, ghost hi: nat, ghost k: nat, ghost silent: bool, what: string)
    returns (status: Status, exit: Exit, ghost cuts: seq<Range>)
    requires Left(stream, call.attempted, call.accepted, Drained, p, origin, cutsIn, hi, k, silent)
    requires origin.pooled == stream.request.Pooled()
    modifies stream, stream.db, call
    ensures stream.request == old(stream.request)
    ensures Over(stream, call.attempted, call.accepted, status, exit, origin, cuts, hi, k, silent)
    ensures call.Calm() ==> (exit.Streamed? || exit.CaughtLate?) && call.accepted == call.attempted
    ensures Faulted(exit, call.closeFault, stream.request, origin.local)
    ensures exit.Caught? || exit.CaughtLate? ==> exit.message == what
  {
    hide Held, TxnAfter, Cuts, DataChunks, ClosedTrace, AllCuts, CompleteCuts, Chain, SilentEnd, Completed, Unusable, Fetched,
         Carried, CarriedOrRefused, SameColumns, TrailerOf;
    var sent, trailer;
    sent, trailer, cuts := Conclude(stream, call, p, origin, cutsIn, hi, k, silent);
    match sent {
      case Threw =>
        EndCaught(stream, call, p, origin, cuts, hi, k, silent, what);
        status, exit := OK, Caught(what);
      case Refused =>
        AbortStream(stream, p.last, origin, k);
        status, exit := CANCELLED, Cancelled;
      case Sent =>
        LateChunks(stream.request.answer, cuts, hi, TrailerChunk(Some(trailer)), ErrorChunk(Some(what)));
        var late := EndTrailed(stream, call, p.last, origin, k, what);
        status, exit := OK, if late then CaughtLate(what, trailer, call.closeFault.AtRelease?) else Streamed;
    }
  }

  /** A run once its query is open: stream, then clean up according to how the loop was left.
      `what` is the text of any exception. */
  method RunOpened(stream: StreamingQuery, call: Call, wire: nat, what: string, ghost origin: Origin)
    returns (status: Status, exit: Exit, ghost cuts: seq<Range>, ghost hi: nat, ghost k: nat, ghost silent: bool)
    requires wire >= 1 && origin.wire == wire && stream.at == 0 && origin.pooled == stream.request.Pooled()
    requires Going(stream, call.attempted, call.accepted, Progress(None, false, false, 0), origin, [], 0)
    modifies stream, stream.db, call
    ensures stream.request == old(stream.request)
    ensures Faulted(exit, call.closeFault, stream.request, origin.local)
    ensures exit.Caught? || exit.CaughtLate? ==> exit.message == what
    ensures Over(stream, call.attempted, call.accepted, status, exit, origin, cuts, hi, k, silent)
    ensures call.Calm() ==> (Normal(exit) || exit.CaughtLate? || exit.Reported?) && call.accepted == call.attempted
    ensures call.Calm() && Obliging(stream.db) ==>
              !silent && (Normal(exit) || exit.CaughtLate? || (exit.Reported? && !stream.request.useCursor))
  {
    hide Held, TxnAfter, Cuts, DataChunks, ClosedTrace, Over, Carried, Chain, Going, Hits, SilentEnd, Completed, Unusable,
         Fetched;
    var left, p;
    left, p, cuts, hi, k, silent := Pump(stream, call, wire, origin);
    match left {
      case PollCancelled =>
        EndCancelled(stream, call, left, p, origin, cuts, hi, k, silent);
        status, exit := CANCELLED, Cancelled;
      case SendRefused =>
        EndCancelled(stream, call, left, p, origin, cuts, hi, k, silent);
        status, exit := CANCELLED, Cancelled;
      case FetchError(_) =>
        var message := EndReported(stream, call, left, p, origin, cuts, hi, k, silent);
        status, exit := OK, Reported(message);
      case BadStatus =>
        var message := EndReported(stream, call, left, p, origin, cuts, hi, k, silent);
        status, exit := OK, Reported(message);
      case Command =>
        var threw := call.Throws();
        if threw {
          CompleteCutsExtend(cuts, stream.request, stream.fetchSize, wire);
          CarriedMeans(call.attempted, call.accepted, stream.request.answer, cuts, hi);
          EndCaught(stream, call, p, origin, cuts, hi, k, silent, what);
          status, exit := OK, Caught(what);
        } else {
          status, exit := EndCommand(stream, call, p, origin, cuts, hi, k, silent, what);
        }
      case Drained =>
        status, exit, cuts := EndDrained(stream, call, p, origin, cuts, hi, k, silent, what);
      case Thrown =>
        CompleteCutsExtend(cuts, stream.request, stream.fetchSize, wire);
        CarriedMeans(call.attempted, call.accepted, stream.request.answer, cuts, hi);
        EndCaught(stream, call, p, origin, cuts, hi, k, silent, what);
        status, exit := OK, Caught(what);
    }
  }

  lemma CarriedMeans(attempted: seq<Chunk>, accepted: seq<Chunk>, answer: PgResult, cuts: seq<Range>, hi: nat)
    requires Carried(attempted, accepted, answer, cuts, hi)
    ensures Chain(cuts, 0, hi) && attempted == accepted == DataChunks(answer, cuts)
  {
  }

  lemma NoData(answer: PgResult)
    ensures DataChunks(answer, []) == []
  {
  }

  lemma CompleteCutsExtend(cuts: seq<Range>, request: Request, fetch: nat, wire: nat)
    requires fetch >= 1 && wire >= 1 && cuts <= AllCuts(request, fetch, wire)
    ensures cuts <= CompleteCuts(request, fetch, wire)
  {
  }

  /** The number of the first FETCH's statement, when `n` statements came before the run. */
  function FetchBase(request: Request, txn: Txn, n: nat): nat {
    n + if request.useCursor && txn == Idle then 2 else 1
  }

  /** The whole RPC. `granted` is what the pool or the session store hands out for the request. */
  method Serve(db: Backend, call: Call, request: Request, granted: Result<nat, string>, fetchRows: int, wireBatchRows: int,
               what: string)
    returns (status: Status, exit: Exit, ghost cuts: seq<Range>, ghost hi: nat, ghost k: nat, ghost silent: bool)
    requires db.Valid() && call.attempted == call.accepted == []
    modifies db, call
    ensures Emitted(exit, status, call.attempted, call.accepted, request,
                    OrDefault(fetchRows, 10000), OrDefault(wireBatchRows, 1000), cuts, hi, silent)
    ensures call.Calm() ==> call.accepted == call.attempted
    // The run never returns exactly when a local BEGIN is followed by a failing DECLARE.
    ensures exit.Hung? <==> granted.Ok? && Deadlocks(request, old(db.txn), |old(db.statements)|, db.replies)
    ensures exit.Hung? ==> db.statements == old(db.statements) + [Begin, Declare]
    // Statements and transaction block of an opened run.
    ensures WasOpened(exit) <==> granted.Ok? && CanOpen(request, old(db.txn), |old(db.statements)|, db.replies)
    ensures !exit.Hung? ==> db.Valid()
    ensures WasOpened(exit) && request.useCursor ==>
              db.statements == old(db.statements) + CursorTrace(old(db.txn) == Idle, k, Commits(exit))
    ensures WasOpened(exit) && request.useCursor && old(db.txn) == Idle ==> db.txn in {Idle, Unknown}
    ensures WasOpened(exit) && request.useCursor && old(db.txn) != Idle ==>
              old(db.txn) == InTrans && db.txn in {InTrans, InError, Unknown}
    ensures WasOpened(exit) && !request.useCursor ==>
              db.statements == old(db.statements) + [Direct(request.blockAfter)]
    // What is reported: an exception's text, or why the query did not open.
    ensures exit.Caught? || exit.CaughtLate? ==> exit.message == what
    ensures exit.NotOpened? ==>
              exit.message == if granted.Ok? then OpenError(request, old(db.txn), |old(db.statements)|, db.replies)
                              else if request.Pooled() then NO_CONNECTION else granted.error
    // A query that does not open issues no COMMIT and no ROLLBACK.
    ensures exit.NotOpened? ==>
              db.statements == old(db.statements) + if granted.Ok? then FailedTrace(request, old(db.txn)) else []
    // The lease: returned exactly once, and as broken unless the run ended normally on a live connection.
    ensures WasOpened(exit) && request.Pooled() ==>
              db.poolCalls == old(db.poolCalls)
                + [Acquired(granted.value), Released(granted.value, !Normal(exit) || db.txn == Unknown)]
    ensures !request.Pooled() ==> db.poolCalls == old(db.poolCalls)
    // A pooled call that hangs never returns its lease.
    ensures exit.Hung? && request.Pooled() ==> db.poolCalls == old(db.poolCalls) + [Acquired(granted.value)]
    // A pooled query that does not open keeps its lease for good exactly when it uses a cursor.
    ensures exit.NotOpened? && request.Pooled() ==>
              db.poolCalls == old(db.poolCalls)
                + if granted.Err? then []
                  else if request.useCursor then [Acquired(granted.value)]
                  else [Acquired(granted.value), Released(granted.value, true)]
    // Results: all cleared, except that an error report or a cancellation leaves the last fetched one.
    ensures !exit.Hung? ==>
              Uncleared(db.live, old(db.live), LeavesResult(exit, request.useCursor, db.replies,
                                                            FetchBase(request, old(db.txn), |old(db.statements)|), k))
    // What the replies have to do with the end of the run.
    ensures WasOpened(exit) ==>
              Outcome(exit, request, OrDefault(fetchRows, 10000), db.replies,
                      FetchBase(request, old(db.txn), |old(db.statements)|), k, hi, silent)
    ensures WasOpened(exit) && call.Calm() ==>
              Normal(exit) || exit.CaughtLate? || exit.Reported?
    // An exception in Close comes after the trailer, and only then are there two terminal chunks.
    ensures WasOpened(exit) ==> Faulted(exit, call.closeFault, request, request.useCursor && old(db.txn) == Idle)
    // An undisturbed run on a usable connection streams the whole answer.
    ensures call.Calm() && Obliging(db) && granted.Ok? && old(db.txn) in {Idle, InTrans}
            && (request.useCursor || request.answer.status in {TuplesOk, CommandOk}) ==>
              && !silent
              && if Hits(call.closeFault, request, request.useCursor && old(db.txn) == Idle) then exit.CaughtLate?
                 else exit == if request.answer.fields == [] then CommandDone else Streamed
  {
    hide Over, TxnAfter, NextTxn, SilentEnd, Completed, Unusable, Fetched, DataChunks, Held, Cuts, Emitted, Going,
         CursorTrace, ClosedTrace, Hits, Deadlocks, FailedTrace, OpenError, Outcome, Uncleared, LeavesResult;
    var wire := OrDefault(wireBatchRows, 1000);
    var stream := new StreamingQuery(db, OrDefault(fetchRows, 10000), request);
    cuts, hi, k, silent := [], 0, 0, false;
    ghost var created := db.created;
    var r := stream.Open(granted);
    match r {
      case Deadlocked =>
        NothingSent(request, stream.fetchSize, wire, "", call.accepted);
        return NEVER, Hung, [], 0, 0, false;
      case OpenFailed(message) =>
        Refuse(call, request, stream.fetchSize, wire, message);
        NothingLeft(db.live, message, request.useCursor, db.replies, FetchBase(request, old(db.txn), |old(db.statements)|));
        return OK, NotOpened(message), [], 0, 0, false;
      case Opened =>
    }
    ghost var origin := Origin(granted.value, request.Pooled(), stream.startedLocalTxn, db.statements, db.poolCalls,
                               old(db.live), wire);
    StartGoing(stream, call.attempted, call.accepted, origin, created);
    status, exit, cuts, hi, k, silent := RunOpened(stream, call, wire, what, origin);
    OverMeans(stream, call.attempted, call.accepted, status, exit, origin, cuts, hi, k, silent, old(db.statements), old(db.txn));
    EndsAsExpected(exit, status, call.attempted, call.accepted, request, stream.fetchSize, wire, cuts, hi, silent, db.replies,
                   |origin.trace|, k);
  }

  /** Reports why the query did not open; nothing else is sent. */
  method Refuse(call: Call, ghost request: Request, ghost fetch: nat, ghost wire: nat, message: string)
    requires fetch >= 1 && wire >= 1 && call.attempted == call.accepted == []
    modifies call
    ensures Emitted(NotOpened(message), OK, call.attempted, call.accepted, request, fetch, wire, [], 0, false)
    ensures call.Calm() ==> call.accepted == call.attempted
  {
    hide Emitted;
    WriteErrorChunk(call, message);
    assert call.attempted == [ErrorChunk(Some(message))];
    assert call.accepted == [] || call.accepted == [ErrorChunk(Some(message))];
    NothingSent(request, fetch, wire, message, call.accepted);
  }

  /** The part of a run's end that does not depend on where its statements started. */
  lemma EndsAsExpected(exit: Exit, status: Status, attempted: seq<Chunk>, accepted: seq<Chunk>, request: Request, fetch: nat,
                       wire: nat, cuts: seq<Range>, hi: nat, silent: bool, replies: nat -> Reply, base: nat, k: nat)
    requires Emitted(exit, status, attempted, accepted, request, fetch, wire, cuts, hi, silent)
    requires Outcome(exit, request, fetch, replies, base, k, hi, silent)
    ensures exit.CommandDone? ==> request.answer.fields == []
    ensures exit.Streamed? && !silent ==> request.answer.fields != []
    ensures exit.Reported? && !request.useCursor ==> request.answer.status !in {TuplesOk, CommandOk}
  {
  }

  lemma CarriedNothing(answer: PgResult)
    ensures Carried([], [], answer, [], 0)
  {
  }

  lemma NothingSent(request: Request, fetch: nat, wire: nat, message: string, accepted: seq<Chunk>)
    requires fetch >= 1 && wire >= 1
    ensures Emitted(Hung, NEVER, [], [], request, fetch, wire, [], 0, false)
    ensures accepted == [] || accepted == [ErrorChunk(Some(message))] ==>
              Emitted(NotOpened(message), OK, [ErrorChunk(Some(message))], accepted, request, fetch, wire, [], 0, false)
  {
    hide Cuts;
    assert DataChunks(request.answer, []) == [];
    assert [] + [ErrorChunk(Some(message))] == [ErrorChunk(Some(message))];
  }

  lemma NothingLeft(live: set<nat>, message: string, useCursor: bool, replies: nat -> Reply, base: nat)
    ensures Uncleared(live, live, LeavesResult(NotOpened(message), useCursor, replies, base, 0))
  {
  }

  /** Opening establishes the loop's invariant. */
  lemma StartGoing(stream: StreamingQuery, attempted: seq<Chunk>, accepted: seq<Chunk>, origin: Origin, created: nat)
    requires stream.Valid() && stream.connection == Some(origin.conn) && stream.pooled == origin.pooled && stream.at == 0
    requires stream.useCursor == stream.cursorOpen == stream.request.useCursor && stream.startedLocalTxn == origin.local
    requires stream.useCursor ==> stream.db.txn == InTrans && stream.immediate.None? && stream.db.live == origin.live
    requires !stream.useCursor ==>
               && !stream.immediateDone && stream.immediate == Some(Handle(created, stream.request.answer))
               && created !in origin.live && stream.db.live == origin.live + {created}
    requires stream.db.statements == origin.trace && stream.db.poolCalls == origin.poolCalls
    requires attempted == accepted == [] && origin.wire >= 1
    ensures Going(stream, attempted, accepted, Progress(None, false, false, 0), origin, [], 0)
  {
    var request := stream.request;
    CarriedNothing(request.answer);
    OnTrackStart(|request.answer.rows|, StepOf(request, stream.fetchSize), origin.wire);
    OnCountStart(|request.answer.rows|, stream.fetchSize);
    hide Carried, OnTrack, OnCount, TxnAfter;
    assert origin.trace + Fetches(0) == origin.trace;
  }

  lemma OverMeans(stream: StreamingQuery, attempted: seq<Chunk>, accepted: seq<Chunk>, status: Status, exit: Exit,
                  origin: Origin, cuts: seq<Range>, hi: nat, k: nat, silent: bool, before: seq<Statement>, txn: Txn)
    requires Over(stream, attempted, accepted, status, exit, origin, cuts, hi, k, silent)
    requires txn == TxnAfter(stream.db.start, before, |before|, stream.db.replies)
    requires stream.request.useCursor ==>
               txn in {Idle, InTrans} && origin.local == (txn == Idle) && origin.trace == before + OpenTrace(txn == Idle)
    ensures stream.db.Valid() && WasOpened(exit)
    ensures Emitted(exit, status, attempted, accepted, stream.request, stream.fetchSize, origin.wire, cuts, hi, silent)
    ensures stream.request.useCursor ==>
              && stream.db.statements == before + CursorTrace(txn == Idle, k, Commits(exit))
              && (txn == Idle ==> stream.db.txn in {Idle, Unknown})
              && (txn == InTrans ==> stream.db.txn in {InTrans, InError, Unknown})
    ensures !stream.request.useCursor ==> stream.db.statements == origin.trace
    ensures stream.db.poolCalls == origin.poolCalls
              + if origin.pooled then [Released(origin.conn, !Normal(exit) || stream.db.txn == Unknown)] else []
    ensures Uncleared(stream.db.live, origin.live,
                      LeavesResult(exit, stream.request.useCursor, stream.db.replies, |origin.trace|, k))
    ensures Outcome(exit, stream.request, stream.fetchSize, stream.db.replies, |origin.trace|, k, hi, silent)
  {
    hide TxnAfter, CursorTrace, OpenTrace, Outcome, Emitted, Uncleared, LeavesResult;
    if stream.request.useCursor {
      ClosedIsCursorTrace(before, origin.local, k, Commits(exit));
      hide ClosedTrace;
      Brackets(stream.db, before, origin.local, k, Commits(exit));
    }
  }

  lemma ClosedIsCursorTrace(before: seq<Statement>, local: bool, k: nat, commit: bool)
    ensures ClosedTrace(true, local, before + OpenTrace(local), k, commit) == before + CursorTrace(local, k, commit)
  {
  }

  lemma Brackets(db: Backend, before: seq<Statement>, local: bool, k: nat, commit: bool)
    requires db.Valid() && db.statements == before + CursorTrace(local, k, commit)
    requires TxnAfter(db.start, before, |before|, db.replies) != Unknown
    ensures local ==> db.txn in {Idle, Unknown}
    ensures !local && TxnAfter(db.start, before, |before|, db.replies) == InTrans ==> db.txn in {InTrans, InError, Unknown}
  {
    CursorQueryBrackets(db.start, before, local, k, commit, db.replies);
  }
}
