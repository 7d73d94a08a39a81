/** The chunk stream between server and client: how rows are cut into batches
    (src/service/mtdd_shard_service.cpp:226-327) and how the client folds chunks back into rows
    (integration/lib/grpc-query-client.js). */
module Chunks {
  import opened Common
  import opened RawBatch
  import Decimal

  // ----- Chunks -----

  datatype Schema = Schema(command: string, fields: seq<Field>)

  datatype Trailer = Trailer(commandTag: string, rowCount: int)

  /** A ResultChunk. The FlexBuffers metadata is opaque: present or not, it decodes to what was encoded. */
  datatype Chunk =
    | SchemaChunk(schema: Option<Schema>, payload: seq<byte>)
    | BatchChunk(payload: seq<byte>)
    | TrailerChunk(trailer: Option<Trailer>)
    | ErrorChunk(message: Option<string>)
    | UnknownChunk
  {
    predicate Terminal() { TrailerChunk? || ErrorChunk? }
  }

  // ----- Cutting rows into batches -----

  /** A half-open range of row numbers. */
  datatype Range = Range(lo: nat, hi: nat)

  /** The wire batches of one fetched slice [lo, hi): at most `wire` rows each. */
  function SliceCuts(lo: nat, hi: nat, wire: nat): seq<Range>
    requires wire >= 1
    decreases hi - lo
  {
    if lo >= hi then [] else [Range(lo, Min(lo + wire, hi))] + SliceCuts(lo + wire, hi, wire)
  }

  /** All wire batches from row `at` on, when a fetch returns at most `fetch` rows. */
  function Cuts(at: nat, n: nat, fetch: nat, wire: nat): seq<Range>
    requires fetch >= 1 && wire >= 1
    decreases n - at
  {
    if at >= n then [] else SliceCuts(at, Min(at + fetch, n), wire) + Cuts(at + fetch, n, fetch, wire)
  }

  /** Where the first `k` cuts end, when the first one starts at `lo`. */
  function EndOf(cuts: seq<Range>, lo: nat, k: nat): nat
    requires k <= |cuts|
  {
    if k == 0 then lo else cuts[k - 1].hi
  }

  /** `cuts` lead from row `lo` to row `hi` without gap or overlap. */
  predicate Chain(cuts: seq<Range>, lo: nat, hi: nat) {
    && (forall i :: 0 <= i < |cuts| ==> cuts[i].lo == EndOf(cuts, lo, i) && cuts[i].lo <= cuts[i].hi <= hi)
    && EndOf(cuts, lo, |cuts|) == hi
  }

  /** No cut is empty and none has more than `most` rows. */
  predicate Sized(cuts: seq<Range>, most: nat) {
    forall i :: 0 <= i < |cuts| ==> cuts[i].lo < cuts[i].hi <= cuts[i].lo + most
  }

  lemma ChainAppend(a: seq<Range>, b: seq<Range>, lo: nat, mid: nat, hi: nat)
    requires Chain(a, lo, mid) && Chain(b, mid, hi) && mid <= hi
    ensures Chain(a + b, lo, hi)
  {
    forall i | 0 <= i < |a + b|
      ensures (a + b)[i].lo == EndOf(a + b, lo, i) && (a + b)[i].lo <= (a + b)[i].hi <= hi
    {
      if i >= |a| {
        assert (a + b)[i] == b[i - |a|];
      }
    }
  }

  lemma {:induction false} SliceCutsChain(lo: nat, hi: nat, wire: nat)
    requires wire >= 1 && lo <= hi
    ensures Chain(SliceCuts(lo, hi, wire), lo, hi)
    ensures Sized(SliceCuts(lo, hi, wire), Min(wire, hi - lo))
    decreases hi - lo
  {
    if lo < hi {
      var end := Min(lo + wire, hi);
      SliceCutsChain(end, hi, wire);
      assert SliceCuts(end, hi, wire) == SliceCuts(lo + wire, hi, wire);
      ChainAppend([Range(lo, end)], SliceCuts(end, hi, wire), lo, end, hi);
    }
  }

  lemma {:induction false} SliceCutsCount(lo: nat, hi: nat, wire: nat)
    requires wire >= 1 && lo <= hi
    ensures |SliceCuts(lo, hi, wire)| == CeilDiv(hi - lo, wire)
    decreases hi - lo
  {
    if lo < hi {
      if lo + wire <= hi {
        SliceCutsCount(lo + wire, hi, wire);
      }
      CeilStep(hi - lo, wire);
    } else {
      DivUnique(wire - 1, wire, 0, wire - 1);
    }
  }

  lemma MulGap(q: nat, q': nat, f: nat)
    requires q < q'
    ensures q' * f >= q * f + f
  {
    assert q' * f == q * f + f + (q' - q - 1) * f;
  }

  /** Division is determined by quotient and remainder. */
  lemma DivUnique(k: nat, f: nat, q: nat, r: nat)
    requires r < f && k == q * f + r
    ensures k / f == q && k % f == r
  {
    var q', r' := k / f, k % f;
    assert k == q' * f + r';
    if q < q' {
      MulGap(q, q', f);
    } else if q' < q {
      MulGap(q', q, f);
    }
  }

  lemma DivStep(k: nat, f: nat)
    requires f >= 1 && k >= f
    ensures k / f == (k - f) / f + 1 && k % f == (k - f) % f
  {
    var q, r := (k - f) / f, (k - f) % f;
    assert k - f == q * f + r;
    assert (q + 1) * f == q * f + f;
    DivUnique(k, f, q + 1, r);
  }

  /** ceil(k/w) = 1 + ceil((k-w)/w), the second term being 0 once k <= w. */
  lemma CeilStep(k: nat, w: nat)
    requires k >= 1 && w >= 1
    ensures (k + w - 1) / w == 1 + (if k > w then (k - w + w - 1) / w else 0)
  {
    DivStep(k + w - 1, w);
    if k <= w {
      DivUnique(k - 1, w, 0, k - 1);
    }
  }

  /** The batches of a whole result cover its rows in order, without gap, overlap or empty batch,
      and none exceeds either batch size. */
  lemma {:induction false} CutsCover(at: nat, n: nat, fetch: nat, wire: nat)
    requires fetch >= 1 && wire >= 1 && at <= n
    ensures Chain(Cuts(at, n, fetch, wire), at, n)
    ensures Sized(Cuts(at, n, fetch, wire), Min(fetch, wire))
    decreases n - at
  {
    if at < n {
      var end := Min(at + fetch, n);
      SliceCutsChain(at, end, wire);
      CutsCover(end, n, fetch, wire);
      assert Cuts(end, n, fetch, wire) == Cuts(at + fetch, n, fetch, wire);
      ChainAppend(SliceCuts(at, end, wire), Cuts(end, n, fetch, wire), at, end, n);
    }
  }

  function CeilDiv(k: nat, w: nat): nat
    requires w >= 1
  {
    (k + w - 1) / w
  }

  /** floor(N/F) * ceil(F/W) + ceil((N mod F)/W). */
  function BatchCount(n: nat, fetch: nat, wire: nat): int
    requires fetch >= 1 && wire >= 1
  {
    (n / fetch) * CeilDiv(fetch, wire) + CeilDiv(n % fetch, wire)
  }

  lemma BatchCountStep(n: nat, fetch: nat, wire: nat)
    requires fetch >= 1 && wire >= 1
    ensures n < fetch ==> BatchCount(n, fetch, wire) == CeilDiv(n, wire)
    ensures n >= fetch ==> BatchCount(n, fetch, wire) == CeilDiv(fetch, wire) + BatchCount(n - fetch, fetch, wire)
  {
    var c := CeilDiv(fetch, wire);
    hide CeilDiv;
    if n < fetch {
      DivUnique(n, fetch, 0, n);
      assert 0 * c == 0;
    } else {
      DivStep(n, fetch);
      var q := (n - fetch) / fetch;
      assert (q + 1) * c == q * c + c;
    }
  }

  /** The number of data batches sent for the rows from `at` on. */
  lemma {:induction false} CutsCount(at: nat, n: nat, fetch: nat, wire: nat)
    requires fetch >= 1 && wire >= 1 && at <= n
    ensures |Cuts(at, n, fetch, wire)| == BatchCount(n - at, fetch, wire)
    decreases n - at
  {
    BatchCountStep(n - at, fetch, wire);
    hide BatchCount;
    if n - at < fetch {
      SliceCutsCount(at, n, wire);
      assert Cuts(at, n, fetch, wire) == SliceCuts(at, n, wire);
    } else {
      SliceCutsCount(at, at + fetch, wire);
      CutsCount(at + fetch, n, fetch, wire);
    }
  }

  // ----- What the server sends -----

  /** One batch per cut, the first carrying the schema. */
  function DataChunks(result: PgResult, cuts: seq<Range>): (chunks: seq<Chunk>)
    requires forall i :: 0 <= i < |cuts| ==> cuts[i].lo <= cuts[i].hi
    ensures |chunks| == |cuts|
  {
    seq(|cuts|, i requires 0 <= i < |cuts| => DataChunk(result, cuts[i], i == 0))
  }

  function DataChunk(result: PgResult, cut: Range, first: bool): Chunk
    requires cut.lo <= cut.hi
  {
    var payload := BatchBytes(result, cut.lo, cut.hi);
    if first then SchemaChunk(Some(SchemaOf(result)), payload) else BatchChunk(payload)
  }

  function SchemaOf(result: PgResult): Schema {
    Schema(result.command, result.fields)
  }

  function TrailerOf(result: PgResult, total: nat): Trailer {
    Trailer(result.command + " " + Decimal.ToString(total), total)
  }

  /** A trailer's tag is the command word, a space and the row count in decimal. */
  lemma TagCounts(result: PgResult, total: nat)
    ensures var trailer := TrailerOf(result, total);
            && trailer.rowCount == total && |trailer.commandTag| > |result.command| + 1
            && trailer.commandTag[..|result.command| + 1] == result.command + " "
            && var digits := trailer.commandTag[|result.command| + 1..];
               Decimal.AllDigits(digits) && Decimal.Value(digits) == total
  {
    Decimal.PrintParse(total);
    var tag := result.command + " " + Decimal.ToString(total);
    hide Decimal.ToString, Decimal.Value;
    assert tag[|result.command| + 1..] == Decimal.ToString(total);
    assert tag[..|result.command| + 1] == result.command + " ";
  }

  /** The cuts actually sent for a complete result: an empty result still sends one, empty, batch. */
  function SentCuts(n: nat, fetch: nat, wire: nat): seq<Range>
    requires fetch >= 1 && wire >= 1
  {
    if n == 0 then [Range(0, 0)] else Cuts(0, n, fetch, wire)
  }

  // ----- The client's fold -----

  datatype ClientError = ServerError(message: string) | BatchBeforeSchema | BadBatch(error: DecodeError)

  /** The variables of the client's loop; `stopped` records that it left the loop early. */
  datatype Client<V> = Client(schema: Option<Schema>, trailer: Option<Trailer>, rows: seq<Row<V>>, stopped: bool)

  datatype ClientResult<V> = ClientResult(rowCount: int, fields: seq<Field>, rows: seq<Row<V>>)

  function TakeBatch<V>(st: Client<V>, payload: seq<byte>, decode: (Field, seq<byte>) -> V)
    : Result<Client<V>, ClientError>
    requires st.schema.Some?
  {
    match DecodeBatch(payload, st.schema.value.fields, decode)
    case Err(e) => Err(BadBatch(e))
    case Ok(rows) => Ok(st.(rows := st.rows + rows))
  }

  /** The effect of one chunk on the client. */
  function Take<V>(st: Client<V>, chunk: Chunk, decode: (Field, seq<byte>) -> V): Result<Client<V>, ClientError> {
    match chunk
    case ErrorChunk(Some(message)) => Err(ServerError(message))
    case ErrorChunk(None) => Ok(st.(stopped := true))
    case SchemaChunk(schema, payload) =>
      var st' := if schema.Some? then st.(schema := schema) else st;
      if st'.schema.Some? then TakeBatch(st', payload, decode) else Ok(st')
    case BatchChunk(payload) =>
      if st.schema.None? then Err(BatchBeforeSchema) else TakeBatch(st, payload, decode)
    case TrailerChunk(trailer) => Ok(if trailer.Some? then st.(trailer := trailer) else st)
    case UnknownChunk => Ok(st)
  }

  /** The client after the first `n` chunks; chunks after an early exit are not looked at. */
  function Fold<V>(chunks: seq<Chunk>, n: nat, decode: (Field, seq<byte>) -> V): Result<Client<V>, ClientError>
    requires n <= |chunks|
  {
    if n == 0 then Ok(Client(None, None, [], false))
    else
      match Fold(chunks, n - 1, decode)
      case Err(e) => Err(e)
      case Ok(st) => if st.stopped then Ok(st) else Take(st, chunks[n - 1], decode)
  }

  /** What the client reports: the trailer's row count if there is one, else the number of rows it saw. */
  function Finish<V>(st: Client<V>): ClientResult<V> {
    ClientResult(
      if st.trailer.Some? then st.trailer.value.rowCount else |st.rows|,
      if st.schema.Some? then st.schema.value.fields else [],
      st.rows)
  }

  function ClientDecode<V>(chunks: seq<Chunk>, decode: (Field, seq<byte>) -> V): Result<ClientResult<V>, ClientError> {
    match Fold(chunks, |chunks|, decode)
    case Err(e) => Err(e)
    case Ok(st) => Ok(Finish(st))
  }

  lemma {:induction false} FoldSettled<V>(chunks: seq<Chunk>, n: nat, m: nat, decode: (Field, seq<byte>) -> V)
    requires n <= m <= |chunks|
    requires Fold(chunks, n, decode).Err? || Fold(chunks, n, decode).value.stopped
    ensures Fold(chunks, m, decode) == Fold(chunks, n, decode)
    decreases m
  {
    if n < m {
      FoldSettled(chunks, n, m - 1, decode);
    }
  }

  method DecodeQueryStreamToPgResult<V>(chunks: seq<Chunk>, decode: (Field, seq<byte>) -> V)
    returns (r: Result<ClientResult<V>, ClientError>)
    ensures r == ClientDecode(chunks, decode)
  {
    var schema: Option<Schema> := None;
    var trailer: Option<Trailer> := None;
    var rows: seq<Row<V>> := [];
    for i := 0 to |chunks|
      invariant Fold(chunks, i, decode) == Ok(Client(schema, trailer, rows, false))
    {
      hide DecodeBatch;
      if Fold(chunks, i + 1, decode).Err? || Fold(chunks, i + 1, decode).value.stopped {
        FoldSettled(chunks, i + 1, |chunks|, decode);
      }
      match chunks[i] {
        case ErrorChunk(message) =>
          if message.Some? {
            return Err(ServerError(message.value));
          }
          var st := Client(schema, trailer, rows, true);
          return Ok(Finish(st));
        case SchemaChunk(meta, payload) =>
          if meta.Some? {
            schema := meta;
          }
          if schema.Some? {
            var batch := DecodeRawPgBatch(payload, schema.value.fields, decode);
            if batch.Err? {
              return Err(BadBatch(batch.error));
            }
            rows := rows + batch.value;
          }
        case BatchChunk(payload) =>
          if schema.None? {
            return Err(BatchBeforeSchema);
          }
          var batch := DecodeRawPgBatch(payload, schema.value.fields, decode);
          if batch.Err? {
            return Err(BadBatch(batch.error));
          }
          rows := rows + batch.value;
        case TrailerChunk(meta) =>
          if meta.Some? {
            trailer := meta;
          }
        case UnknownChunk =>
      }
    }
    r := Ok(Finish(Client(schema, trailer, rows, false)));
  }

  // ----- What the client does with chunks of every kind -----

  /** A chunk that leaves the client as it was. */
  predicate Idles(c: Chunk) {
    c.UnknownChunk? || c == TrailerChunk(None)
  }

  lemma {:induction false} FoldSkips<V>(a: seq<Chunk>, c: Chunk, b: seq<Chunk>, j: nat, decode: (Field, seq<byte>) -> V)
    requires Idles(c) && j <= |b|
    ensures Fold(a + [c] + b, |a| + 1 + j, decode) == Fold(a + b, |a| + j, decode)
  {
    var x, y := a + [c] + b, a + b;
    hide TakeBatch;
    if j == 0 {
      FoldPrefix(x, y, |a|, decode);
      assert x[|a|] == c;
    } else {
      FoldSkips(a, c, b, j - 1, decode);
      assert x[|a| + j] == b[j - 1] == y[|a| + j - 1];
      hide Take;
    }
  }

  /** Chunks of unknown kinds, and trailers without content, do not matter wherever they come. */
  lemma ClientIgnores<V>(a: seq<Chunk>, c: Chunk, b: seq<Chunk>, decode: (Field, seq<byte>) -> V)
    requires Idles(c)
    ensures ClientDecode(a + [c] + b, decode) == ClientDecode(a + b, decode)
  {
    hide Fold;
    FoldSkips(a, c, b, |b|, decode);
  }

  /** The client has come to the end of these chunks without a failure or an early exit. */
  predicate ReadsOn<V>(chunks: seq<Chunk>, decode: (Field, seq<byte>) -> V) {
    Fold(chunks, |chunks|, decode).Ok? && !Fold(chunks, |chunks|, decode).value.stopped
  }

  lemma NextChunk<V>(a: seq<Chunk>, c: Chunk, b: seq<Chunk>, decode: (Field, seq<byte>) -> V)
    requires ReadsOn(a, decode)
    ensures Fold(a + [c] + b, |a| + 1, decode) == Take(Fold(a, |a|, decode).value, c, decode)
  {
    hide Take;
    assert (a + [c] + b)[|a|] == c;
    FoldPrefix(a + [c] + b, a, |a|, decode);
  }

  /** An ERROR chunk ends it: with its message as the failure, or, without content, with what has been read so far.
      Nothing after it is looked at. */
  lemma ClientStops<V>(a: seq<Chunk>, message: Option<string>, b: seq<Chunk>, decode: (Field, seq<byte>) -> V)
    requires ReadsOn(a, decode)
    ensures ClientDecode(a + [ErrorChunk(message)] + b, decode)
         == match message
            case Some(text) => Err(ServerError(text))
            case None => ClientDecode(a, decode)
  {
    var all := a + [ErrorChunk(message)] + b;
    NextChunk(a, ErrorChunk(message), b, decode);
    hide Fold, TakeBatch;
    FoldSettled(all, |a| + 1, |all|, decode);
  }

  /** A BATCH before any SCHEMA with content makes the client fail. */
  lemma {:induction false} ClientNeedsSchema<V>(
    a: seq<Chunk>, payload: seq<byte>, b: seq<Chunk>, decode: (Field, seq<byte>) -> V)
    requires ReadsOn(a, decode) && forall i :: 0 <= i < |a| ==> !(a[i].SchemaChunk? && a[i].schema.Some?)
    ensures ClientDecode(a + [BatchChunk(payload)] + b, decode) == Err(BatchBeforeSchema)
  {
    var all := a + [BatchChunk(payload)] + b;
    NextChunk(a, BatchChunk(payload), b, decode);
    NoSchemaYet(a, |a|, decode);
    hide Fold, TakeBatch;
    FoldSettled(all, |a| + 1, |all|, decode);
  }

  lemma {:induction false} NoSchemaYet<V>(a: seq<Chunk>, n: nat, decode: (Field, seq<byte>) -> V)
    requires n <= |a| && forall i :: 0 <= i < |a| ==> !(a[i].SchemaChunk? && a[i].schema.Some?)
    ensures Fold(a, n, decode).Ok? ==> Fold(a, n, decode).value.schema.None?
  {
    if n > 0 {
      NoSchemaYet(a, n - 1, decode);
      assert !(a[n - 1].SchemaChunk? && a[n - 1].schema.Some?);
    }
  }

  /** The last trailer and the last schema with content are the ones reported. */
  lemma ClientReports<V>(a: seq<Chunk>, c: Chunk, decode: (Field, seq<byte>) -> V)
    requires ReadsOn(a, decode) && ClientDecode(a + [c], decode).Ok?
    ensures var before, after := ClientDecode(a, decode).value, ClientDecode(a + [c], decode).value;
            match c
            case TrailerChunk(Some(trailer)) =>
              after.rowCount == trailer.rowCount && after.rows == before.rows && after.fields == before.fields
            case SchemaChunk(Some(schema), payload) =>
              after.fields == schema.fields
              && DecodeBatch(payload, schema.fields, decode).Ok?
              && after.rows == before.rows + DecodeBatch(payload, schema.fields, decode).value
            case _ => true
  {
    NextChunk(a, c, [], decode);
    assert a + [c] + [] == a + [c];
    hide Fold, DecodeBatch;
  }

  // ----- What any sent prefix means to the client -----

  lemma {:induction false} FoldPrefix<V>(a: seq<Chunk>, b: seq<Chunk>, n: nat, decode: (Field, seq<byte>) -> V)
    requires n <= |a| && n <= |b| && forall i :: 0 <= i < n ==> a[i] == b[i]
    ensures Fold(a, n, decode) == Fold(b, n, decode)
  {
    if n > 0 {
      FoldPrefix(a, b, n - 1, decode);
    }
  }

  lemma RowObjectsAppend<V>(result: PgResult, lo: nat, mid: nat, hi: nat, decode: (Field, seq<byte>) -> V)
    requires result.Valid() && lo <= mid <= hi <= |result.rows|
    ensures RowObjects(result, lo, mid, decode) + RowObjects(result, mid, hi, decode) == RowObjects(result, lo, hi, decode)
  {
    hide RowOf;
  }

  /** The client's state after the data batches that cover rows [0, hi). */
  function Holding<V>(result: PgResult, hi: nat, any: bool, decode: (Field, seq<byte>) -> V): Client<V>
    requires result.Valid() && hi <= |result.rows|
  {
    Client(if any then Some(SchemaOf(result)) else None, None, RowObjects(result, 0, hi, decode), false)
  }

  lemma DataTake<V>(result: PgResult, lo: nat, hi: nat, first: bool, decode: (Field, seq<byte>) -> V)
    requires result.Valid() && lo <= hi <= |result.rows|
    ensures Take(Holding(result, lo, !first, decode), DataChunk(result, Range(lo, hi), first), decode)
         == Ok(Holding(result, hi, true, decode))
  {
    BatchDecodes(result, lo, hi, decode);
    RowObjectsAppend(result, 0, lo, hi, decode);
    hide DecodeBatch, BatchBytes, RowObjects;
  }

  /** After k data batches the client holds exactly the rows they cover, in order. */
  lemma {:induction false} DataFold<V>(result: PgResult, cuts: seq<Range>, hi: nat, k: nat, decode: (Field, seq<byte>) -> V)
    requires result.Valid() && Chain(cuts, 0, hi) && hi <= |result.rows| && k <= |cuts|
    ensures EndOf(cuts, 0, k) <= hi
    ensures Fold(DataChunks(result, cuts), k, decode)
         == Ok(Holding(result, EndOf(cuts, 0, k), k > 0, decode))
  {
    if k > 0 {
      hide DataChunk, Take, RowObjects;
      DataFold(result, cuts, hi, k - 1, decode);
      DataTake(result, cuts[k - 1].lo, cuts[k - 1].hi, k == 1, decode);
    }
  }

  /** How a stream of data batches ends. */
  datatype Ending =
    | Unfinished | Finished(trailer: Trailer) | Failed(message: string) | FailedLate(trailer: Trailer, message: string)

  function EndingChunks(ending: Ending): seq<Chunk> {
    match ending
    case Unfinished => []
    case Finished(trailer) => [TrailerChunk(Some(trailer))]
    case Failed(message) => [ErrorChunk(Some(message))]
    case FailedLate(trailer, message) => [TrailerChunk(Some(trailer)), ErrorChunk(Some(message))]
  }

  function Received<V>(result: PgResult, cuts: seq<Range>, hi: nat, rowCount: int, decode: (Field, seq<byte>) -> V)
    : ClientResult<V>
    requires result.Valid() && hi <= |result.rows|
  {
    ClientResult(rowCount, if cuts == [] then [] else result.fields, RowObjects(result, 0, hi, decode))
  }

  /** What the client makes of every stream the server can produce: the data batches of some rows
      [0, hi) and then no terminal chunk, a trailer, an error, or a trailer and an error. */
  lemma StreamMeaning<V>(result: PgResult, cuts: seq<Range>, hi: nat, ending: Ending, decode: (Field, seq<byte>) -> V)
    requires result.Valid() && Chain(cuts, 0, hi) && hi <= |result.rows|
    ensures ClientDecode(DataChunks(result, cuts) + EndingChunks(ending), decode)
         == match ending
            case Failed(message) => Err(ServerError(message))
            case FailedLate(_, message) => Err(ServerError(message))
            case Finished(trailer) => Ok(Received(result, cuts, hi, trailer.rowCount, decode))
            case Unfinished => Ok(Received(result, cuts, hi, hi, decode))
  {
    hide RowObjects, Take, DataChunks;
    var data := DataChunks(result, cuts);
    DataFold(result, cuts, hi, |cuts|, decode);
    hide Chain, Fold;
    var st := Holding(result, hi, cuts != [], decode);
    match ending {
      case Unfinished =>
        assert data + [] == data;
      case Finished(trailer) =>
        FoldLast(data, TrailerChunk(Some(trailer)), decode);
        TakeTrailer(st, trailer, decode);
      case Failed(message) =>
        FoldLast(data, ErrorChunk(Some(message)), decode);
        TakeError(st, message, decode);
      case FailedLate(trailer, message) =>
        var first, last := TrailerChunk(Some(trailer)), ErrorChunk(Some(message));
        FoldLast(data, first, decode);
        TakeTrailer(st, trailer, decode);
        FoldLast(data + [first], last, decode);
        TakeError(st.(trailer := Some(trailer)), message, decode);
        assert data + [first, last] == data + [first] + [last];
    }
  }

  lemma TakeTrailer<V>(st: Client<V>, trailer: Trailer, decode: (Field, seq<byte>) -> V)
    ensures Take(st, TrailerChunk(Some(trailer)), decode) == Ok(st.(trailer := Some(trailer)))
  {
  }

  lemma TakeError<V>(st: Client<V>, message: string, decode: (Field, seq<byte>) -> V)
    ensures Take(st, ErrorChunk(Some(message)), decode) == Err(ServerError(message))
  {
  }

  lemma FoldLast<V>(chunks: seq<Chunk>, last: Chunk, decode: (Field, seq<byte>) -> V)
    requires Fold(chunks, |chunks|, decode).Ok? && !Fold(chunks, |chunks|, decode).value.stopped
    ensures Fold(chunks + [last], |chunks| + 1, decode) == Take(Fold(chunks, |chunks|, decode).value, last, decode)
  {
    hide Take;
    FoldPrefix(chunks + [last], chunks, |chunks|, decode);
  }

  /** The chunks of a complete, uninterrupted transfer. */
  function CompleteStream(result: PgResult, fetch: nat, wire: nat): seq<Chunk>
    requires fetch >= 1 && wire >= 1
  {
    SentCutsChain(|result.rows|, fetch, wire);
    DataChunks(result, SentCuts(|result.rows|, fetch, wire))
    + EndingChunks(Finished(TrailerOf(result, |result.rows|)))
  }

  lemma SentCutsChain(n: nat, fetch: nat, wire: nat)
    requires fetch >= 1 && wire >= 1
    ensures Chain(SentCuts(n, fetch, wire), 0, n)
  {
    CutsCover(0, n, fetch, wire);
  }

  /** End-to-end meaning preservation: the client rebuilds exactly the result's rows, in order, with
      their count, whatever the fetch size and the wire batch size. */
  lemma EndToEnd<V>(result: PgResult, fetch: nat, wire: nat, decode: (Field, seq<byte>) -> V)
    requires result.Valid() && fetch >= 1 && wire >= 1
    ensures ClientDecode(CompleteStream(result, fetch, wire), decode)
         == Ok(ClientResult(|result.rows|, result.fields, RowObjects(result, 0, |result.rows|, decode)))
  {
    var n := |result.rows|;
    var cuts := SentCuts(n, fetch, wire);
    SentCutsChain(n, fetch, wire);
    hide RowObjects, ClientDecode, DataChunks;
    assert cuts != [];
    StreamMeaning(result, cuts, n, Finished(TrailerOf(result, n)), decode);
  }
}
