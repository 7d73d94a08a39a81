/** What every QueryStream run means to the client, whatever the batch sizes and however it ends. */
module StreamTheorems {
  import opened Common
  import opened RawBatch
  import opened Chunks
  import opened Postgres
  import opened StreamingQuery
  import opened QueryStream

  // ----- Chunk grammar -----

  /** A prefix of SCHEMA BATCH*, possibly followed by one TRAILER or ERROR, or a lone TRAILER or ERROR. */
  predicate Grammatical(chunks: seq<Chunk>) {
    forall i :: 0 <= i < |chunks| ==>
      if chunks[i].Terminal() then i == |chunks| - 1
      else if i == 0 then chunks[i].SchemaChunk? && chunks[i].schema.Some? else chunks[i].BatchChunk?
  }

  predicate HasTerminal(chunks: seq<Chunk>) {
    exists i :: 0 <= i < |chunks| && chunks[i].Terminal()
  }

  lemma DataKind(answer: PgResult, cuts: seq<Range>, hi: nat, i: nat)
    requires Chain(cuts, 0, hi) && i < |cuts|
    ensures var c := DataChunks(answer, cuts)[i];
            if i == 0 then c.SchemaChunk? && c.schema.Some? else c.BatchChunk?
  {
    assert DataChunks(answer, cuts)[i] == DataChunk(answer, cuts[i], i == 0);
  }

  lemma DataGrammar(answer: PgResult, cuts: seq<Range>, hi: nat, tail: seq<Chunk>)
    requires Chain(cuts, 0, hi) && (tail == [] || (|tail| == 1 && tail[0].Terminal()))
    ensures Grammatical(DataChunks(answer, cuts) + tail)
    ensures HasTerminal(DataChunks(answer, cuts) + tail) <==> tail != []
  {
    var data := DataChunks(answer, cuts);
    forall i | 0 <= i < |cuts|
      ensures if i == 0 then data[i].SchemaChunk? && data[i].schema.Some? else data[i].BatchChunk?
    {
      DataKind(answer, cuts, hi, i);
    }
    hide DataChunks, Chain;
    if tail != [] {
      assert (data + tail)[|cuts|].Terminal();
    }
  }

  /** Everything but the last chunk. */
  function Front(chunks: seq<Chunk>): seq<Chunk> {
    if chunks == [] then [] else chunks[..|chunks| - 1]
  }

  lemma LateGrammar(answer: PgResult, cuts: seq<Range>, hi: nat, trailer: Chunk, error: Chunk)
    requires Chain(cuts, 0, hi) && trailer.Terminal() && error.Terminal()
    ensures var chunks := DataChunks(answer, cuts) + [trailer, error];
            !Grammatical(chunks) && HasTerminal(chunks) && Front(chunks) == DataChunks(answer, cuts) + [trailer]
  {
    var data := DataChunks(answer, cuts);
    hide DataChunks, Chain;
    var chunks := data + [trailer, error];
    assert chunks[|cuts|] == trailer && |chunks| == |cuts| + 2;
  }

  /** The grammar of every run: what the client accepts is grammatical; a run that returns OK attempts exactly one
      terminal chunk, as its last; a cancelled run has no accepted terminal chunk. The one exception is an exception
      raised by Close, which adds an ERROR chunk after an accepted trailer. */
  lemma RunGrammar(exit: Exit, status: Status, attempted: seq<Chunk>, accepted: seq<Chunk>, request: Request,
                   fetch: nat, wire: nat, cuts: seq<Range>, hi: nat, silent: bool)
    requires Emitted(exit, status, attempted, accepted, request, fetch, wire, cuts, hi, silent)
    ensures Grammatical(accepted) <==> !(exit.CaughtLate? && accepted == attempted)
    ensures exit.CaughtLate? ==>
              !Grammatical(attempted) && Grammatical(Front(attempted)) && HasTerminal(Front(attempted))
    ensures status == OK ==> HasTerminal(attempted) && (Grammatical(attempted) <==> !exit.CaughtLate?)
    ensures status == CANCELLED ==> !HasTerminal(accepted)
    ensures accepted <= attempted && |attempted| <= |accepted| + 1
  {
    var data := DataChunks(request.answer, cuts);
    NoData(request.answer);
    DataGrammar(request.answer, cuts, hi, []);
    hide DataChunks, CompleteCuts, Grammatical, HasTerminal, Front;
    assert data + [] == data;
    if exit.CaughtLate? {
      var first, last := TrailerChunk(Some(exit.trailer)), ErrorChunk(Some(exit.message));
      DataGrammar(request.answer, cuts, hi, [first]);
      LateGrammar(request.answer, cuts, hi, first, last);
      assert data + [first, last] == data + [first] + [last];
    } else if status == OK {
      var last := attempted[|attempted| - 1];
      if exit.CommandDone? {
        assert data + [last] == [last];
      }
      assert attempted == data + [last];
      DataGrammar(request.answer, cuts, hi, [last]);
    }
  }

  /** PostgreSQL makes the run report an error: a FETCH that is needed fails with a text, or a direct result cannot be
      used. */
  ghost predicate Loud(request: Request, fetch: nat, replies: nat -> Reply, base: nat)
    requires fetch >= 1
  {
    exists k: nat, text: string :: Unusable(request, fetch, replies, base, k, text)
  }

  lemma FirstFailureUnique(replies: nat -> Reply, base: nat, j: nat, k: nat, text1: string, text2: string)
    requires FetchFails(replies, base, j, text1) && FetchFails(replies, base, k, text2)
    ensures j == k && text1 == text2
  {
  }

  lemma NotUnusable(request: Request, fetch: nat, replies: nat -> Reply, base: nat, k: nat, hi: nat, j: nat, text: string)
    requires fetch >= 1
    requires Completed(request, fetch, replies, base, k) || SilentEnd(request, fetch, replies, base, k, hi)
    ensures !Unusable(request, fetch, replies, base, j, text)
  {
    hide FetchesOf;
    if SilentEnd(request, fetch, replies, base, k, hi) && Unusable(request, fetch, replies, base, j, text) {
      FirstFailureUnique(replies, base, k, j, "", text);
    }
  }

  /** A run that nothing but PostgreSQL disturbs reports an error exactly when PostgreSQL makes it. */
  lemma ReportedIffLoud(exit: Exit, request: Request, fetch: nat, replies: nat -> Reply, base: nat, k: nat, hi: nat,
                        silent: bool)
    requires fetch >= 1 && Outcome(exit, request, fetch, replies, base, k, hi, silent)
    requires Normal(exit) || exit.CaughtLate? || exit.Reported?
    ensures exit.Reported? <==> Loud(request, fetch, replies, base)
  {
    hide Completed, SilentEnd, Unusable;
    if !exit.Reported? {
      forall j: nat, text: string
        ensures !Unusable(request, fetch, replies, base, j, text)
      {
        NotUnusable(request, fetch, replies, base, k, hi, j, text);
      }
    }
  }

  /** The grammar of every run, on what it is given. No run breaks it unless an exception is raised at a step that the final
      Close of an opened query comes to. On a call that nothing else disturbs it is broken exactly then, except where
      PostgreSQL makes the run report an error before. */
  method GrammarIff(db: Backend, call: Call, request: Request, granted: Result<nat, string>, fetchRows: int,
                    wireBatchRows: int, what: string)
    returns (status: Status, exit: Exit)
    requires db.Valid() && call.attempted == call.accepted == []
    modifies db, call
    ensures var n, fetch := |old(db.statements)|, OrDefault(fetchRows, 10000);
            var local := request.useCursor && old(db.txn) == Idle;
            var comesToClose := granted.Ok? && CanOpen(request, old(db.txn), n, db.replies)
                                && !Loud(request, fetch, db.replies, FetchBase(request, old(db.txn), n));
            && (!Grammatical(call.accepted) ==>
                  granted.Ok? && CanOpen(request, old(db.txn), n, db.replies) && Hits(call.closeFault, request, local))
            && (call.Calm() ==>
                  (Grammatical(call.accepted) <==> !(comesToClose && Hits(call.closeFault, request, local))))
  {
    ghost var fetch, wire := OrDefault(fetchRows, 10000), OrDefault(wireBatchRows, 1000);
    ghost var base := FetchBase(request, db.txn, |db.statements|);
    ghost var cuts, hi, k, silent;
    hide Emitted, Grammatical, Outcome, CanOpen, Hits, Loud, TxnAfter, CursorTrace, Uncleared, LeavesResult, FetchBase,
         Deadlocks, FailedTrace;
    status, exit, cuts, hi, k, silent := Serve(db, call, request, granted, fetchRows, wireBatchRows, what);
    RunGrammar(exit, status, call.attempted, call.accepted, request, fetch, wire, cuts, hi, silent);
    if WasOpened(exit) && (Normal(exit) || exit.CaughtLate? || exit.Reported?) {
      ReportedIffLoud(exit, request, fetch, db.replies, base, k, hi, silent);
    }
  }

  // ----- Meaning -----

  /** The rows a query without columns is reported to have touched: PostgreSQL's count for a command, else the rows of the
      one result that is looked at. */
  function CommandCount(request: Request, fetch: nat): int {
    if request.useCursor then Min(fetch, |request.answer.rows|)
    else if request.answer.status.CommandOk? then request.answer.commandTuples
    else |request.answer.rows|
  }

  lemma TrailerCounts(request: Request, fetch: nat, cuts: seq<Range>, hi: nat)
    requires fetch >= 1 && Chain(cuts, 0, hi)
    ensures CommandTrailer(FirstResult(request, fetch)).rowCount == CommandCount(request, fetch)
    ensures FinalTrailer(request.answer, cuts != [], hi).rowCount == hi
  {
  }

  /** What the client makes of every run. Data always decodes: no run makes the client fail with a batch before the
      schema or a malformed batch. With or without trailer the client holds the rows [0, hi) that were sent and
      reports their number; an accepted ERROR chunk surfaces as exactly its message, even after a trailer. */
  lemma RunMeaning<V>(exit: Exit, status: Status, attempted: seq<Chunk>, accepted: seq<Chunk>, request: Request,
                      fetch: nat, wire: nat, cuts: seq<Range>, hi: nat, silent: bool, decode: (Field, seq<byte>) -> V)
    requires Emitted(exit, status, attempted, accepted, request, fetch, wire, cuts, hi, silent)
    requires request.answer.Valid()
    ensures match exit
            case Streamed => ClientDecode(accepted, decode) == Ok(Received(request.answer, cuts, hi, hi, decode))
            case Cancelled => ClientDecode(accepted, decode) == Ok(Received(request.answer, cuts, hi, hi, decode))
            case CommandDone =>
              ClientDecode(accepted, decode)
              == Ok(ClientResult(CommandCount(request, fetch), [], []))
            case Hung => accepted == []
            case CaughtLate(message, trailer, _) =>
              ClientDecode(accepted, decode)
              == if accepted == attempted then Err(ServerError(message))
                 else
                   var command := request.answer.fields == [] && cuts == [] && !silent;
                   Ok(Received(request.answer, cuts, hi, if command then CommandCount(request, fetch) else hi, decode))
            case _ =>
              ClientDecode(accepted, decode)
              == if accepted == attempted then Err(ServerError(exit.message))
                 else Ok(Received(request.answer, cuts, hi, hi, decode))
  {
    var answer := request.answer;
    var data := DataChunks(answer, cuts);
    assert data + [] == data;
    TrailerCounts(request, fetch, cuts, hi);
    hide DataChunks, ClientDecode, RowObjects, BatchBytes, CommandCount, CommandTrailer, FinalTrailer;
    StreamMeaning(answer, cuts, hi, Unfinished, decode);
    match exit {
      case Streamed =>
        StreamMeaning(answer, cuts, hi, Finished(FinalTrailer(answer, cuts != [], hi)), decode);
      case CommandDone =>
        NoData(answer);
        assert [] + accepted == accepted;
        StreamMeaning(answer, cuts, hi, Finished(CommandTrailer(FirstResult(request, fetch))), decode);
        assert RowObjects(answer, 0, 0, decode) == [];
      case NotOpened(message) => StreamMeaning(answer, cuts, hi, Failed(message), decode);
      case Reported(message) => StreamMeaning(answer, cuts, hi, Failed(message), decode);
      case Caught(message) => StreamMeaning(answer, cuts, hi, Failed(message), decode);
      case CaughtLate(message, trailer, _) =>
        StreamMeaning(answer, cuts, hi, Finished(trailer), decode);
        StreamMeaning(answer, cuts, hi, FailedLate(trailer, message), decode);
      case Cancelled =>
      case Hung =>
    }
  }

  /** What a complete run sends is the complete stream of its answer, cut at its fetch and wire sizes. */
  lemma CompleteRun(request: Request, attempted: seq<Chunk>, accepted: seq<Chunk>, fetch: nat, wire: nat,
                    cuts: seq<Range>, hi: nat)
    requires Emitted(Streamed, OK, attempted, accepted, request, fetch, wire, cuts, hi, false)
    ensures fetch >= 1 && wire >= 1 && hi == |request.answer.rows|
    ensures accepted == CompleteStream(request.answer, StepOf(request, fetch), wire)
  {
    CompleteCoversAll(request, fetch, wire, hi);
    hide DataChunks, SentCuts, Chain, TrailerOf;
  }

  /** Two complete runs over the same answer give the client the same result, whatever their fetch and wire sizes. */
  lemma BatchSizesDoNotMatter<V>(
    answer: PgResult, request1: Request, attempted1: seq<Chunk>, accepted1: seq<Chunk>, fetch1: nat, wire1: nat,
    cuts1: seq<Range>, hi1: nat, request2: Request, attempted2: seq<Chunk>, accepted2: seq<Chunk>, fetch2: nat,
    wire2: nat, cuts2: seq<Range>, hi2: nat, decode: (Field, seq<byte>) -> V)
    requires answer.Valid() && request1.answer == request2.answer == answer
    requires Emitted(Streamed, OK, attempted1, accepted1, request1, fetch1, wire1, cuts1, hi1, false)
    requires Emitted(Streamed, OK, attempted2, accepted2, request2, fetch2, wire2, cuts2, hi2, false)
    ensures ClientDecode(accepted1, decode) == ClientDecode(accepted2, decode)
         == Ok(ClientResult(|answer.rows|, answer.fields, RowObjects(answer, 0, |answer.rows|, decode)))
  {
    hide ClientDecode, RowObjects, CompleteStream, Emitted;
    CompleteRun(request1, attempted1, accepted1, fetch1, wire1, cuts1, hi1);
    CompleteRun(request2, attempted2, accepted2, fetch2, wire2, cuts2, hi2);
    EndToEnd(answer, StepOf(request1, fetch1), wire1, decode);
    EndToEnd(answer, StepOf(request2, fetch2), wire2, decode);
  }

  lemma CompleteCoversAll(request: Request, fetch: nat, wire: nat, hi: nat)
    requires fetch >= 1 && wire >= 1 && Chain(CompleteCuts(request, fetch, wire), 0, hi)
    ensures hi == |request.answer.rows| && CompleteCuts(request, fetch, wire) != []
  {
    SentCutsChain(|request.answer.rows|, StepOf(request, fetch), wire);
  }

  // ----- Exact work -----

  lemma {:induction false} BatchWork(n: nat, step: nat, wire: nat)
    requires step >= 1 && wire >= 1
    ensures var cuts := SentCuts(n, step, wire);
            |cuts| == (if n == 0 then 1 else BatchCount(n, step, wire)) && (n > 0 ==> Sized(cuts, Min(step, wire)))
  {
    hide BatchCount, Cuts, Chain, Sized;
    if n > 0 {
      CutsCount(0, n, step, wire);
      CutsCover(0, n, step, wire);
    }
  }

  /** A complete run of N rows sends floor(N/F)*ceil(F/W) + ceil((N mod F)/W) data chunks (1 if N = 0), none with more
      than min(F, W) rows and none but an empty answer's without rows; through a cursor it issues ceil(N/F) + 1 FETCHes
      (2 if N = 0). */
  lemma {:induction false} ExactWork(request: Request, fetch: nat, wire: nat)
    requires fetch >= 1 && wire >= 1
    ensures var n, step := |request.answer.rows|, StepOf(request, fetch);
            var cuts := CompleteCuts(request, fetch, wire);
            && |cuts| == (if n == 0 then 1 else BatchCount(n, step, wire))
            && (n > 0 ==> Sized(cuts, Min(step, wire)))
            && FetchesLeft(0, n, fetch, false) == (if n == 0 then 2 else CeilDiv(n, fetch) + 1)
  {
    hide BatchCount, CeilDiv, FetchesLeft, Sized, SentCuts, StepOf;
    BatchWork(|request.answer.rows|, StepOf(request, fetch), wire);
    FetchCount(0, |request.answer.rows|, fetch);
  }

  // ----- Where the row count is not the number of rows -----

  /** The last accepted chunk is a trailer with this row count. */
  predicate Reports(accepted: seq<Chunk>, count: int) {
    && accepted != []
    && var last := accepted[|accepted| - 1];
       last.TrailerChunk? && last.trailer.Some? && last.trailer.value.rowCount == count
  }

  /** `j` FETCHes succeed and the next one fails with an empty error text. */
  ghost predicate SilentAfter(replies: nat -> Reply, base: nat, j: nat) {
    FetchFails(replies, base, j + 1, "")
  }

  /** The first FETCH that fails does so with an empty error text, and rows are still to come. */
  ghost predicate CutSilently(replies: nat -> Reply, base: nat, n: nat, fetch: nat) {
    exists j: nat :: j * fetch < n && SilentAfter(replies, base, j)
  }

  /** A FETCH that starts before the last row is not the last FETCH. */
  lemma FetchBeforeEnd(j: nat, n: nat, fetch: nat)
    requires fetch >= 1 && j * fetch < n
    ensures j + 1 < FetchesLeft(0, n, fetch, false)
  {
    FetchCount(0, n, fetch);
    assert (j + 1) * fetch == j * fetch + fetch;
    DivAtLeast(n + fetch - 1, fetch, j + 1);
  }

  lemma {:induction false} DivAtLeast(a: nat, f: nat, m: nat)
    requires f >= 1 && m * f <= a
    ensures m <= a / f
    decreases m
  {
    if m > 0 {
      assert m * f == (m - 1) * f + f;
      assert (m - 1) * f >= 0;
      DivStep(a, f);
      DivAtLeast(a - f, f, m - 1);
    }
  }

  /** The trailer of a streamed cursor run tells the true number of rows exactly when the replies do not cut it silently. */
  lemma TrailerTruthfulIff(attempted: seq<Chunk>, accepted: seq<Chunk>, request: Request, fetch: nat, wire: nat,
                           cuts: seq<Range>, hi: nat, silent: bool, replies: nat -> Reply, base: nat, k: nat)
    requires Emitted(Streamed, OK, attempted, accepted, request, fetch, wire, cuts, hi, silent)
    requires request.useCursor && Outcome(Streamed, request, fetch, replies, base, k, hi, silent)
    ensures Reports(accepted, |request.answer.rows|) <==> !CutSilently(replies, base, |request.answer.rows|, fetch)
  {
    var n := |request.answer.rows|;
    StreamedReports(attempted, accepted, request, fetch, wire, cuts, hi, silent);
    hide Emitted, Reports;
    if silent {
      SilentCutAt(replies, base, n, fetch, k, hi);
    } else {
      NoSilentCut(replies, base, n, fetch, k);
    }
  }

  lemma StreamedReports(attempted: seq<Chunk>, accepted: seq<Chunk>, request: Request, fetch: nat, wire: nat,
                        cuts: seq<Range>, hi: nat, silent: bool)
    requires Emitted(Streamed, OK, attempted, accepted, request, fetch, wire, cuts, hi, silent)
    ensures fetch >= 1
    ensures forall count :: Reports(accepted, count) <==> count == hi
    ensures !silent ==> hi == |request.answer.rows|
  {
    hide DataChunks, CompleteCuts, Decimal.ToString;
    assert cuts == [] ==> hi == 0;
    if !silent {
      CompleteCoversAll(request, fetch, wire, hi);
    }
  }

  lemma SilentCutAt(replies: nat -> Reply, base: nat, n: nat, fetch: nat, k: nat, hi: nat)
    requires FetchFails(replies, base, k, "") && hi == RowsAfter(k - 1, n, fetch)
    ensures hi == n <==> !CutSilently(replies, base, n, fetch)
  {
    var last: nat := k - 1;
    forall j: nat | SilentAfter(replies, base, j)
      ensures j == last
    {
      FirstFailureUnique(replies, base, j + 1, k, "", "");
    }
    assert SilentAfter(replies, base, last);
    hide SilentAfter;
  }

  lemma NoSilentCut(replies: nat -> Reply, base: nat, n: nat, fetch: nat, k: nat)
    requires fetch >= 1 && k == FetchesLeft(0, n, fetch, false) && FetchesSucceed(replies, base, k)
    ensures !CutSilently(replies, base, n, fetch)
  {
    forall j: nat | j * fetch < n
      ensures !SilentAfter(replies, base, j)
    {
      FetchBeforeEnd(j, n, fetch);
      assert replies(base + j).Accepts?;
    }
  }

  lemma ReportedIsLoud(replies: nat -> Reply, base: nat, n: nat, fetch: nat, k: nat, text: string)
    requires FetchFails(replies, base, k, text) && text != ""
    ensures !CutSilently(replies, base, n, fetch)
  {
    forall j: nat ensures !SilentAfter(replies, base, j) {
      if SilentAfter(replies, base, j) {
        FirstFailureUnique(replies, base, j + 1, k, "", text);
      }
    }
  }

  lemma NormalEmits(exit: Exit, status: Status, attempted: seq<Chunk>, accepted: seq<Chunk>, request: Request,
                    fetch: nat, wire: nat, cuts: seq<Range>, hi: nat, silent: bool)
    requires Emitted(exit, status, attempted, accepted, request, fetch, wire, cuts, hi, silent)
    ensures exit.Streamed? ==> status == OK
    ensures exit.CommandDone? ==> request.answer.fields == []
  {
  }

  /** A cursor query without columns reports the count of its first fetch only. */
  lemma ZeroColumnCount(attempted: seq<Chunk>, accepted: seq<Chunk>, request: Request, fetch: nat, wire: nat,
                        cuts: seq<Range>, hi: nat, silent: bool)
    requires Emitted(CommandDone, OK, attempted, accepted, request, fetch, wire, cuts, hi, silent) && request.useCursor
    ensures Reports(accepted, |request.answer.rows|) <==> |request.answer.rows| <= fetch
  {
    hide Chain, CompleteCuts, DataChunks;
  }

  /** What the first FETCH of a query without columns makes the client believe. */
  predicate FirstFetchCounts(reply: Reply, n: nat, fetch: nat) {
    if reply.Accepts? then n <= fetch else ErrorText(reply) == "" && n == 0
  }

  /** Every run of a cursor query that opens. If it is streamed, the client is told the true number of rows exactly when
      no FETCH before the last row is the first to fail and fails with an empty error text. If nothing disturbs the call
      itself, such a FETCH, and nothing else, makes the run of a query with columns end with status OK and a trailer that
      miscounts; without columns the count is right exactly when the first FETCH holds all rows, or fails with an empty
      text where there are none. */
  method CountsTruthfully(db: Backend, call: Call, request: Request, granted: Result<nat, string>, fetchRows: int,
                          wireBatchRows: int, what: string)
    returns (status: Status, exit: Exit)
    requires db.Valid() && call.attempted == call.accepted == [] && request.useCursor
    modifies db, call
    ensures WasOpened(exit) <==> granted.Ok? && CanOpen(request, old(db.txn), |old(db.statements)|, db.replies)
    ensures var n, fetch := |request.answer.rows|, OrDefault(fetchRows, 10000);
            var base := FetchBase(request, old(db.txn), |old(db.statements)|);
            && (exit.Streamed? ==>
                  status == OK && (Reports(call.accepted, n) <==> !CutSilently(db.replies, base, n, fetch)))
            && (exit.CommandDone? ==> status == OK && (Reports(call.accepted, n) <==> n <= fetch))
            && (WasOpened(exit) && call.Calm() && call.closeFault.NoFault? ==>
                  if request.answer.fields != [] then
                    exit.Streamed? && !Reports(call.accepted, n) <==> CutSilently(db.replies, base, n, fetch)
                  else
                    Normal(exit) && Reports(call.accepted, n) <==> FirstFetchCounts(db.replies(base), n, fetch))
  {
    ghost var n, fetch, wire := |request.answer.rows|, OrDefault(fetchRows, 10000), OrDefault(wireBatchRows, 1000);
    ghost var base := FetchBase(request, db.txn, |db.statements|);
    ghost var cuts, hi, k, silent;
    hide Cuts, BatchBytes, TxnAfter, DataChunks, Emitted, Reports, Outcome, CanOpen, OpenTrace, CutSilently, Succeeds,
         CursorTrace, LeavesResult, Uncleared, Deadlocks, FailedTrace, FirstFetchCounts, FetchBase;
    status, exit, cuts, hi, k, silent := Serve(db, call, request, granted, fetchRows, wireBatchRows, what);
    NormalEmits(exit, status, call.attempted, call.accepted, request, fetch, wire, cuts, hi, silent);
    if exit.Streamed? {
      TrailerTruthfulIff(call.attempted, call.accepted, request, fetch, wire, cuts, hi, silent, db.replies, base, k);
      StreamedReports(call.attempted, call.accepted, request, fetch, wire, cuts, hi, silent);
    } else if exit.CommandDone? {
      ZeroColumnCount(call.attempted, call.accepted, request, fetch, wire, cuts, hi, silent);
    }
    if WasOpened(exit) {
      FirstFetchDecides(exit, request, fetch, db.replies, base, n, k, hi, silent);
    }
  }

  /** How the replies decide the end of a cursor run that nothing else disturbs. */
  lemma FirstFetchDecides(exit: Exit, request: Request, fetch: nat, replies: nat -> Reply, base: nat, n: nat, k: nat, hi: nat,
                          silent: bool)
    requires fetch >= 1 && request.useCursor && n == |request.answer.rows|
    requires Outcome(exit, request, fetch, replies, base, k, hi, silent)
    ensures exit.Reported? ==> !CutSilently(replies, base, n, fetch)
    ensures request.answer.fields == [] && exit.CommandDone? ==> (FirstFetchCounts(replies(base), n, fetch) <==> n <= fetch)
    ensures request.answer.fields == [] && exit.Streamed? ==> (FirstFetchCounts(replies(base), n, fetch) <==> hi == n)
    ensures request.answer.fields == [] && exit.Reported? ==> !FirstFetchCounts(replies(base), n, fetch)
  {
    if exit.Reported? {
      ReportedIsLoud(replies, base, n, fetch, k, exit.message);
    }
  }

  // ----- What commands and failed openings report -----

  /** Every run of a direct statement without columns: the client's one chunk carries PostgreSQL's command tag, and its count
      of affected rows for a command. On a call that nothing disturbs every usable statement comes to that. */
  method CommandReports(db: Backend, call: Call, request: Request, granted: Result<nat, string>, fetchRows: int,
                        wireBatchRows: int, what: string)
    returns (status: Status, exit: Exit)
    requires db.Valid() && call.attempted == call.accepted == [] && !request.useCursor
    modifies db, call
    ensures exit.CommandDone? ==>
              var answer := request.answer;
              && Reports(call.accepted, if answer.status.CommandOk? then answer.commandTuples else |answer.rows|)
              && |call.accepted| == 1 && call.accepted[0].trailer.value.commandTag == answer.commandTag
    ensures && call.Calm() && call.closeFault.NoFault? && granted.Ok? && request.answer.fields == []
            && CanOpen(request, old(db.txn), |old(db.statements)|, db.replies)
            && request.answer.status in {TuplesOk, CommandOk}
            ==> exit.CommandDone?
  {
    ghost var cuts, hi, k, silent;
    hide Cuts, BatchBytes, TxnAfter, DataChunks, CanOpen, CursorTrace, LeavesResult, Uncleared, Deadlocks, FailedTrace,
         FetchBase, OpenError, CompleteCuts, Chain;
    status, exit, cuts, hi, k, silent := Serve(db, call, request, granted, fetchRows, wireBatchRows, what);
  }

  /** Every run of a query that does not open: its only chunk is an ERROR with the text of the pool, the session store, or
      PostgreSQL. */
  method OpeningErrors(db: Backend, call: Call, request: Request, granted: Result<nat, string>, fetchRows: int,
                       wireBatchRows: int, what: string)
    returns (status: Status, exit: Exit)
    requires db.Valid() && call.attempted == call.accepted == []
    modifies db, call
    ensures exit.NotOpened? ==>
              && status == OK && call.attempted == [ErrorChunk(Some(exit.message))]
              && (call.Calm() ==> call.accepted == call.attempted)
    ensures exit.NotOpened? && granted.Err? ==>
              exit.message == if request.sessionId == "" then "failed to acquire database connection" else granted.error
    ensures exit.NotOpened? && granted.Ok? ==>
              var reply := db.replies(|old(db.statements)|);
              if request.useCursor && old(db.txn) == InError then
                exit.message == "connection is in failed transaction state"
              else
                && (reply.Rejects? ==> exit.message == reply.message)
                && (reply.Drops? ==> exit.message == reply.message)
                && (reply.Accepts? && !request.useCursor && old(db.txn) != Unknown ==> exit.message == "")
  {
    ghost var cuts, hi, k, silent;
    hide Cuts, BatchBytes, TxnAfter, DataChunks, CanOpen, CursorTrace, LeavesResult, Uncleared, Deadlocks, FailedTrace,
         FetchBase, CompleteCuts, Chain, Outcome;
    status, exit, cuts, hi, k, silent := Serve(db, call, request, granted, fetchRows, wireBatchRows, what);
    NoData(request.answer);
  }

  // ----- The transaction block of a returned connection -----

  /** The block a query leaves behind when it ends normally is no open one. */
  predicate LeavesIdle(request: Request, txn: Txn) {
    if request.useCursor then txn == Idle else request.blockAfter == Idle
  }

  lemma DirectLeaves(db: Backend, before: seq<Statement>, request: Request, txn: Txn)
    requires db.Valid() && db.statements == before + [Direct(request.blockAfter)]
    requires txn == TxnAfter(db.start, before, |before|, db.replies)
    requires Succeeds(txn, Direct(request.blockAfter), db.replies(|before|)) && !request.useCursor
    ensures db.txn != Unknown && (db.txn == Idle <==> LeavesIdle(request, txn))
  {
    TxnAfterPrefix(db.start, before, db.statements, |before|, db.replies);
  }

  /** Every run: a pooled connection that goes back as healthy is outside any transaction block exactly when a cursor
      query found it idle or a direct statement leaves it idle. */
  method ReturnsIdleIff(db: Backend, call: Call, request: Request, granted: Result<nat, string>, fetchRows: int,
                        wireBatchRows: int, what: string)
    returns (status: Status, exit: Exit)
    requires db.Valid() && call.attempted == call.accepted == [] && request.Pooled()
    modifies db, call
    ensures WasOpened(exit) <==> granted.Ok? && CanOpen(request, old(db.txn), |old(db.statements)|, db.replies)
    ensures WasOpened(exit) && Normal(exit) && db.txn != Unknown ==>
              && db.poolCalls == old(db.poolCalls) + [Acquired(granted.value), Released(granted.value, false)]
              && (db.txn == Idle <==> LeavesIdle(request, old(db.txn)))
    ensures WasOpened(exit) && !(Normal(exit) && db.txn != Unknown) ==>
              db.poolCalls == old(db.poolCalls) + [Acquired(granted.value), Released(granted.value, true)]
  {
    ghost var before, txn := db.statements, db.txn;
    ghost var cuts, hi, k, silent;
    status, exit, cuts, hi, k, silent := Serve(db, call, request, granted, fetchRows, wireBatchRows, what);
    hide Cuts, BatchBytes, TxnAfter, DataChunks, Emitted, SilentEnd, FetchesLeft, FetchesSucceed, FetchFails, NextTxn;
    if WasOpened(exit) && !request.useCursor {
      DirectLeaves(db, before, request, txn);
    }
  }

  // ----- The smallest runs that show it -----

  /** A call that nothing disturbs, except perhaps its final Close. */
  method NewCall(closeFault: CloseFault) returns (call: Call)
    ensures fresh(call) && call.attempted == call.accepted == [] && call.closeFault == closeFault
    ensures call.Calm()
  {
    call := new Call(_ => false, _ => true, _ => false, closeFault);
  }

  /** Silent truncation: the first FETCH of a one-row answer is rejected with an empty error text, and the client is told,
      by a trailer and status OK, that there are no rows. */
  method SilentTruncation(answer: PgResult, fetchRows: int, wireBatchRows: int) returns (status: Status, call: Call)
    requires |answer.rows| == 1 && answer.fields != []
    ensures status == OK && call.accepted == [TrailerChunk(Some(Trailer("SELECT 0", 0)))]
  {
    var db := new Backend(Idle, k => if k == 2 then Rejects("") else Accepts);
    call := NewCall(NoFault);
    var request := Request("", true, answer, Idle);
    var exit;
    ghost var cuts, hi, k, silent;
    status, exit, cuts, hi, k, silent := Serve(db, call, request, Ok(0), fetchRows, wireBatchRows, "");
    hide Cuts, BatchBytes, TxnAfter, DataChunks;
    ghost var fetch, wire := OrDefault(fetchRows, 10000), OrDefault(wireBatchRows, 1000);
    assert WasOpened(exit);
    assert !db.replies(2).Accepts?;
    assert silent && k == 1 && hi == 0;
    NoRowsNoCuts(cuts, 1, StepOf(request, fetch), wire);
    NoData(answer);
  }

  /** Self-deadlock: BEGIN is accepted, DECLARE is rejected; nothing is sent, the call never returns, and its lease stays
      out. */
  method SelfDeadlock(answer: PgResult, fetchRows: int, wireBatchRows: int)
    returns (status: Status, call: Call, db: Backend)
    ensures status == NEVER && call.attempted == [] && db.poolCalls == [Acquired(0)]
  {
    db := new Backend(Idle, k => if k == 1 then Rejects("syntax error") else Accepts);
    call := NewCall(NoFault);
    var exit;
    ghost var cuts, hi, k, silent;
    status, exit, cuts, hi, k, silent :=
      Serve(db, call, Request("", true, answer, Idle), Ok(0), fetchRows, wireBatchRows, "");
    hide Cuts, BatchBytes, TxnAfter, DataChunks;
    assert !db.replies(1).Accepts?;
    assert exit.Hung?;
  }

  /** Leaked lease: a pooled connection in a failed transaction is refused for a cursor, and never given back. */
  method LeakedLease(answer: PgResult, fetchRows: int, wireBatchRows: int)
    returns (status: Status, call: Call, db: Backend)
    ensures status == OK && db.poolCalls == [Acquired(0)]
    ensures |call.attempted| == 1 && call.attempted[0].ErrorChunk?
  {
    db := new Backend(InError, _ => Accepts);
    call := NewCall(NoFault);
    var exit;
    ghost var cuts, hi, k, silent;
    status, exit, cuts, hi, k, silent :=
      Serve(db, call, Request("", true, answer, Idle), Ok(0), fetchRows, wireBatchRows, "");
    hide Cuts, BatchBytes, TxnAfter, DataChunks;
    assert exit.NotOpened? && |cuts| == 0;
    NoData(answer);
  }

  /** Miscounted rows: two rows without columns, fetched one at a time, are reported as one. */
  method ZeroColumnMiscount(answer: PgResult, wireBatchRows: int) returns (status: Status, call: Call)
    requires |answer.rows| == 2 && answer.fields == []
    ensures status == OK && Reports(call.accepted, 1)
  {
    var db := new Backend(Idle, _ => Accepts);
    call := NewCall(NoFault);
    var exit;
    ghost var cuts, hi, k, silent;
    status, exit, cuts, hi, k, silent :=
      Serve(db, call, Request("", true, answer, Idle), Ok(0), 1, wireBatchRows, "");
    hide Cuts, BatchBytes, TxnAfter, DataChunks;
    assert Obliging(db);
    assert exit.CommandDone?;
  }

  /** A transaction in the pool: a direct statement that opens a block succeeds, and its connection goes back as healthy
      with the block open. */
  method OpenBlockReturned(answer: PgResult, fetchRows: int, wireBatchRows: int) returns (status: Status, db: Backend)
    requires answer.status.CommandOk?
    ensures status == OK && db.poolCalls == [Acquired(0), Released(0, false)] && db.txn == InTrans
  {
    db := new Backend(Idle, _ => Accepts);
    var call := NewCall(NoFault);
    var exit;
    ghost var cuts, hi, k, silent;
    status, exit, cuts, hi, k, silent :=
      Serve(db, call, Request("", false, answer, InTrans), Ok(0), fetchRows, wireBatchRows, "");
    hide Cuts, BatchBytes, DataChunks, FetchesLeft;
    assert Obliging(db) && Normal(exit);
    assert db.statements == [] + [Direct(InTrans)];
    assert TxnAfter(db.start, db.statements, 0, db.replies) == Idle;
  }

  /** An ERROR after the TRAILER: returning the lease raises an exception when everything has been sent, and the client
      receives both. */
  method ErrorAfterTrailer(answer: PgResult, fetchRows: int, wireBatchRows: int, what: string)
    returns (status: Status, call: Call)
    requires answer.status.TuplesOk? || answer.status.CommandOk?
    ensures status == OK && |call.accepted| >= 2
    ensures call.accepted[|call.accepted| - 2].TrailerChunk?
    ensures call.accepted[|call.accepted| - 1].ErrorChunk?
    ensures !Grammatical(call.accepted)
  {
    var db := new Backend(Idle, _ => Accepts);
    call := NewCall(AtRelease);
    var exit;
    ghost var cuts, hi, k, silent;
    status, exit, cuts, hi, k, silent :=
      Serve(db, call, Request("", false, answer, Idle), Ok(0), fetchRows, wireBatchRows, what);
    hide Cuts, BatchBytes, TxnAfter, DataChunks, FetchesLeft;
    assert Obliging(db) && exit.CaughtLate?;
  }

  /** A leaked result: the first FETCH succeeds, the second fails, the error is reported, and the first result is never
      cleared. */
  method LeakedResult(answer: PgResult, wireBatchRows: int) returns (status: Status, db: Backend)
    requires |answer.rows| == 1 && answer.fields != []
    ensures status == OK && |db.live| == 1
  {
    db := new Backend(Idle, k => if k == 3 then Rejects("canceling statement") else Accepts);
    var call := NewCall(NoFault);
    var request := Request("", true, answer, Idle);
    var exit;
    ghost var cuts, hi, k, silent;
    status, exit, cuts, hi, k, silent := Serve(db, call, request, Ok(0), 1, wireBatchRows, "");
    hide Cuts, BatchBytes, TxnAfter, DataChunks, Emitted;
    assert !db.replies(3).Accepts? && db.replies(2).Accepts?;
    FetchCount(0, 1, 1);
    assert FetchFails(db.replies, 2, 2, "canceling statement");
    assert Unusable(request, 1, db.replies, 2, 2, "canceling statement");
    ReportedIffLoud(exit, request, 1, db.replies, 2, k, hi, silent);
    FirstFailureUnique(db.replies, 2, 2, k, "canceling statement", exit.message);
  }

  lemma NoRowsNoCuts(cuts: seq<Range>, n: nat, step: nat, wire: nat)
    requires step >= 1 && wire >= 1 && cuts <= Cuts(0, n, step, wire) && Chain(cuts, 0, 0)
    ensures cuts == []
  {
    CutsCover(0, n, step, wire);
  }
}
