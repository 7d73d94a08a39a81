/** The life of one query on one connection (src/pg/streaming_query.cpp): acquire, open a cursor or execute
    directly, fetch, then close or abort. */
module StreamingQuery {
  import opened Common
  import opened RawBatch
  import opened Postgres

  /** A query: the session it names ("" for the pool), whether it streams through a cursor, the full answer
      PostgreSQL has for it, and the transaction block a direct execution leaves. */
  datatype Request = Request(sessionId: string, useCursor: bool, answer: PgResult, blockAfter: Block)
  {
    predicate Pooled() { sessionId == "" }
  }

  /** A PGresult pointer: identity and content. */
  datatype Handle = Handle(id: nat, result: PgResult)

  /** Deadlocked: the thread waits for a mutex that it holds itself, and never returns. */
  datatype OpenResult = Opened | OpenFailed(message: string) | Deadlocked

  /** The step of Close, if any, that an exception interrupts before it has done anything: closing the cursor, ending the
      transaction, or returning the lease. */
  datatype CloseFault = NoFault | AtCursor | AtTransaction | AtRelease

  /** The result of a FETCH that returns rows [lo, hi) of the answer. */
  function Slice(answer: PgResult, lo: nat, hi: nat): PgResult
    requires lo <= hi <= |answer.rows|
  {
    answer.(status := TuplesOk, rows := answer.rows[lo..hi])
  }

  const NO_CONNECTION := "failed to acquire database connection"

  /** The statements of a query that was granted a connection and did not open: BEGIN alone where that failed, the DECLARE
      that failed inside the caller's block, nothing in a poisoned block, or the direct statement. */
  function FailedTrace(request: Request, txn: Txn): seq<Statement> {
    if !request.useCursor then [Direct(request.blockAfter)]
    else
      match txn
      case Idle => [Begin]
      case InError => []
      case _ => [Declare]
  }

  const FAILED_BLOCK := "connection is in failed transaction state"

  /** The error of a query that was granted a connection and did not open, its next statement being the n-th. */
  function OpenError(request: Request, txn: Txn, n: nat, replies: nat -> Reply): string {
    if request.useCursor && txn == InError then FAILED_BLOCK
    else if !request.useCursor && Succeeds(txn, Direct(request.blockAfter), replies(n)) then ""
    else ErrorText(replies(n))
  }

  /** When a query opens on a connection whose next statement is the n-th: a cursor needs a block it may begin or
      use, and an accepted DECLARE; a direct execution needs an accepted statement with a known result status. */
  predicate CanOpen(request: Request, txn: Txn, n: nat, replies: nat -> Reply) {
    if request.useCursor then
      match txn
      case Idle => Succeeds(Idle, Begin, replies(n)) && Succeeds(InTrans, Declare, replies(n + 1))
      case InTrans => Succeeds(InTrans, Declare, replies(n))
      case _ => false
    else
      Succeeds(txn, Direct(request.blockAfter), replies(n)) && !request.answer.status.OtherStatus?
  }

  /** When opening never returns: the query's own BEGIN is accepted and its DECLARE fails. */
  predicate Deadlocks(request: Request, txn: Txn, n: nat, replies: nat -> Reply) {
    && request.useCursor && txn == Idle
    && Succeeds(Idle, Begin, replies(n)) && !Succeeds(InTrans, Declare, replies(n + 1))
  }

  class StreamingQuery {
    const db: Backend
    const fetchSize: nat
    var request: Request
    var connection: Option<nat>
    var pooled: bool
    var useCursor: bool
    var startedLocalTxn: bool
    var cursorOpen: bool
    var immediateDone: bool
    var immediate: Option<Handle>
    /** Rows the server-side cursor (or the direct execution) has handed out. */
    var at: nat

    ghost predicate Valid()
      reads this, db
    {
      && db.Valid() && fetchSize >= 1
      && (pooled ==> connection.Some?)
      && (cursorOpen ==> useCursor && connection.Some?)
      && (startedLocalTxn ==> useCursor && connection.Some?)
      && (immediate.Some? ==> immediate.value.id in db.live)
      && at <= |request.answer.rows|
    }

    /** Nothing is held any more. */
    predicate Finished()
      reads this
    {
      connection.None? && !pooled && !cursorOpen && !startedLocalTxn && immediate.None?
    }

    constructor (db: Backend, fetchSize: int, request: Request)
      requires db.Valid()
      ensures Valid() && Finished() && this.db == db && this.request == request && at == 0
      ensures this.fetchSize == if fetchSize > 0 then fetchSize else 10000
    {
      this.db := db;
      this.fetchSize := if fetchSize > 0 then fetchSize else 10000;
      this.request := request;
      connection, immediate, at := None, None, 0;
      pooled, useCursor, startedLocalTxn, cursorOpen, immediateDone := false, false, false, false, false;
    }

    /** What Close and Abort issue, depending on what is open. */
    function ClosingStatements(commit: bool): seq<Statement>
      reads this
    {
      (if cursorOpen then [CloseDeclared] else [])
      + if startedLocalTxn then [if commit then Commit else Rollback] else []
    }

    function ReleaseCalls(broken: bool): seq<PoolCall>
      reads this
    {
      if pooled && connection.Some? then [Released(connection.value, broken)] else []
    }

    function ImmediateIds(): set<nat>
      reads this
    {
      if immediate.Some? then {immediate.value.id} else {}
    }

    /** The content of a PGresult: only ever looked at before the result is cleared. */
    function Read(handle: Handle): PgResult
      requires handle.id in db.live
      reads this, db
    {
      handle.result
    }

    /** `granted` is the connection, or the text that the session store gives for none; the pool gives no text. */
    method AcquireConnection(granted: Result<nat, string>) returns (ok: bool, message: string)
      requires Valid() && Finished()
      modifies this`connection, this`pooled, db`poolCalls
      ensures Valid() && ok == granted.Ok? && pooled == (ok && request.Pooled())
      ensures connection == if ok then Some(granted.value) else None
      ensures !ok ==> message == if request.Pooled() then NO_CONNECTION else granted.error
      ensures db.poolCalls == old(db.poolCalls) + if pooled then [Acquired(granted.value)] else []
    {
      if granted.Err? {
        connection, pooled := None, false;
        return false, if request.Pooled() then NO_CONNECTION else granted.error;
      }
      connection, ok, message := Some(granted.value), true, "";
      pooled := request.Pooled();
      if pooled {
        db.poolCalls := db.poolCalls + [Acquired(granted.value)];
      }
    }

    method ReleaseConnection(broken: bool)
      requires Valid() && !cursorOpen && !startedLocalTxn
      modifies this`connection, this`pooled, db`poolCalls
      ensures Valid() && connection.None? && !pooled
      ensures db.poolCalls == old(db.poolCalls) + old(ReleaseCalls(broken || db.txn == Unknown))
    {
      if connection.None? {
        return;
      }
      if pooled {
        db.poolCalls := db.poolCalls + [Released(connection.value, broken || db.txn == Unknown)];
      }
      connection := None;
      pooled := false;
    }

    method BeginIfNeeded() returns (ok: bool, message: string)
      requires Valid() && connection.Some? && useCursor && !startedLocalTxn
      modifies this`startedLocalTxn, db`txn, db`statements
      ensures Valid()
      ensures !ok ==> message == if old(db.txn) == Idle then ErrorText(db.replies(|old(db.statements)|)) else FAILED_BLOCK
      ensures old(db.txn) == Idle ==>
                && db.statements == old(db.statements) + [Begin]
                && db.txn == NextTxn(Idle, Begin, db.replies(|old(db.statements)|))
                && ok == startedLocalTxn == Succeeds(Idle, Begin, db.replies(|old(db.statements)|))
      ensures old(db.txn) != Idle ==>
                && ok == (old(db.txn) != InError) && !startedLocalTxn
                && db.statements == old(db.statements) && db.txn == old(db.txn)
    {
      message := "";
      if db.txn == Idle {
        ok, message := db.Exec(Begin);
        startedLocalTxn := ok;
      } else if db.txn == InError {
        ok, message := false, FAILED_BLOCK;
      } else {
        ok := true;
      }
    }

    /** Returns true when the connection mutex is already held by this thread: the real call never returns. */
    method EndTransaction(commit: bool) returns (hung: bool)
      requires db.txn == TxnAfter(db.start, db.statements, |db.statements|, db.replies)
      requires startedLocalTxn ==> connection.Some?
      modifies this`startedLocalTxn, db`txn, db`statements
      ensures hung == (old(startedLocalTxn) && db.mutexHeld)
      ensures db.txn == TxnAfter(db.start, db.statements, |db.statements|, db.replies)
      ensures !old(startedLocalTxn) || hung ==>
                unchanged(db) && startedLocalTxn == old(startedLocalTxn)
      ensures old(startedLocalTxn) && !hung ==>
                && !startedLocalTxn
                && db.statements == old(db.statements) + [if commit then Commit else Rollback]
    {
      if !startedLocalTxn || connection.None? {
        return false;
      }
      if db.mutexHeld {
        return true;
      }
      var _, _ := db.Exec(if commit then Commit else Rollback);
      startedLocalTxn := false;
      hung := false;
    }

    method OpenCursor() returns (r: OpenResult)
      requires Valid() && connection.Some? && useCursor && request.useCursor && !startedLocalTxn && !cursorOpen
      modifies this`startedLocalTxn, this`cursorOpen, db`txn, db`statements, db`mutexHeld
      ensures r.Opened? <==> CanOpen(request, old(db.txn), |old(db.statements)|, db.replies)
      ensures r.Deadlocked? <==> Deadlocks(request, old(db.txn), |old(db.statements)|, db.replies)
      ensures db.statements == old(db.statements)
                + match r
                  case Opened => OpenTrace(old(db.txn) == Idle)
                  case Deadlocked => [Begin, Declare]
                  case OpenFailed(_) => FailedTrace(request, old(db.txn))
      ensures r.OpenFailed? ==> r.message == OpenError(request, old(db.txn), |old(db.statements)|, db.replies)
      ensures !r.Deadlocked? ==> Valid()
      ensures r.Opened? ==> cursorOpen && startedLocalTxn == (old(db.txn) == Idle) && db.txn == InTrans
      ensures r.OpenFailed? ==> !cursorOpen && !startedLocalTxn
    {
      hide TxnAfter;
      var ok, message := BeginIfNeeded();
      if !ok {
        return OpenFailed(message);
      }
      db.mutexHeld := true;
      ok, message := db.Exec(Declare);
      if !ok {
        var hung := EndTransaction(false);
        if hung {
          return Deadlocked;
        }
        db.mutexHeld := false;
        return OpenFailed(message);
      }
      cursorOpen := true;
      db.mutexHeld := false;
      r := Opened;
    }

    method CloseCursor()
      requires Valid()
      modifies this`cursorOpen, db`txn, db`statements
      ensures Valid() && !cursorOpen
      ensures db.statements == old(db.statements) + if old(cursorOpen) then [CloseDeclared] else []
    {
      if !cursorOpen || connection.None? {
        return;
      }
      var _, _ := db.Exec(CloseDeclared);
      cursorOpen := false;
    }

    method ExecuteImmediate() returns (r: Option<Handle>, message: string)
      requires Valid() && connection.Some? && !useCursor
      modifies db`txn, db`statements, db`live, db`created
      ensures Valid() && db.statements == old(db.statements) + [Direct(request.blockAfter)]
      ensures r.Some? <==>
                && Succeeds(old(db.txn), Direct(request.blockAfter), db.replies(|old(db.statements)|))
                && !request.answer.status.OtherStatus?
      ensures r.Some? ==> r.value == Handle(old(db.created), request.answer)
      ensures r.None? ==>
                var reply := db.replies(|old(db.statements)|);
                message == if Succeeds(old(db.txn), Direct(request.blockAfter), reply) then "" else ErrorText(reply)
      ensures db.live == old(db.live) + if r.Some? then {r.value.id} else {}
    {
      var ok;
      ok, message := db.Exec(Direct(request.blockAfter));
      if !ok {
        return None, message;
      }
      var id := db.NewResult();
      if request.answer.status.OtherStatus? {
        db.Clear(id);
        return None, "";
      }
      r := Some(Handle(id, request.answer));
    }

    method Open(granted: Result<nat, string>) returns (r: OpenResult)
      requires Valid() && Finished() && at == 0
      modifies this, db
      ensures request == old(request) && at == 0
      ensures granted.Err? ==>
                && r == OpenFailed(if request.Pooled() then NO_CONNECTION else granted.error)
                && db.statements == old(db.statements) && db.poolCalls == old(db.poolCalls)
      ensures r.OpenFailed? && granted.Ok? ==>
                && db.statements == old(db.statements) + FailedTrace(request, old(db.txn))
                && r.message == OpenError(request, old(db.txn), |old(db.statements)|, db.replies)
      ensures r.Opened? ==>
                && Valid() && granted.Ok? && connection == Some(granted.value) && pooled == request.Pooled()
                && useCursor == cursorOpen == request.useCursor
                && (request.useCursor ==>
                      && startedLocalTxn == (old(db.txn) == Idle)
                      && db.statements == old(db.statements) + OpenTrace(startedLocalTxn)
                      && db.txn == InTrans && immediate.None? && db.live == old(db.live))
                && (!request.useCursor ==>
                      && !startedLocalTxn && !immediateDone
                      && db.statements == old(db.statements) + [Direct(request.blockAfter)]
                      && !request.answer.status.OtherStatus?
                      && immediate == Some(Handle(old(db.created), request.answer))
                      && db.live == old(db.live) + {old(db.created)})
      ensures r.Opened? <==> granted.Ok? && CanOpen(request, old(db.txn), |old(db.statements)|, db.replies)
      // A deadlock happens exactly when a local BEGIN is followed by a failing DECLARE.
      ensures r.Deadlocked? <==> granted.Ok? && Deadlocks(request, old(db.txn), |old(db.statements)|, db.replies)
      ensures r.Deadlocked? ==> db.statements == old(db.statements) + [Begin, Declare]
      // The lease of a pooled query that does not open is returned exactly when it did not use a cursor.
      ensures r.OpenFailed? ==> Valid() && db.live == old(db.live)
      ensures granted.Ok? && request.Pooled() ==>
                db.poolCalls == old(db.poolCalls) + [Acquired(granted.value)]
                  + if r.OpenFailed? && !request.useCursor then [Released(granted.value, true)] else []
      ensures !request.Pooled() ==> db.poolCalls == old(db.poolCalls)
    {
      hide TxnAfter, NextTxn, Succeeds;
      immediateDone := false;
      useCursor := request.useCursor;
      var ok, message := AcquireConnection(granted);
      if !ok {
        return OpenFailed(message);
      }
      if useCursor {
        hide CanOpen, Deadlocks, FailedTrace, OpenTrace, OpenError;
        r := OpenCursor();
        return;
      }
      r := OpenDirect();
    }

    method OpenDirect() returns (r: OpenResult)
      requires Valid() && connection.Some? && !useCursor && !request.useCursor && !startedLocalTxn && !cursorOpen
      requires immediate.None?
      modifies this`immediate, this`connection, this`pooled, db
      ensures Valid() && (r.Opened? || r.OpenFailed?)
      ensures r.Opened? <==>
                && Succeeds(old(db.txn), Direct(request.blockAfter), db.replies(|old(db.statements)|))
                && !request.answer.status.OtherStatus?
      ensures db.statements == old(db.statements) + [Direct(request.blockAfter)]
      ensures r.Opened? ==>
                && connection == old(connection) && pooled == old(pooled) && db.poolCalls == old(db.poolCalls)
                && immediate == Some(Handle(old(db.created), request.answer))
                && db.live == old(db.live) + {old(db.created)}
      ensures r.OpenFailed? ==>
                && r.message == OpenError(request, old(db.txn), |old(db.statements)|, db.replies) && immediate.None? && db.live == old(db.live)
                && db.poolCalls == old(db.poolCalls) + old(ReleaseCalls(true))
    {
      hide TxnAfter, NextTxn, Succeeds;
      var message;
      immediate, message := ExecuteImmediate();
      if immediate.None? {
        ReleaseConnection(true);
        return OpenFailed(message);
      }
      r := Opened;
    }

    /** The next slice of the answer, if any; `message` is the error text set when a FETCH fails. */
    method Fetch() returns (r: Option<Handle>, message: string)
      requires Valid()
      modifies this`immediateDone, this`immediate, this`at, db`txn, db`statements, db`live, db`created
      ensures Valid() && at <= |request.answer.rows|
      ensures connection.Some? && useCursor && old(cursorOpen) ==>
                var reply := db.replies(|old(db.statements)|);
                && db.statements == old(db.statements) + [FetchForward]
                && db.txn == NextTxn(old(db.txn), FetchForward, reply)
                && immediate == old(immediate)
                && if Succeeds(old(db.txn), FetchForward, reply) then
                     && at == Min(old(at) + fetchSize, |request.answer.rows|)
                     && r == Some(Handle(old(db.created), Slice(request.answer, old(at), at)))
                     && db.live == old(db.live) + {old(db.created)} && message == ""
                   else
                     && r.None? && message == ErrorText(reply) && at == old(at)
                     && db.live == old(db.live)
      ensures !useCursor && connection.Some? && !old(immediateDone) ==>
                && r == old(immediate) && immediate.None? && immediateDone && at == |request.answer.rows|
                && message == "" && unchanged(db)
      ensures !useCursor && connection.Some? && old(immediateDone) ==>
                r.None? && message == "" && immediate == old(immediate) && immediateDone && at == old(at) && unchanged(db)
      ensures connection.None? || (useCursor && !old(cursorOpen)) ==>
                r.None? && message == "" && at == old(at) && immediate == old(immediate) && unchanged(db)
    {
      message := "";
      if connection.None? {
        return None, "";
      }
      if useCursor {
        if !cursorOpen {
          return None, "";
        }
        var ok;
        ok, message := db.Exec(FetchForward);
        if !ok {
          return None, message;
        }
        message := "";
        var id := db.NewResult();
        var end := Min(at + fetchSize, |request.answer.rows|);
        r := Some(Handle(id, Slice(request.answer, at, end)));
        at := end;
        return;
      }
      if immediateDone {
        return None, "";
      }
      immediateDone := true;
      r := immediate;
      immediate := None;
      at := |request.answer.rows|;
    }

    method ClearImmediate()
      requires Valid()
      modifies this`immediate, db`live
      ensures Valid() && immediate.None? && db.live == old(db.live) - old(ImmediateIds())
    {
      if immediate.Some? {
        db.Clear(immediate.value.id);
        immediate := None;
      }
    }

    /** Whether Close reaches the step at which the exception is raised. */
    predicate Reaches(fault: CloseFault)
      reads this
    {
      match fault
      case NoFault => false
      case AtCursor => cursorOpen
      case AtTransaction => startedLocalTxn
      case AtRelease => pooled
    }

    /** Returns true when an exception leaves Close early: what was closed before it stays closed. */
    method Close(fault: CloseFault) returns (threw: bool)
      requires Valid()
      modifies this, db
      ensures Valid() && request == old(request) && at == old(at) && immediate.None?
      ensures db.live == old(db.live) - old(ImmediateIds()) && db.created == old(db.created)
      ensures threw == old(Reaches(fault))
      ensures !threw ==>
                && Finished() && db.statements == old(db.statements) + old(ClosingStatements(true))
                && db.poolCalls == old(db.poolCalls)
                     + if old(pooled) then [Released(old(connection).value, db.txn == Unknown)] else []
      ensures threw ==>
                && connection == old(connection) && pooled == old(pooled) && db.poolCalls == old(db.poolCalls)
                && cursorOpen == (fault.AtCursor? && old(cursorOpen))
                && startedLocalTxn == (!fault.AtRelease? && old(startedLocalTxn))
                && db.statements + ClosingStatements(false)
                   == old(db.statements) + old(ClosingStatements(fault.AtRelease?))
    {
      hide TxnAfter, NextTxn, Succeeds;
      ClearImmediate();
      if useCursor {
        threw := CloseBlock(fault);
        if threw {
          return;
        }
      }
      if fault.AtRelease? && pooled {
        return true;
      }
      ReleaseConnection(false);
      threw := false;
    }

    /** The cursor part of Close: the cursor, then a local transaction. */
    method CloseBlock(fault: CloseFault) returns (threw: bool)
      requires Valid()
      modifies this`cursorOpen, this`startedLocalTxn, db`txn, db`statements
      ensures Valid() && threw == (!fault.AtRelease? && old(Reaches(fault)))
      ensures !threw ==>
                !cursorOpen && !startedLocalTxn && db.statements == old(db.statements) + old(ClosingStatements(true))
      ensures threw ==>
                && cursorOpen == (fault.AtCursor? && old(cursorOpen)) && startedLocalTxn == old(startedLocalTxn)
                && db.statements + ClosingStatements(false) == old(db.statements) + old(ClosingStatements(false))
    {
      hide TxnAfter, NextTxn, Succeeds;
      if fault.AtCursor? && cursorOpen {
        return true;
      }
      CloseCursor();
      if fault.AtTransaction? && startedLocalTxn {
        return true;
      }
      var _ := EndTransaction(true);
      threw := false;
    }

    method Abort()
      requires Valid()
      modifies this, db
      ensures Valid() && Finished() && request == old(request) && at == old(at)
      ensures db.statements == old(db.statements) + old(ClosingStatements(false))
      ensures db.poolCalls == old(db.poolCalls) + old(ReleaseCalls(true))
      ensures db.live == old(db.live) - old(ImmediateIds()) && db.created == old(db.created)
    {
      hide TxnAfter, NextTxn, Succeeds;
      ClearImmediate();
      if useCursor && cursorOpen {
        CloseCursor();
      }
      if startedLocalTxn {
        var _ := EndTransaction(false);
      }
      ReleaseConnection(true);
    }
  }
}
