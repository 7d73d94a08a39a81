/** The PostgreSQL session behind one connection, and libpq's result objects, as far as
    src/pg/streaming_query.cpp relies on them. */
module Postgres {

  /** PQtransactionStatus: Unknown means that the connection is lost. */
  datatype Txn = Idle | InTrans | InError | Unknown

  /** Where an accepted statement can leave a live session. */
  type Block = txn: Txn | txn != Unknown witness Idle

  /** `Direct(after)` is the caller's own SQL; `after` is the transaction block it leaves when accepted. */
  datatype Statement = Begin | Declare | FetchForward | CloseDeclared | Commit | Rollback | Direct(after: Block)

  /** What happens to a statement: accepted, rejected with a message, or the connection is lost. */
  datatype Reply = Accepts | Rejects(message: string) | Drops(message: string)

  predicate Succeeds(txn: Txn, statement: Statement, reply: Reply) {
    && reply.Accepts?
    && match statement
       case Begin => txn == Idle
       case Declare => txn == InTrans
       case FetchForward => txn == InTrans
       case CloseDeclared => txn == InTrans
       case Commit => txn != Unknown
       case Rollback => txn != Unknown
       case Direct(_) => txn != Unknown
  }

  /** PostgreSQL's transaction-block automaton. A failing statement poisons an open block; COMMIT and
      ROLLBACK end the block even when they report an error. */
  function NextTxn(txn: Txn, statement: Statement, reply: Reply): Txn {
    if txn == Unknown || reply.Drops? then Unknown
    else
      match statement
      case Begin => if txn == Idle && reply.Accepts? then InTrans else txn
      case Commit => Idle
      case Rollback => Idle
      case Direct(after) =>
        if reply.Accepts? then after else if txn == InTrans then InError else txn
      case _ => if txn == InTrans && !reply.Accepts? then InError else txn
  }

  /** The block after the first `n` statements of `trace`, the i-th of which gets `replies(i)`. */
  function TxnAfter(start: Txn, trace: seq<Statement>, n: nat, replies: nat -> Reply): Txn
    requires n <= |trace|
  {
    if n == 0 then start else NextTxn(TxnAfter(start, trace, n - 1, replies), trace[n - 1], replies(n - 1))
  }

  lemma {:induction false} TxnAfterPrefix(start: Txn, a: seq<Statement>, b: seq<Statement>, n: nat, replies: nat -> Reply)
    requires n <= |a| && n <= |b| && forall i :: 0 <= i < n ==> a[i] == b[i]
    ensures TxnAfter(start, a, n, replies) == TxnAfter(start, b, n, replies)
  {
    if n > 0 {
      TxnAfterPrefix(start, a, b, n - 1, replies);
    }
  }

  /** The error text of a statement that fails. An acceptable statement fails only because of the state of its session, for
      which one text stands. */
  function ErrorText(reply: Reply): string {
    match reply
    case Accepts => "current transaction is aborted"
    case Rejects(message) => message
    case Drops(message) => message
  }

  datatype PoolCall = Acquired(conn: nat) | Released(conn: nat, broken: bool)

  /** Everything outside a StreamingQuery that it acts on: the session of the connection it uses, its
      calls on the pool, the connection mutex, and the set of PGresults not yet cleared. */
  class Backend {
    const start: Txn
    const replies: nat -> Reply
    var txn: Txn
    var statements: seq<Statement>
    var mutexHeld: bool
    var poolCalls: seq<PoolCall>
    var live: set<nat>
    var created: nat

    constructor (start: Txn, replies: nat -> Reply)
      ensures Valid() && this.start == start && this.replies == replies
      ensures statements == [] && poolCalls == [] && live == {} && created == 0
    {
      this.start, this.replies := start, replies;
      txn, statements, mutexHeld, poolCalls, live, created := start, [], false, [], {}, 0;
    }

    ghost predicate Valid()
      reads this
    {
      && txn == TxnAfter(start, statements, |statements|, replies)
      && !mutexHeld
      && forall id :: id in live ==> id < created
    }

    /** PQexec / PQexecParams. */
    method Exec(statement: Statement) returns (ok: bool, message: string)
      requires txn == TxnAfter(start, statements, |statements|, replies)
      modifies this`txn, this`statements
      ensures txn == TxnAfter(start, statements, |statements|, replies)
      ensures statements == old(statements) + [statement]
      ensures txn == NextTxn(old(txn), statement, replies(|old(statements)|))
      ensures ok <==> Succeeds(old(txn), statement, replies(|old(statements)|))
      ensures !ok ==> message == ErrorText(replies(|old(statements)|))
    {
      var reply := replies(|statements|);
      ok, message := Succeeds(txn, statement, reply), ErrorText(reply);
      txn := NextTxn(txn, statement, reply);
      statements := statements + [statement];
      TxnAfterPrefix(start, old(statements), statements, |old(statements)|, replies);
    }

    method NewResult() returns (id: nat)
      requires Valid()
      modifies this`live, this`created
      ensures Valid() && id == old(created) && created == id + 1 && live == old(live) + {id}
    {
      id := created;
      created := id + 1;
      live := live + {id};
    }

    /** PQclear: only ever called on a result that has not been cleared. */
    method Clear(id: nat)
      requires Valid() && id in live
      modifies this`live
      ensures Valid() && live == old(live) - {id}
    {
      live := live - {id};
    }
  }

  // ----- Bracketing: what the statements of one cursor query do to the transaction block -----

  function Fetches(k: nat): (s: seq<Statement>)
    ensures |s| == k && forall i :: 0 <= i < k ==> s[i] == FetchForward
  {
    seq(k, _ => FetchForward)
  }

  function OpenTrace(local: bool): seq<Statement> {
    if local then [Begin, Declare] else [Declare]
  }

  function CloseTrace(local: bool, commit: bool): seq<Statement> {
    [CloseDeclared] + if local then [if commit then Commit else Rollback] else []
  }

  /** The statements of a cursor query that was opened, fetched from `k` times, and closed or aborted. */
  function CursorTrace(local: bool, k: nat, commit: bool): seq<Statement> {
    OpenTrace(local) + Fetches(k) + CloseTrace(local, commit)
  }

  /** Statement by statement: an own BEGIN, DECLARE, the FETCHes, CLOSE, and COMMIT or ROLLBACK of an own transaction. */
  lemma TraceShape(k: nat, commit: bool)
    ensures var own, callers := CursorTrace(true, k, commit), CursorTrace(false, k, commit);
            && |own| == k + 4 && own[0] == Begin && own[1] == Declare && own[k + 2] == CloseDeclared
            && own[k + 3] == (if commit then Commit else Rollback)
            && |callers| == k + 2 && callers[0] == Declare && callers[k + 1] == CloseDeclared
            && (forall i :: 2 <= i < k + 2 ==> own[i] == FetchForward)
            && (forall i :: 1 <= i < k + 1 ==> callers[i] == FetchForward)
  {
  }

  /** A session is lost only by a reply that drops the connection. */
  lemma {:induction false} LostOnlyByDrop(start: Txn, trace: seq<Statement>, m: nat, n: nat, replies: nat -> Reply)
    requires m <= n <= |trace|
    requires TxnAfter(start, trace, n, replies) == Unknown && TxnAfter(start, trace, m, replies) != Unknown
    ensures exists i :: m <= i < n && replies(i).Drops?
    decreases n
  {
    if TxnAfter(start, trace, n - 1, replies) == Unknown {
      LostOnlyByDrop(start, trace, m, n - 1, replies);
    } else {
      assert replies(n - 1).Drops?;
    }
  }

  /** DECLARE, FETCH and CLOSE never leave or enter a transaction block: an open block stays that block, possibly
      poisoned, and no block is opened. */
  lemma {:induction false} BlockKept(start: Txn, trace: seq<Statement>, m: nat, n: nat, replies: nat -> Reply)
    requires m <= n <= |trace|
    requires forall i :: m <= i < n ==> trace[i] in {Declare, FetchForward, CloseDeclared}
    ensures var before, after := TxnAfter(start, trace, m, replies), TxnAfter(start, trace, n, replies);
            && (before == Idle ==> after in {Idle, Unknown})
            && (before == InTrans ==> after in {InTrans, InError, Unknown})
            && (before == InError ==> after in {InError, Unknown})
            && (before == Unknown ==> after == Unknown)
    decreases n
  {
    if m < n {
      BlockKept(start, trace, m, n - 1, replies);
    }
  }

  /** Transaction bracketing. After the statements `before`, a cursor query that began its own transaction leaves the
      session idle; one inside the caller's transaction issues no COMMIT or ROLLBACK and leaves that block, intact or
      poisoned. Either way the only alternative is a lost connection, which takes a reply that drops it. */
  lemma CursorQueryBrackets(
    start: Txn, before: seq<Statement>, local: bool, k: nat, commit: bool, replies: nat -> Reply)
    requires TxnAfter(start, before, |before|, replies) != Unknown
    ensures var trace := before + CursorTrace(local, k, commit);
            var from, to := TxnAfter(start, before, |before|, replies), TxnAfter(start, trace, |trace|, replies);
            && (local ==> to in {Idle, Unknown})
            && (!local ==> Commit !in CursorTrace(local, k, commit) && Rollback !in CursorTrace(local, k, commit))
            && (!local && from == InTrans ==> to in {InTrans, InError, Unknown})
            && (to == Unknown ==> exists i :: |before| <= i < |trace| && replies(i).Drops?)
  {
    var trace := before + CursorTrace(local, k, commit);
    TxnAfterPrefix(start, before, trace, |before|, replies);
    if TxnAfter(start, trace, |trace|, replies) == Unknown {
      LostOnlyByDrop(start, trace, |before|, |trace|, replies);
    }
    if !local {
      forall i | |before| <= i < |trace|
        ensures trace[i] in {Declare, FetchForward, CloseDeclared}
      {
        CallerTrace(k, commit, i - |before|);
      }
      BlockKept(start, trace, |before|, |trace|, replies);
      forall i | 0 <= i < |CursorTrace(local, k, commit)|
        ensures CursorTrace(local, k, commit)[i] !in {Commit, Rollback}
      {
        CallerTrace(k, commit, i);
      }
    } else {
      assert trace[|trace| - 1] in {Commit, Rollback};
    }
  }

  lemma CallerTrace(k: nat, commit: bool, i: nat)
    requires i < |CursorTrace(false, k, commit)|
    ensures CursorTrace(false, k, commit)[i] in {Declare, FetchForward, CloseDeclared}
  {
  }
}
