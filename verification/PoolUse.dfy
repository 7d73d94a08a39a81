/** What the pool calls of one query mean in the interleavings of the pool: a lease is held alone from its grant to its
    return, and an aborted query's connection is gone for good. */
module PoolUse {
  import opened Common
  import opened Postgres
  import opened StreamingQuery
  import opened QueryStream
  import Pool = ConnectionPool

  /** Step `i` of a pool run carries out this call. The pool also drops a connection that it finds unhealthy itself. */
  ghost predicate Performs(states: seq<Pool.State>, steps: seq<Pool.Step>, i: nat, call: PoolCall)
    requires |states| == |steps| + 1
  {
    && i < |steps|
    && match call
       case Acquired(conn) => states[i + 1].leases == states[i].leases + multiset{conn}
       case Released(conn, broken) => steps[i].Release? && steps[i].conn == conn && (broken ==> steps[i].broken)
  }

  /** None of the steps from `i` to before `n` returns the connection: its holder has not done so, and nobody else may. */
  predicate Unreturned(steps: seq<Pool.Step>, i: nat, n: nat, conn: nat) {
    forall m :: i <= m < n && m < |steps| ==> !(steps[m].Release? && steps[m].conn == conn)
  }

  /** The connection is on lease, once, and not idle. */
  ghost predicate LeasedAlone(s: Pool.State, conn: nat) {
    s.leases[conn] == 1 && conn !in s.pool.idle
  }

  lemma {:induction false} LargestSize(states: seq<Pool.State>, n: nat) returns (cap: int)
    requires n <= |states|
    ensures 0 <= cap && forall i :: 0 <= i < n ==> states[i].pool.poolSize <= cap
  {
    if n == 0 {
      cap := 0;
    } else {
      cap := LargestSize(states, n - 1);
      if cap < states[n - 1].pool.poolSize {
        cap := states[n - 1].pool.poolSize;
      }
    }
  }

  lemma StaysLeased(s: Pool.State, step: Pool.Step, conn: nat)
    requires Pool.Enabled(s, step) && conn in s.leases && !(step.Release? && step.conn == conn)
    ensures conn in Pool.Next(s, step).leases
  {
  }

  lemma {:induction false} LeasedSince(states: seq<Pool.State>, steps: seq<Pool.Step>, i: nat, n: nat, conn: nat)
    requires Pool.Run(states, steps) && Performs(states, steps, i, Acquired(conn)) && i < n <= |steps|
    requires Unreturned(steps, i + 1, n, conn)
    ensures conn in states[n].leases
    decreases n
  {
    if n > i + 1 {
      hide Pool.Next, Pool.Enabled;
      LeasedSince(states, steps, i, n - 1, conn);
      assert Pool.Moves(states, n - 1, steps[n - 1]);
      StaysLeased(states[n - 1], steps[n - 1], conn);
    }
  }

  /** A connection that is granted and not returned is held by one lease and is not idle, whatever the other threads do. */
  lemma LeaseKept(size: int, states: seq<Pool.State>, steps: seq<Pool.Step>, i: nat, n: nat, conn: nat)
    requires Pool.Run(states, steps) && Pool.Starts(states, size)
    requires Performs(states, steps, i, Acquired(conn)) && i < n <= |steps| && Unreturned(steps, i + 1, n, conn)
    ensures LeasedAlone(states[n], conn)
  {
    LeasedSince(states, steps, i, n, conn);
    var cap := LargestSize(states, |states|);
    hide Pool.Run, Unreturned, Performs;
    Pool.LeaseSafety(size, cap, states, steps, n);
  }

  /** The life of a lease that is granted at step `i` and returned at step `j`. */
  ghost predicate LeaseLife(states: seq<Pool.State>, steps: seq<Pool.Step>, i: nat, j: nat, conn: nat, broken: bool)
    requires |states| == |steps| + 1 && j < |steps| && steps[j].Release?
  {
    && (forall m :: i < m <= j ==> LeasedAlone(states[m], conn))
    && (broken ==> forall n :: j < n <= |steps| ==> Pool.Retired(states[n], conn))
    && (!steps[j].broken ==> states[j + 1].pool.idle == states[j].pool.idle + [conn] && conn !in states[j + 1].leases)
  }

  lemma ReturnedOnce(size: int, states: seq<Pool.State>, steps: seq<Pool.Step>, i: nat, j: nat, conn: nat, broken: bool)
    requires Pool.Run(states, steps) && Pool.Starts(states, size) && i < j
    requires Performs(states, steps, i, Acquired(conn)) && Performs(states, steps, j, Released(conn, broken))
    requires Unreturned(steps, i + 1, j, conn)
    ensures LeaseLife(states, steps, i, j, conn, broken)
  {
    forall m | i < m <= j
      ensures LeasedAlone(states[m], conn)
    {
      LeaseKept(size, states, steps, i, m, conn);
    }
    assert Pool.Moves(states, j, steps[j]);
    if broken {
      var cap := LargestSize(states, |states|);
      forall n | j < n <= |steps|
        ensures Pool.Retired(states[n], conn)
      {
        Pool.BrokenNeverReturns(size, cap, states, steps, j, n, conn);
      }
    }
    hide Pool.Run, Unreturned;
  }

  /** Every run of a pooled query, in every interleaving of the pool that carries out its calls at steps `i` and `j`. An
      opened query holds its connection alone until it returns it; unless it ended normally on a live session, the
      connection is never idle or leased again. A cursor query that does not open, or hangs, holds it for good. */
  method LeaseInPool(db: Backend, call: Call, request: Request, granted: Result<nat, string>, fetchRows: int,
                     wireBatchRows: int, what: string,
                     ghost size: int, ghost states: seq<Pool.State>, ghost steps: seq<Pool.Step>, ghost i: nat, ghost j: nat)
    returns (status: Status, exit: Exit)
    requires db.Valid() && call.attempted == call.accepted == [] && request.Pooled() && granted.Ok?
    requires Pool.Run(states, steps) && Pool.Starts(states, size)
    requires i < j < |steps| && Performs(states, steps, i, Acquired(granted.value))
    modifies db, call
    ensures WasOpened(exit) ==>
              var broken := !Normal(exit) || db.txn == Unknown;
              && db.poolCalls == old(db.poolCalls) + [Acquired(granted.value), Released(granted.value, broken)]
              && (Performs(states, steps, j, Released(granted.value, broken))
                  && Unreturned(steps, i + 1, j, granted.value) ==>
                    LeaseLife(states, steps, i, j, granted.value, broken))
    ensures exit.Hung? || (exit.NotOpened? && request.useCursor) ==>
              && db.poolCalls == old(db.poolCalls) + [Acquired(granted.value)]
              && forall n :: i < n <= |steps| && Unreturned(steps, i + 1, n, granted.value) ==>
                   LeasedAlone(states[n], granted.value)
  {
    ghost var cuts, hi, k, silent;
    assert |states| == |steps| + 1;
    hide Emitted, Outcome, CanOpen, Hits, TxnAfter, CursorTrace, Uncleared, LeavesResult, FetchBase, Deadlocks, FailedTrace,
         Pool.Run, Performs, Unreturned, LeaseLife, LeasedAlone, Pool.Starts;
    status, exit, cuts, hi, k, silent := Serve(db, call, request, granted, fetchRows, wireBatchRows, what);
    ghost var conn, broken := granted.value, !Normal(exit) || db.txn == Unknown;
    if Performs(states, steps, j, Released(conn, broken)) && Unreturned(steps, i + 1, j, conn) {
      ReturnedOnce(size, states, steps, i, j, conn, broken);
    }
    forall n | i < n <= |steps| && Unreturned(steps, i + 1, n, conn)
      ensures LeasedAlone(states[n], conn)
    {
      LeaseKept(size, states, steps, i, n, conn);
    }
  }
}
