/** The connection pool (src/pg/connection_manager.cpp): a monitor whose critical sections are the atomic steps of an
    interleaving of any number of threads. */
module ConnectionPool {
  import opened Common

  type Conn = nat
  type Thread = nat

  // ----- The monitor's variables and its critical sections -----

  datatype Pool = Pool(idle: seq<Conn>, inUse: int, poolSize: int, configured: bool)

  /** What a thread that enters Acquire's critical section does next. */
  datatype Grant = Take(conn: Conn) | Create | Wait

  /** The predicate of the condition variable. */
  predicate CanProceed(pool: Pool) {
    pool.idle != [] || pool.inUse < pool.poolSize
  }

  function GrantOf(pool: Pool): Grant {
    if pool.idle != [] then Take(pool.idle[0])
    else if pool.inUse < pool.poolSize then Create
    else Wait
  }

  function AfterGrant(pool: Pool): Pool {
    match GrantOf(pool)
    case Take(_) => pool.(idle := pool.idle[1..], inUse := pool.inUse + 1)
    case Create => pool.(inUse := pool.inUse + 1)
    case Wait => pool
  }

  function AfterRelease(pool: Pool, conn: Conn, broken: bool): Pool {
    if broken then pool.(inUse := pool.inUse - 1) else pool.(inUse := pool.inUse - 1, idle := pool.idle + [conn])
  }

  function Resized(pool: Pool, size: int): Pool {
    pool.(poolSize := if size > 0 then size else 1, configured := true)
  }

  function Warmed(pool: Pool, conn: Conn): Pool {
    pool.(idle := pool.idle + [conn])
  }

  function Closed(pool: Pool): Pool {
    pool.(idle := [], configured := false)
  }

  function CreationUndone(pool: Pool): Pool {
    pool.(inUse := pool.inUse - 1)
  }

  /** The code's class: each method is one critical section. Waiting, signalling and connecting happen between them. */
  class ConnectionManager {
    var idle: seq<Conn>
    var inUse: int
    var poolSize: int
    var configured: bool

    function View(): Pool
      reads this
    {
      Pool(idle, inUse, poolSize, configured)
    }

    constructor ()
      ensures View() == Pool([], 0, 8, false)
    {
      idle, inUse, poolSize, configured := [], 0, 8, false;
    }

    method Configure(size: int)
      modifies this
      ensures View() == Resized(old(View()), size)
    {
      poolSize := if size > 0 then size else 1;
      configured := true;
    }

    /** Connect: warms the pool with the connection just made, if any. Notifies nobody. */
    method Warm(made: Option<Conn>) returns (ok: bool)
      modifies this
      ensures ok == made.Some?
      ensures View() == if ok then Warmed(old(View()), made.value) else old(View())
    {
      ok := made.Some?;
      if ok {
        idle := idle + [made.value];
      }
    }

    /** Acquire, from the test of the wait predicate to the end of the critical section. */
    method AcquireLocked() returns (grant: Grant)
      modifies this
      ensures grant == GrantOf(old(View())) && View() == AfterGrant(old(View()))
      ensures grant.Wait? <==> !CanProceed(old(View()))
    {
      if idle == [] && inUse >= poolSize {
        return Wait;
      }
      if idle != [] {
        var conn := idle[0];
        idle := idle[1..];
        inUse := inUse + 1;
        return Take(conn);
      }
      inUse := inUse + 1;
      grant := Create;
    }

    /** The relocked section after a failed CreateConnection; a notification follows. */
    method CreateFailed()
      modifies this
      ensures View() == CreationUndone(old(View()))
    {
      inUse := inUse - 1;
    }

    /** Release of a connection; a notification follows in both branches. */
    method Release(conn: Conn, broken: bool, healthy: bool)
      modifies this
      ensures View() == AfterRelease(old(View()), conn, broken || !healthy)
    {
      inUse := inUse - 1;
      if broken || !healthy {
        return;
      }
      idle := idle + [conn];
    }

    method CloseAll()
      modifies this
      ensures View() == Closed(old(View()))
    {
      idle := [];
      configured := false;
    }
  }

  // ----- Interleavings -----

  /** The pool together with its threads: those blocked on the condition variable, those notified or spuriously woken
      that have not yet re-entered, those connecting outside the lock, and the connections out on lease. `warmed`
      counts the warm-up connections, `made` all connections ever made. */
  datatype State = State(
    pool: Pool, waiting: set<Thread>, signalled: set<Thread>, spurious: set<Thread>, creating: set<Thread>,
    leases: multiset<Conn>, warmed: nat, made: nat)

  /** One atomic step. `Enter` is a thread calling Acquire, `Resume` one re-entering after a wake-up. A step that
      notifies names the waiting thread that receives the notification, if it chooses one. */
  datatype Step =
    | Enter(t: Thread) | Resume(t: Thread) | SpuriousWake(t: Thread)
    | CreateOk(t: Thread) | CreateFail(t: Thread, woken: Option<Thread>)
    | Release(conn: Conn, broken: bool, woken: Option<Thread>)
    | Warm | Configure(size: int) | CloseAll

  predicate Outside(s: State, t: Thread) {
    t !in s.waiting && t !in s.signalled && t !in s.spurious && t !in s.creating
  }

  /** notify_one wakes a waiting thread if there is one, and nobody otherwise. */
  predicate Notifies(s: State, woken: Option<Thread>) {
    if s.waiting == {} then woken.None? else woken.Some? && woken.value in s.waiting
  }

  predicate Enabled(s: State, step: Step) {
    match step
    case Enter(t) => Outside(s, t)
    case Resume(t) => t in s.signalled || t in s.spurious
    case SpuriousWake(t) => t in s.waiting
    case CreateOk(t) => t in s.creating
    case CreateFail(t, woken) => t in s.creating && Notifies(s, woken)
    case Release(conn, _, woken) => conn in s.leases && Notifies(s, woken)
    case Warm => true
    case Configure(_) => true
    case CloseAll => true
  }

  function Notified(s: State, woken: Option<Thread>): State {
    if woken.None? then s
    else s.(waiting := s.waiting - {woken.value}, signalled := s.signalled + {woken.value})
  }

  /** A thread outside the wait set tests the predicate under the lock. */
  function Tests(s: State, t: Thread): State {
    var s' := s.(pool := AfterGrant(s.pool));
    match GrantOf(s.pool)
    case Take(conn) => s'.(leases := s.leases + multiset{conn})
    case Create => s'.(creating := s.creating + {t})
    case Wait => s'.(waiting := s.waiting + {t})
  }

  function Next(s: State, step: Step): State
    requires Enabled(s, step)
  {
    match step
    case Enter(t) => Tests(s, t)
    case Resume(t) => Tests(s.(signalled := s.signalled - {t}, spurious := s.spurious - {t}), t)
    case SpuriousWake(t) => s.(waiting := s.waiting - {t}, spurious := s.spurious + {t})
    case CreateOk(t) =>
      s.(creating := s.creating - {t}, leases := s.leases + multiset{s.made}, made := s.made + 1)
    case CreateFail(t, woken) =>
      Notified(s.(creating := s.creating - {t}, pool := CreationUndone(s.pool)), woken)
    case Release(conn, broken, woken) =>
      Notified(s.(leases := s.leases - multiset{conn}, pool := AfterRelease(s.pool, conn, broken)), woken)
    case Warm => s.(pool := Warmed(s.pool, s.made), made := s.made + 1, warmed := s.warmed + 1)
    case Configure(size) => s.(pool := Resized(s.pool, size))
    case CloseAll => s.(pool := Closed(s.pool))
  }

  function Initial(size: int): State {
    State(Pool([], 0, size, true), {}, {}, {}, {}, multiset{}, 0, 0)
  }

  /** An interleaving: each step is enabled in the state it is taken in and leads to the next state. */
  ghost predicate Run(states: seq<State>, steps: seq<Step>) {
    && |states| == |steps| + 1
    && (forall i :: 0 <= i < |steps| ==> Moves(states, i, steps[i]))
  }

  predicate Moves(states: seq<State>, i: nat, step: Step)
    requires i + 1 < |states|
  {
    Enabled(states[i], step) && states[i + 1] == Next(states[i], step)
  }

  predicate Starts(states: seq<State>, size: int) {
    |states| > 0 && states[0] == Initial(size)
  }

  // ----- Lease safety -----

  predicate NoDuplicates(idle: seq<Conn>) {
    forall i, j :: 0 <= i < j < |idle| ==> idle[i] != idle[j]
  }

  /** A thread is in at most one of the phases. */
  predicate OnePhase(s: State) {
    s.waiting !! s.signalled !! s.spurious !! s.creating
  }

  /** No connection is idle twice, leased twice, or idle and leased; all of them have been made. */
  ghost predicate Exclusive(idle: seq<Conn>, leases: multiset<Conn>, made: nat) {
    && NoDuplicates(idle)
    && (forall c :: c in leases ==> leases[c] == 1 && c !in idle && c < made)
    && (forall c :: c in idle ==> c < made)
  }

  /** in_use_ counts the leases and the pending creations, connections are held exclusively, and together with the idle
      ones they exceed `cap` by the warm-up connections at most. */
  ghost predicate LeaseSafe(s: State, cap: int) {
    && OnePhase(s)
    && s.pool.inUse == |s.leases| + |s.creating|
    && Exclusive(s.pool.idle, s.leases, s.made)
    && s.pool.inUse + |s.pool.idle| <= cap + s.warmed
  }

  lemma ExclusiveTake(idle: seq<Conn>, leases: multiset<Conn>, made: nat)
    requires Exclusive(idle, leases, made) && idle != []
    ensures Exclusive(idle[1..], leases + multiset{idle[0]}, made)
  {
    assert idle[0] in idle;
    forall c | c in idle[1..] ensures c in idle && c != idle[0] {}
  }

  lemma ExclusiveReturn(idle: seq<Conn>, leases: multiset<Conn>, made: nat, conn: Conn)
    requires Exclusive(idle, leases, made) && conn in leases
    ensures Exclusive(idle, leases - multiset{conn}, made)
    ensures Exclusive(idle + [conn], leases - multiset{conn}, made)
  {
  }

  lemma TestsSafe(s: State, cap: int, t: Thread)
    requires LeaseSafe(s, cap) && s.pool.poolSize <= cap && Outside(s, t)
    ensures LeaseSafe(Tests(s, t), cap)
  {
    if s.pool.idle != [] {
      ExclusiveTake(s.pool.idle, s.leases, s.made);
    }
    hide Exclusive;
  }

  lemma NotifiedSafe(s: State, cap: int, woken: Option<Thread>)
    requires LeaseSafe(s, cap) && Notifies(s, woken)
    ensures LeaseSafe(Notified(s, woken), cap)
  {
    hide Exclusive;
  }

  lemma CreateOkSafe(s: State, cap: int, t: Thread)
    requires LeaseSafe(s, cap) && Enabled(s, CreateOk(t))
    ensures LeaseSafe(Next(s, CreateOk(t)), cap)
  {
    assert s.made !in s.leases && s.made !in s.pool.idle;
  }

  lemma ReleaseSafe(s: State, cap: int, conn: Conn, broken: bool)
    requires LeaseSafe(s, cap) && conn in s.leases
    ensures LeaseSafe(s.(leases := s.leases - multiset{conn}, pool := AfterRelease(s.pool, conn, broken)), cap)
  {
    ExclusiveReturn(s.pool.idle, s.leases, s.made, conn);
    hide Exclusive;
  }

  lemma WarmSafe(s: State, cap: int)
    requires LeaseSafe(s, cap)
    ensures LeaseSafe(Next(s, Warm), cap)
  {
    assert s.made !in s.pool.idle;
  }

  lemma ResumeSafe(s: State, cap: int, t: Thread)
    requires LeaseSafe(s, cap) && s.pool.poolSize <= cap && Enabled(s, Resume(t))
    ensures LeaseSafe(Next(s, Resume(t)), cap)
  {
    TestsSafe(s.(signalled := s.signalled - {t}, spurious := s.spurious - {t}), cap, t);
    hide LeaseSafe;
  }

  lemma CreateFailSafe(s: State, cap: int, t: Thread, woken: Option<Thread>)
    requires LeaseSafe(s, cap) && Enabled(s, CreateFail(t, woken))
    ensures LeaseSafe(Next(s, CreateFail(t, woken)), cap)
  {
    hide Exclusive;
    var s' := s.(creating := s.creating - {t}, pool := CreationUndone(s.pool));
    assert LeaseSafe(s', cap);
    hide LeaseSafe;
    NotifiedSafe(s', cap, woken);
  }

  lemma ReleaseStepSafe(s: State, cap: int, conn: Conn, broken: bool, woken: Option<Thread>)
    requires LeaseSafe(s, cap) && Enabled(s, Release(conn, broken, woken))
    ensures LeaseSafe(Next(s, Release(conn, broken, woken)), cap)
  {
    hide LeaseSafe;
    ReleaseSafe(s, cap, conn, broken);
    NotifiedSafe(s.(leases := s.leases - multiset{conn}, pool := AfterRelease(s.pool, conn, broken)), cap, woken);
  }

  lemma QuietSafe(s: State, cap: int, step: Step)
    requires LeaseSafe(s, cap) && Enabled(s, step) && (step.SpuriousWake? || step.Configure? || step.CloseAll?)
    ensures LeaseSafe(Next(s, step), cap)
  {
  }

  lemma StepSafe(s: State, cap: int, step: Step)
    requires LeaseSafe(s, cap) && Enabled(s, step) && s.pool.poolSize <= cap
    ensures LeaseSafe(Next(s, step), cap)
  {
    match step {
      case Enter(t) => hide LeaseSafe, GrantOf, AfterGrant; TestsSafe(s, cap, t);
      case Resume(t) => hide *; ResumeSafe(s, cap, t);
      case Release(conn, broken, woken) => hide *; ReleaseStepSafe(s, cap, conn, broken, woken);
      case CreateFail(t, woken) => hide *; CreateFailSafe(s, cap, t, woken);
      case CreateOk(t) => hide *; CreateOkSafe(s, cap, t);
      case Warm => hide *; WarmSafe(s, cap);
      case SpuriousWake(t) => hide *; QuietSafe(s, cap, step);
      case Configure(_) => hide *; QuietSafe(s, cap, step);
      case CloseAll => hide *; QuietSafe(s, cap, step);
    }
  }

  /** Lease safety over all interleavings: whatever the threads do, after every step in_use_ is the number of leases plus
      pending creations, no connection is idle twice, leased twice or idle while leased, and in_use_ + |idle_| is at most
      the largest pool size configured so far plus the number of warm-up connections. */
  lemma {:induction false} LeaseSafety(size: int, cap: int, states: seq<State>, steps: seq<Step>, n: nat)
    requires Run(states, steps) && Starts(states, size) && n <= |steps|
    requires forall i :: 0 <= i <= n ==> states[i].pool.poolSize <= cap
    requires 0 <= cap
    ensures LeaseSafe(states[n], cap)
  {
    if n > 0 {
      hide LeaseSafe, Next, Enabled;
      LeaseSafety(size, cap, states, steps, n - 1);
      assert Moves(states, n - 1, steps[n - 1]);
      StepSafe(states[n - 1], cap, steps[n - 1]);
    }
  }

  /** With a pool size that is never changed, that size is the bound. */
  lemma FixedSizeSafety(size: int, states: seq<State>, steps: seq<Step>, n: nat)
    requires size >= 1 && Run(states, steps) && Starts(states, size) && n <= |steps|
    requires forall i :: 0 <= i < |steps| ==> !steps[i].Configure?
    ensures states[n].pool.poolSize == size && LeaseSafe(states[n], size)
  {
    forall i | 0 <= i <= n ensures states[i].pool.poolSize == size {
      SizeKept(size, states, steps, i);
    }
    hide LeaseSafe, Run;
    LeaseSafety(size, size, states, steps, n);
  }

  lemma {:induction false} SizeKept(size: int, states: seq<State>, steps: seq<Step>, n: nat)
    requires Run(states, steps) && Starts(states, size) && n <= |steps|
    requires forall i :: 0 <= i < |steps| ==> !steps[i].Configure?
    ensures states[n].pool.poolSize == size
  {
    if n > 0 {
      SizeKept(size, states, steps, n - 1);
      assert Moves(states, n - 1, steps[n - 1]);
    }
  }

  // ----- Broken connections -----

  /** A connection that was made, and is neither idle nor on lease. */
  ghost predicate Retired(s: State, conn: Conn) {
    conn < s.made && conn !in s.pool.idle && conn !in s.leases
  }

  lemma StaysRetired(s: State, step: Step, conn: Conn)
    requires Retired(s, conn) && Enabled(s, step)
    ensures Retired(Next(s, step), conn)
  {
    match step {
      case Enter(t) => RetiredTests(s, t, conn); hide Retired;
      case Resume(t) =>
        RetiredTests(s.(signalled := s.signalled - {t}, spurious := s.spurious - {t}), t, conn);
        hide Retired, AfterGrant, GrantOf;
      case Release(c, broken, _) => assert c != conn; hide AfterGrant, GrantOf;
      case _ => hide AfterGrant, GrantOf, AfterRelease;
    }
  }

  lemma RetiredTests(s: State, t: Thread, conn: Conn)
    requires Retired(s, conn)
    ensures Retired(Tests(s, t), conn)
  {
    assert s.pool.idle != [] ==> s.pool.idle[0] in s.pool.idle;
  }

  lemma BrokenRetires(s: State, cap: int, conn: Conn, woken: Option<Thread>)
    requires LeaseSafe(s, cap) && Enabled(s, Release(conn, true, woken))
    ensures Retired(Next(s, Release(conn, true, woken)), conn)
  {
  }

  /** A connection that is released as broken is never idle, and never leased, again. */
  lemma {:induction false} BrokenNeverReturns(
    size: int, cap: int, states: seq<State>, steps: seq<Step>, i: nat, n: nat, conn: Conn)
    requires Run(states, steps) && Starts(states, size) && 0 <= cap && i < n <= |steps|
    requires forall j :: 0 <= j <= n ==> states[j].pool.poolSize <= cap
    requires steps[i].Release? && steps[i].conn == conn && steps[i].broken
    ensures Retired(states[n], conn)
    decreases n
  {
    hide LeaseSafe, Next, Enabled, Retired;
    assert Moves(states, n - 1, steps[n - 1]);
    if n == i + 1 {
      LeaseSafety(size, cap, states, steps, i);
      BrokenRetires(states[i], cap, conn, steps[i].woken);
    } else {
      BrokenNeverReturns(size, cap, states, steps, i, n - 1, conn);
      StaysRetired(states[n - 1], steps[n - 1], conn);
    }
  }

  lemma ClosedRetires(s: State, cap: int, conn: Conn)
    requires LeaseSafe(s, cap) && conn in s.pool.idle
    ensures Retired(Next(s, CloseAll), conn)
  {
  }

  /** A connection that is idle when the pool is closed is never handed out again. */
  lemma {:induction false} ClosedNeverReturns(
    size: int, cap: int, states: seq<State>, steps: seq<Step>, i: nat, n: nat, conn: Conn)
    requires Run(states, steps) && Starts(states, size) && 0 <= cap && i < n <= |steps|
    requires forall j :: 0 <= j <= n ==> states[j].pool.poolSize <= cap
    requires steps[i].CloseAll? && conn in states[i].pool.idle
    ensures Retired(states[n], conn)
    decreases n
  {
    hide LeaseSafe, Next, Enabled, Retired;
    assert Moves(states, n - 1, steps[n - 1]);
    if n == i + 1 {
      LeaseSafety(size, cap, states, steps, i);
      ClosedRetires(states[i], cap, conn);
    } else {
      ClosedNeverReturns(size, cap, states, steps, i, n - 1, conn);
      StaysRetired(states[n - 1], steps[n - 1], conn);
    }
  }

  // ----- The order of the idle queue -----

  /** `conn` has been idle for longer than `other`. */
  ghost predicate Precedes(idle: seq<Conn>, conn: Conn, other: Conn) {
    exists i, j :: 0 <= i < j < |idle| && idle[i] == conn && idle[j] == other
  }

  lemma PrecedesDrop(idle: seq<Conn>, conn: Conn, other: Conn)
    requires Precedes(idle, conn, other)
    ensures idle[0] == conn || Precedes(idle[1..], conn, other)
  {
    var i, j :| 0 <= i < j < |idle| && idle[i] == conn && idle[j] == other;
    if i > 0 {
      assert idle[1..][i - 1] == conn && idle[1..][j - 1] == other;
    }
  }

  lemma PrecedesGrow(idle: seq<Conn>, conn: Conn, other: Conn, more: Conn)
    requires Precedes(idle, conn, other)
    ensures Precedes(idle + [more], conn, other)
  {
    var i, j :| 0 <= i < j < |idle| && idle[i] == conn && idle[j] == other;
    assert (idle + [more])[i] == conn && (idle + [more])[j] == other;
  }

  /** First in, first out: of two idle connections, no step takes the younger one. After every step the older one is still
      ahead of it, unless it has been taken itself or the pool has been closed. */
  lemma OldestFirst(s: State, step: Step, conn: Conn, other: Conn)
    requires Enabled(s, step) && Precedes(s.pool.idle, conn, other) && NoDuplicates(s.pool.idle)
    ensures GrantOf(s.pool) != Take(other)
    ensures var s' := Next(s, step);
            || Precedes(s'.pool.idle, conn, other)
            || ((step.Enter? || step.Resume?) && GrantOf(s.pool) == Take(conn) && other in s'.pool.idle)
            || step.CloseAll?
  {
    var idle := s.pool.idle;
    var i, j :| 0 <= i < j < |idle| && idle[i] == conn && idle[j] == other;
    assert idle[1..][j - 1] == other;
    PrecedesDrop(idle, conn, other);
    hide Precedes, NoDuplicates;
    match step {
      case Release(c, _, _) => PrecedesGrow(idle, conn, other, c);
      case Warm => PrecedesGrow(idle, conn, other, s.made);
      case _ =>
    }
  }

  // ----- No lost wake-ups -----

  /** How many Acquires could proceed one after the other. */
  function Available(pool: Pool): int {
    if |pool.idle| > pool.poolSize - pool.inUse then |pool.idle| else pool.poolSize - pool.inUse
  }

  /** While a thread waits, every Acquire that could proceed has a notified thread on its way. */
  predicate NoLostWakeup(s: State) {
    OnePhase(s) && (s.waiting != {} ==> Available(s.pool) <= |s.signalled|)
  }

  /** A step that notifies nobody leaves no waiting thread behind: nobody waits, or the threads already notified outnumber
      the idle connections before a warm-up, or reach the free places of a new pool size. */
  predicate Covered(s: State, step: Step) {
    match step
    case Warm => s.waiting == {} || |s.pool.idle| < |s.signalled|
    case Configure(size) => s.waiting == {} || (if size > 0 then size else 1) - s.pool.inUse <= |s.signalled|
    case _ => true
  }

  predicate CoveredAt(states: seq<State>, steps: seq<Step>, i: nat)
    requires i < |steps| < |states|
  {
    Covered(states[i], steps[i])
  }

  lemma TestsWake(s: State, t: Thread, signalled: int)
    requires OnePhase(s) && Outside(s, t)
    requires s.waiting != {} ==> Available(s.pool) <= signalled
    ensures var s' := Tests(s, t);
            && OnePhase(s')
            && (GrantOf(s.pool).Wait? ==> Available(s'.pool) <= 0)
            && (!GrantOf(s.pool).Wait? ==> s'.waiting == s.waiting && Available(s'.pool) == Available(s.pool) - 1)
  {
  }

  /** A section that frees one place and then notifies keeps the property. */
  lemma FreedWakes(s: State, pool: Pool, woken: Option<Thread>)
    requires NoLostWakeup(s) && Notifies(s, woken) && Available(pool) <= Available(s.pool) + 1
    ensures NoLostWakeup(Notified(s.(pool := pool), woken))
  {
    hide Available;
  }

  lemma WakesIgnore(s: State, creating: set<Thread>, leases: multiset<Conn>, made: nat)
    requires NoLostWakeup(s) && creating <= s.creating
    ensures NoLostWakeup(s.(creating := creating, leases := leases, made := made))
  {
  }

  lemma EnterWakes(s: State, t: Thread)
    requires NoLostWakeup(s) && Enabled(s, Enter(t))
    ensures NoLostWakeup(Next(s, Enter(t)))
  {
    TestsWake(s, t, |s.signalled|);
    hide Available;
  }

  lemma ResumeWakes(s: State, t: Thread)
    requires NoLostWakeup(s) && Enabled(s, Resume(t))
    ensures NoLostWakeup(Next(s, Resume(t)))
  {
    TestsWake(s.(signalled := s.signalled - {t}, spurious := s.spurious - {t}), t, |s.signalled|);
    hide Available, GrantOf, AfterGrant;
  }

  lemma CreateFailWakes(s: State, t: Thread, woken: Option<Thread>)
    requires NoLostWakeup(s) && Enabled(s, CreateFail(t, woken))
    ensures NoLostWakeup(Next(s, CreateFail(t, woken)))
  {
    hide NoLostWakeup;
    WakesIgnore(s, s.creating - {t}, s.leases, s.made);
    FreedWakes(s.(creating := s.creating - {t}), CreationUndone(s.pool), woken);
  }

  lemma ReleaseWakes(s: State, conn: Conn, broken: bool, woken: Option<Thread>)
    requires NoLostWakeup(s) && Enabled(s, Release(conn, broken, woken))
    ensures NoLostWakeup(Next(s, Release(conn, broken, woken)))
  {
    hide NoLostWakeup;
    WakesIgnore(s, s.creating, s.leases - multiset{conn}, s.made);
    FreedWakes(s.(leases := s.leases - multiset{conn}), AfterRelease(s.pool, conn, broken), woken);
  }

  lemma QuietWakes(s: State, step: Step)
    requires NoLostWakeup(s) && Enabled(s, step) && (step.SpuriousWake? || step.CloseAll?)
    ensures NoLostWakeup(Next(s, step))
  {
  }

  lemma UnnotifiedWakesIff(s: State, step: Step)
    requires NoLostWakeup(s) && (step.Warm? || step.Configure?)
    ensures NoLostWakeup(Next(s, step)) <==> Covered(s, step)
  {
  }

  /** A step keeps the property exactly when it is covered. */
  lemma StepWakesIff(s: State, step: Step)
    requires NoLostWakeup(s) && Enabled(s, step)
    ensures NoLostWakeup(Next(s, step)) <==> Covered(s, step)
  {
    match step {
      case Enter(t) => hide NoLostWakeup, Next; EnterWakes(s, t);
      case Resume(t) => hide NoLostWakeup, Next; ResumeWakes(s, t);
      case CreateFail(t, woken) => hide NoLostWakeup, Next; CreateFailWakes(s, t, woken);
      case Release(conn, broken, woken) => hide NoLostWakeup, Next; ReleaseWakes(s, conn, broken, woken);
      case CreateOk(t) =>
        hide NoLostWakeup;
        WakesIgnore(s, s.creating - {t}, s.leases + multiset{s.made}, s.made + 1);
      case SpuriousWake(t) => hide NoLostWakeup, Next; QuietWakes(s, step);
      case CloseAll => hide NoLostWakeup, Next; QuietWakes(s, step);
      case Warm => hide *; UnnotifiedWakesIff(s, step);
      case Configure(_) => hide *; UnnotifiedWakesIff(s, step);
    }
  }

  ghost predicate WakeupsKept(states: seq<State>, n: nat)
    requires n < |states|
  {
    forall m :: 0 <= m <= n ==> NoLostWakeup(states[m])
  }

  ghost predicate AllCovered(states: seq<State>, steps: seq<Step>, n: nat)
    requires n <= |steps| < |states|
  {
    forall i :: 0 <= i < n ==> CoveredAt(states, steps, i)
  }

  /** Lost wake-ups, exactly: a run loses none up to its n-th state if and only if each of its warm-ups and resizes so far
      was covered when it happened, whatever the other threads do, stealing and spurious wake-ups included. */
  lemma {:induction false} WakeupsKeptIff(size: int, states: seq<State>, steps: seq<Step>, n: nat)
    requires Run(states, steps) && Starts(states, size) && n <= |steps|
    ensures WakeupsKept(states, n) <==> AllCovered(states, steps, n)
  {
    hide NoLostWakeup, Next, Enabled, Covered;
    if n == 0 {
      InitialWakes(size);
    } else {
      WakeupsKeptIff(size, states, steps, n - 1);
      assert Moves(states, n - 1, steps[n - 1]);
      if NoLostWakeup(states[n - 1]) {
        StepWakesIff(states[n - 1], steps[n - 1]);
      }
      assert WakeupsKept(states, n) <==> WakeupsKept(states, n - 1) && NoLostWakeup(states[n]);
      assert AllCovered(states, steps, n) <==> AllCovered(states, steps, n - 1) && CoveredAt(states, steps, n - 1);
      hide Run;
    }
  }

  lemma InitialWakes(size: int)
    ensures NoLostWakeup(Initial(size))
  {
  }

  /** A warm-up, or a resize to a larger pool, while somebody waits. */
  predicate Quietly(s: State, step: Step) {
    && s.waiting != {}
    && (step.Warm? || (step.Configure? && s.pool.poolSize < Resized(s.pool, step.size).poolSize))
  }

  predicate QuietAt(states: seq<State>, steps: seq<Step>, i: nat)
    requires i < |steps| < |states|
  {
    Quietly(states[i], steps[i])
  }

  /** No lost wake-ups over all interleavings without a warm-up or enlargement while somebody waits. */
  lemma {:induction false} NoLostWakeups(size: int, states: seq<State>, steps: seq<Step>, n: nat)
    requires Run(states, steps) && Starts(states, size) && n <= |steps|
    requires forall i :: 0 <= i < n ==> !QuietAt(states, steps, i)
    ensures WakeupsKept(states, n) && AllCovered(states, steps, n)
  {
    hide NoLostWakeup, Covered, Quietly, Next, Enabled;
    WakeupsKeptIff(size, states, steps, n);
    if n > 0 {
      NoLostWakeups(size, states, steps, n - 1);
      assert NoLostWakeup(states[n - 1]) && !QuietAt(states, steps, n - 1);
      CalmIsCovered(states[n - 1], steps[n - 1]);
      assert CoveredAt(states, steps, n - 1);
    }
  }

  lemma CalmIsCovered(s: State, step: Step)
    requires NoLostWakeup(s) && !Quietly(s, step)
    ensures Covered(s, step)
  {
  }

  /** No deadlock: if threads wait and none of them has been notified, then the pool has nothing to hand out and every
      one of its places is a lease or a pending creation, whose return or failure will notify. */
  lemma WaitersAreOwed(size: int, cap: int, states: seq<State>, steps: seq<Step>, n: nat)
    requires Run(states, steps) && Starts(states, size) && n <= |steps| && 0 <= cap
    requires forall i :: 0 <= i <= n ==> 1 <= states[i].pool.poolSize <= cap
    requires AllCovered(states, steps, n)
    requires states[n].waiting != {} && states[n].signalled == {}
    ensures !CanProceed(states[n].pool)
    ensures |states[n].leases| + |states[n].creating| >= states[n].pool.poolSize >= 1
  {
    assert n < |states|;
    hide Run, CoveredAt, Exclusive, Starts;
    LeaseSafety(size, cap, states, steps, n);
    WakeupsKeptIff(size, states, steps, n);
    assert NoLostWakeup(states[n]);
  }

  /** A run that loses a wake-up: one thread holds the only connection, thread 1 waits, and a warm-up adds an idle
      connection that nobody is told about. */
  lemma WarmLosesWakeup()
    ensures exists states: seq<State>, steps: seq<Step> ::
              && Run(states, steps) && Starts(states, 1)
              && var s := states[|steps|];
                 s.waiting == {1} && s.signalled == {} && s.spurious == {} && CanProceed(s.pool)
  {
    var s0 := Initial(1);
    var s1 := Next(s0, Enter(0));
    var s2 := Next(s1, CreateOk(0));
    var s3 := Next(s2, Enter(1));
    var s4 := Next(s3, Warm);
    var states, steps := [s0, s1, s2, s3, s4], [Enter(0), CreateOk(0), Enter(1), Warm];
    assert forall i :: 0 <= i < |steps| ==> Moves(states, i, steps[i]);
    assert Run(states, steps) && Starts(states, 1);
  }

  /** Progress: when a notified thread re-enters and capacity is there, it gets it. */
  lemma SignalledProceeds(s: State, t: Thread)
    requires OnePhase(s) && t in s.signalled && Available(s.pool) > 0
    ensures t !in Next(s, Resume(t)).waiting
    ensures |Next(s, Resume(t)).leases| + |Next(s, Resume(t)).creating| == |s.leases| + |s.creating| + 1
  {
  }

  // ----- What a leaked lease costs -----

  /** A step that could bring capacity back to a pool whose leases are all `leaked`: a leaked connection is returned
      after all, a connection is warmed up, or the pool grows beyond its leases. */
  predicate Restores(step: Step, leaked: multiset<Conn>) {
    match step
    case Release(conn, _, _) => conn in leaked
    case Warm => true
    case Configure(size) => size > |leaked|
    case _ => false
  }

  /** Once every place of the pool is a leaked lease, and no connection is idle or being made, no thread is ever granted
      a connection again without such a step: they all end up waiting, whatever the interleaving. */
  lemma {:induction false} LeakedPoolNeverGrants(
    leaked: multiset<Conn>, states: seq<State>, steps: seq<Step>, n: nat)
    requires Run(states, steps) && n <= |steps|
    requires var s := states[0];
             && s.leases == leaked && s.creating == {} && s.pool.idle == []
             && |leaked| == s.pool.inUse >= s.pool.poolSize && |leaked| >= 1
    requires forall i :: 0 <= i < n ==> !Restores(steps[i], leaked)
    ensures var s := states[n];
            && s.leases == leaked && s.creating == {} && s.pool.idle == []
            && |leaked| == s.pool.inUse >= s.pool.poolSize && !CanProceed(s.pool)
  {
    if n > 0 {
      LeakedPoolNeverGrants(leaked, states, steps, n - 1);
      assert Moves(states, n - 1, steps[n - 1]);
    }
  }
}
