/** The database connection pool of the demo application: a counter of
    active connections bounded by the pool size plus the allowed overflow,
    and mock connections that give their slot back once, on the first close.

    A connection shares its pool, so the model keeps the pool together with
    every connection handed out as a `World`; a connection is its index in
    `closed`.  The lock only serialises the two pool operations and is not
    modelled: the operations are applied one after another.
 */
module ConnectionPool {
  import opened Wrappers

  datatype Pool = Pool(poolSize: int, maxOverflow: int, active: int)

  /** How many connections may be active at once. */
  function Capacity(p: Pool): int {
    p.poolSize + p.maxOverflow
  }

  const DefaultPoolSize := 5
  const DefaultMaxOverflow := 5
  const Exhausted := "Database connection pool exhausted"

  /** A fresh pool has no active connection. */
  function NewPool(poolSize: int, maxOverflow: int): (p: Pool)
    ensures p.active == 0 && Capacity(p) == poolSize + maxOverflow
  {
    Pool(poolSize, maxOverflow, 0)
  }

  /** The counter stays between 0 and the capacity. */
  predicate PoolValid(p: Pool) {
    0 <= p.active <= Capacity(p)
  }

  /** `acquire`: refuses once the capacity is reached, otherwise counts one
      more active connection. */
  function Acquire(p: Pool): (r: Result<Pool, string>)
    ensures r.Failure? <==> p.active >= Capacity(p)
    ensures r.Failure? ==> r.error == Exhausted
    ensures r.Success? ==> r.value.active == p.active + 1
    ensures r.Success? ==> r.value.poolSize == p.poolSize && r.value.maxOverflow == p.maxOverflow
  {
    if p.active >= Capacity(p) then Failure(Exhausted)
    else Success(p.(active := p.active + 1))
  }

  /** `release`: counts one connection fewer, never going below zero. */
  function Release(p: Pool): (r: Pool)
    ensures r.active >= 0
    ensures p.active >= 1 ==> r.active == p.active - 1
    ensures p.active <= 0 ==> r.active == 0
    ensures r.poolSize == p.poolSize && r.maxOverflow == p.maxOverflow
  {
    p.(active := if p.active - 1 > 0 then p.active - 1 else 0)
  }

  /** Both pool operations keep the counter within its bounds. */
  lemma PoolOperationsPreserveValid(p: Pool)
    requires PoolValid(p)
    ensures Acquire(p).Success? ==> PoolValid(Acquire(p).value)
    ensures PoolValid(Release(p))
  {
  }

  /** Releasing after a successful acquire gives the pool back. */
  lemma ReleaseUndoesAcquire(p: Pool)
    requires p.active >= 0 && Acquire(p).Success?
    ensures Release(Acquire(p).value) == p
  {
  }

  /** A full pool refuses until a connection is released, and then accepts
      exactly one more. */
  lemma FullPoolAcceptsAfterRelease(p: Pool)
    requires PoolValid(p) && p.active == Capacity(p) && p.active > 0
    ensures Acquire(p).Failure?
    ensures Acquire(Release(p)).Success?
    ensures Acquire(Acquire(Release(p)).value).Failure?
  {
  }

  /** The pool and the closed flag of every connection acquired from it, in
      order of acquisition. */
  datatype World = World(pool: Pool, closed: seq<bool>)

  /** The number of connections not yet closed. */
  function OpenCount(closed: seq<bool>): (n: nat)
    ensures n <= |closed|
    ensures n == 0 <==> forall i :: 0 <= i < |closed| ==> closed[i]
    decreases |closed|
  {
    if |closed| == 0 then 0
    else
      var n := OpenCount(closed[..|closed| - 1]);
      assert forall i :: 0 <= i < |closed| - 1 ==> closed[..|closed| - 1][i] == closed[i];
      n + (if closed[|closed| - 1] then 0 else 1)
  }

  /** The pool counts exactly the open connections, within its bounds. */
  predicate Valid(w: World) {
    PoolValid(w.pool) && w.pool.active == OpenCount(w.closed)
  }

  /** A fresh pool with no connection handed out. */
  function Start(poolSize: int, maxOverflow: int): (w: World)
    requires poolSize + maxOverflow >= 0
    ensures Valid(w)
  {
    World(NewPool(poolSize, maxOverflow), [])
  }

  datatype Acquired = Acquired(world: World, conn: Result<nat, string>)

  /** `acquire` handing out a new open connection, or raising with the world
      unchanged. */
  function Connect(w: World): (r: Acquired)
    ensures r.conn.Failure? <==> w.pool.active >= Capacity(w.pool)
    ensures r.conn.Failure? ==> r.world == w && r.conn.error == Exhausted
    ensures r.conn.Success? ==>
      && r.conn.value == |w.closed|
      && r.world.closed == w.closed + [false]
      && r.world.pool.active == w.pool.active + 1
  {
    match Acquire(w.pool)
    case Failure(e) => Acquired(w, Failure(e))
    case Success(p) => Acquired(World(p, w.closed + [false]), Success(|w.closed|))
  }

  /** `close`: the first close of a connection releases its slot and marks
      it closed; closing it again changes nothing. */
  function Close(w: World, c: nat): (r: World)
    requires c < |w.closed|
    ensures |r.closed| == |w.closed| && r.closed[c]
    ensures forall i :: 0 <= i < |w.closed| && i != c ==> r.closed[i] == w.closed[i]
    ensures w.closed[c] ==> r == w
    ensures !w.closed[c] ==> r.pool == Release(w.pool)
  {
    if w.closed[c] then w
    else World(Release(w.pool), w.closed[c := true])
  }

  /** Leaving a `with` block closes the connection. */
  function Exit(w: World, c: nat): (r: World)
    requires c < |w.closed|
    ensures r.closed == w.closed[c := true]
    ensures w.closed[c] ==> r.pool == w.pool
    ensures !w.closed[c] ==> r.pool == Release(w.pool)
  {
    Close(w, c)
  }

  datatype QueryResult = QueryResult(success: bool, rows: seq<seq<string>>)

  /** `execute`: every query succeeds with no rows, open connection or not
      (the deliberate slowdown of ordered queries is not modelled). */
  function Execute(query: string): (r: QueryResult)
    ensures r.success && |r.rows| == 0
  {
    QueryResult(true, [])
  }

  /** Closing an open connection lowers the open count by exactly one. */
  lemma {:induction false} CloseOneLessOpen(closed: seq<bool>, c: nat)
    requires c < |closed| && !closed[c]
    ensures OpenCount(closed[c := true]) + 1 == OpenCount(closed)
    decreases |closed|
  {
    var last := |closed| - 1;
    var after := closed[c := true];
    assert after[..last] == if c == last then closed[..last] else closed[..last][c := true];
    if c < last {
      CloseOneLessOpen(closed[..last], c);
    }
  }

  /** Acquiring and closing keep the pool counting exactly the open
      connections, within its bounds. */
  lemma ConnectionsPreserveValid(w: World, c: nat)
    requires Valid(w)
    ensures Valid(Connect(w).world)
    ensures c < |w.closed| ==> Valid(Close(w, c))
  {
    var closed := w.closed;
    assert (closed + [false])[..|closed|] == closed;
    if c < |closed| && !closed[c] {
      CloseOneLessOpen(closed, c);
    }
  }

  /** Closing twice is closing once. */
  lemma CloseIdempotent(w: World, c: nat)
    requires c < |w.closed|
    ensures Close(Close(w, c), c) == Close(w, c)
  {
  }

  /** In a valid world the floor at zero is never reached: the first close
      of a connection lowers the counter by exactly one. */
  lemma FirstCloseReleasesOne(w: World, c: nat)
    requires Valid(w) && c < |w.closed| && !w.closed[c]
    ensures Close(w, c).pool.active == w.pool.active - 1
  {
    CloseOneLessOpen(w.closed, c);
  }

  /** An operation on the world a program can perform. */
  datatype Op = DoConnect | DoClose(conn: nat) | DoExit(conn: nat) | DoExecute(query: string)

  /** Applies one operation; a connection number that was never handed out
      names no connection and changes nothing. */
  function Apply(w: World, op: Op): (r: World)
    ensures |r.closed| >= |w.closed|
  {
    match op
    case DoConnect => Connect(w).world
    case DoClose(c) => if c < |w.closed| then Close(w, c) else w
    case DoExit(c) => if c < |w.closed| then Exit(w, c) else w
    case DoExecute(_) => w
  }

  function Run(w: World, ops: seq<Op>): World
    decreases |ops|
  {
    if |ops| == 0 then w else Run(Apply(w, ops[0]), ops[1..])
  }

  /** Every world reachable from a valid one is valid: however connections
      are acquired, closed and used, the counter stays between zero and the
      capacity and equals the number of open connections. */
  lemma {:induction false} RunPreservesValid(w: World, ops: seq<Op>)
    requires Valid(w)
    ensures Valid(Run(w, ops))
    decreases |ops|
  {
    if |ops| > 0 {
      match ops[0] {
        case DoConnect => ConnectionsPreserveValid(w, 0);
        case DoClose(c) => ConnectionsPreserveValid(w, c);
        case DoExit(c) => ConnectionsPreserveValid(w, c);
        case DoExecute(_) =>
      }
      RunPreservesValid(Apply(w, ops[0]), ops[1..]);
    }
  }

  /** Two connections from a pool of two plus one overflow: the counter goes
      1, 2, then back 1, 0 as they are closed. */
  lemma AcquireReleaseScenario()
    ensures
      var w0 := Start(2, 1);
      var a1 := Connect(w0);
      var a2 := Connect(a1.world);
      var w3 := Close(a2.world, a1.conn.value);
      var w4 := Close(w3, a2.conn.value);
      && a1.conn == Success(0) && a1.world.pool.active == 1
      && a2.conn == Success(1) && a2.world.pool.active == 2
      && w3.pool.active == 1
      && w4.pool.active == 0
  {
    var w0 := Start(2, 1);
    var a1 := Connect(w0);
    assert a1.world.closed == [false];
    var a2 := Connect(a1.world);
    assert a2.world.closed == [false, false];
    var w3 := Close(a2.world, 0);
    assert w3.closed == [true, false];
  }

  /** A pool of one without overflow refuses a second connection with the
      exhaustion error. */
  lemma ExhaustionScenario()
    ensures
      var a1 := Connect(Start(1, 0));
      var a2 := Connect(a1.world);
      && a1.conn.Success?
      && a2.conn == Failure(Exhausted)
      && a2.world == a1.world
      && Close(a2.world, a1.conn.value).pool.active == 0
  {
    var w0 := Start(1, 0);
    assert w0 == World(Pool(1, 0, 0), []);
    var a1 := Connect(w0);
    assert a1 == Acquired(World(Pool(1, 0, 1), [false]), Success(0));
    var a2 := Connect(a1.world);
    assert a2 == Acquired(a1.world, Failure(Exhausted));
  }
}
