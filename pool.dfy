/** The round-robin connection pool (`AppState` of src/main.rs): a vector of
    connections opened once at start-up, its length, and a counter that every
    request increments to pick the next connection. */
module ConnectionPool {

  /** The configured connection count arrives as a signed 64-bit integer. */
  newtype i64 = x: int | -0x8000_0000_0000_0000 <= x < 0x8000_0000_0000_0000

  const UsizeModulus: int := 0x1_0000_0000_0000_0000

  /** Rust's `n as usize` on an `i64`: a non-negative value is kept, a negative one
      wraps around modulo 2^64. */
  function AsUsize(n: i64): (u: nat)
    ensures u < UsizeModulus
    ensures n >= 0 ==> u == n as int
    ensures (u - n as int) % UsizeModulus == 0
  {
    if n >= 0 then n as int else n as int + UsizeModulus
  }

  /** What one `get_stream_index` call yields: the index it returns and the new
      value of the counter. */
  datatype Selection = Selection(index: nat, next: nat)

  /** One fetch-and-increment of the counter followed by `% n_connections`,
      taken as a single atomic step. */
  function NextIndex(counter: nat, n: nat): (s: Selection)
    requires n > 0
    ensures s.index < n
    ensures s.next == counter + 1
    ensures counter < n ==> s.index == counter
  {
    Selection(counter % n, counter + 1)
  }

  /** One full turn of the counter later, the same index is selected again. */
  lemma NextIndexRepeats(counter: nat, n: nat)
    requires n > 0
    ensures NextIndex(counter + n, n).index == NextIndex(counter, n).index
  {
    ShiftByOneTurn(counter, n);
  }

  /** The indices returned by `k` consecutive calls when the counter starts at
      `counter`. */
  function Trace(counter: nat, k: nat, n: nat): (t: seq<nat>)
    requires n > 0
    ensures |t| == k
    ensures forall i :: 0 <= i < k ==> t[i] < n
    decreases k
  {
    if k == 0 then []
    else
      var s := NextIndex(counter, n);
      [s.index] + Trace(s.next, k - 1, n)
  }

  /** Adding one full turn of the pool does not change the remainder. */
  lemma ShiftByOneTurn(x: int, n: nat)
    requires n > 0
    ensures (x + n) % n == x % n
  {
    var q, r := x / n, x % n;
    assert x + n == (q + 1) * n + r;
    DivisionIsUnique(x + n, n, q + 1, r);
  }

  /** Euclidean division is unique: a quotient and remainder in range are the ones. */
  lemma DivisionIsUnique(m: int, n: nat, q: int, r: int)
    requires n > 0 && 0 <= r < n && m == q * n + r
    ensures m % n == r && m / n == q
  {
    var q', r' := m / n, m % n;
    assert q * n - q' * n == r' - r;
    assert q * n - q' * n == (q - q') * n;
    if q > q' {
      AtLeastOneTurn(q - q', n);
    } else if q < q' {
      AtLeastOneTurn(q' - q, n);
    }
  }

  /** A positive number of full turns covers at least one turn. */
  lemma AtLeastOneTurn(t: int, n: nat)
    requires t >= 1
    ensures t * n >= n
  {
  }

  /** The i-th call (counting from 0) of a run that starts at `counter` returns
      `(counter + i) mod n`. */
  lemma {:induction false} TraceAt(counter: nat, k: nat, n: nat, i: nat)
    requires n > 0 && i < k
    ensures Trace(counter, k, n)[i] == (counter + i) % n
    decreases i
  {
    if i > 0 {
      TraceAt(counter + 1, k - 1, n, i - 1);
    }
  }

  /** From a fresh pool the calls return 0, 1, ..., n-1, 0, 1, ...: the i-th call
      returns `i mod n`, and the first n calls return 0, ..., n-1 in order. */
  lemma FreshPoolIsCyclic(k: nat, n: nat)
    requires n > 0
    ensures forall i :: 0 <= i < k ==> Trace(0, k, n)[i] == i % n
    ensures forall i :: 0 <= i < k && i < n ==> Trace(0, k, n)[i] == i
  {
    forall i | 0 <= i < k
      ensures Trace(0, k, n)[i] == i % n
    {
      TraceAt(0, k, n, i);
    }
    forall i | 0 <= i < k && i < n
      ensures Trace(0, k, n)[i] == i
    {
      DivisionIsUnique(i, n, 0, i);
    }
  }

  /** The selection repeats with period n. */
  lemma TraceIsPeriodic(counter: nat, k: nat, n: nat, i: nat)
    requires n > 0 && i + n < k
    ensures Trace(counter, k, n)[i + n] == Trace(counter, k, n)[i]
  {
    var x := counter + i;
    TraceAt(counter, k, n, i);
    TraceAt(counter, k, n, i + n);
    assert counter + (i + n) == x + n;
    ShiftByOneTurn(x, n);
  }

  /** Any n consecutive calls, whatever the counter was, hand out connection j. */
  lemma WindowVisitsEveryConnection(counter: nat, n: nat, j: nat)
    requires n > 0 && j < n
    ensures exists i :: 0 <= i < n && Trace(counter, n, n)[i] == j
  {
    var q, r := counter / n, counter % n;
    var i: nat := if j >= r then j - r else j + n - r;
    if j >= r {
      DivisionIsUnique(counter + i, n, q, j);
    } else {
      assert counter + i == (q + 1) * n + j;
      DivisionIsUnique(counter + i, n, q + 1, j);
    }
    TraceAt(counter, n, n, i);
  }

  /** ... and no connection twice: n consecutive calls select n distinct connections. */
  lemma WindowIsInjective(counter: nat, n: nat, a: nat, b: nat)
    requires n > 0 && a < b < n
    ensures Trace(counter, n, n)[a] != Trace(counter, n, n)[b]
  {
    TraceAt(counter, n, n, a);
    TraceAt(counter, n, n, b);
    var x := counter + a;
    var q, r := x / n, x % n;
    var d := b - a;
    if r + d < n {
      DivisionIsUnique(x + d, n, q, r + d);
    } else {
      assert x + d == (q + 1) * n + (r + d - n);
      DivisionIsUnique(x + d, n, q + 1, r + d - n);
    }
  }

  /** Two connections and three requests: the third request reuses connection 0,
      so two requests can share one socket. */
  lemma TwoConnectionsThreeCalls()
    ensures Trace(0, 3, 2) == [0, 1, 0]
  {
  }

  /** The pool. `streams` and `nConnections` are set once by the constructor and
      never change (hence `const`); `connIndex` is the shared counter. */
  class AppState<Conn> {
    const streams: seq<Conn>
    const nConnections: nat
    var connIndex: nat

    /** The vector holds exactly `n_connections` connections. */
    ghost predicate Valid() {
      |streams| == nConnections
    }

    /** `AppState::new`: opens the connections one after the other, pushing each,
        then starts the counter at 0. `connect(host, x)` is the x-th connection
        opened to `host`. */
    constructor (host: string, n: i64, connect: (string, nat) -> Conn)
      ensures Valid()
      ensures nConnections == AsUsize(n)
      ensures forall x :: 0 <= x < nConnections ==> streams[x] == connect(host, x)
      ensures connIndex == 0
    {
      var count := AsUsize(n);
      var pushed: seq<Conn> := [];
      for x := 0 to count
        invariant |pushed| == x
        invariant forall y :: 0 <= y < x ==> pushed[y] == connect(host, y)
      {
        var s := connect(host, x);
        pushed := pushed + [s];
      }
      streams := pushed;
      nConnections := count;
      connIndex := 0;
    }

    /** `get_stream_index`: one atomic fetch-and-increment, the old value taken
        modulo the pool size. With an empty pool the source's `%` panics. */
    method GetStreamIndex() returns (index: nat)
      requires nConnections > 0
      modifies this
      ensures Selection(index, connIndex) == NextIndex(old(connIndex), nConnections)
      ensures index < nConnections
      ensures connIndex == old(connIndex) + 1
    {
      index := connIndex;
      connIndex := connIndex + 1;
      index := index % nConnections;
    }

    /** `get_stream`: the connection at the selected index, always in bounds. */
    method GetStream() returns (stream: Conn)
      requires Valid() && nConnections > 0
      modifies this
      ensures connIndex == old(connIndex) + 1
      ensures stream == streams[NextIndex(old(connIndex), nConnections).index]
    {
      var index := GetStreamIndex();
      stream := streams[index];
    }

    /** `k` requests served one after another, each taking one index with
        `get_stream_index`: the indices are the run `Trace` describes, so the
        round-robin lemmas about `Trace` hold of the pool itself. */
    method GetStreamIndices(k: nat) returns (t: seq<nat>)
      requires nConnections > 0
      modifies this
      ensures t == Trace(old(connIndex), k, nConnections)
      ensures connIndex == old(connIndex) + k
    {
      t := [];
      var i := 0;
      while i < k
        invariant 0 <= i <= k
        invariant connIndex == old(connIndex) + i
        invariant t + Trace(connIndex, k - i, nConnections) == Trace(old(connIndex), k, nConnections)
      {
        ghost var before := connIndex;
        var index := GetStreamIndex();
        assert Trace(before, k - i, nConnections) == [index] + Trace(connIndex, k - i - 1, nConnections);
        t := t + [index];
        i := i + 1;
      }
    }
  }

  /** A fresh pool of two connections serving three requests hands out
      connections 0, 1 and 0. */
  method TwoConnectionScenario() returns (first: nat, second: nat, third: nat)
    ensures first == 0 && second == 1 && third == 0
  {
    var pool := new AppState<nat>("dhi", 2, (host, x) => x);
    first := pool.GetStream();
    second := pool.GetStream();
    third := pool.GetStream();
  }
}
