/** Sampling pools: distinct client addresses, the query-type bag and the fast-flux address range. */
module Pools {
  import opened Basics
  import opened Encoding
  import opened Mixer

  // ---------------------------------------------------------------- client pool

  datatype Addr4 = Addr4(a: byte, b: byte, c: byte, d: byte)

  /** A client in the documentation prefix 198.51.100.0/24. */
  function Client(d: byte): Addr4 {
    Addr4(198, 51, 100, d)
  }

  /** The range of the generator's draws. */
  ghost predicate InRange(draws: nat -> byte) {
    forall j: nat :: draws(j) < 255
  }

  /** The addresses the first `k` draws make. */
  function Taken(draws: nat -> byte, k: nat): seq<Addr4>
    requires InRange(draws)
  {
    seq(k, i requires 0 <= i => Client(draws(i) + 1))
  }

  /** Each value once, at its first occurrence. */
  function Firsts(s: seq<Addr4>): seq<Addr4> {
    if s == [] then []
    else
      var before := s[..|s| - 1];
      var last := s[|s| - 1];
      Firsts(before) + if last in before then [] else [last]
  }

  predicate Distinct<T(==)>(s: seq<T>) {
    forall i, j | 0 <= i < j < |s| :: s[i] != s[j]
  }

  lemma {:induction false} FirstsKeepsValues(s: seq<Addr4>)
    ensures forall x :: x in Firsts(s) <==> x in s
    ensures Distinct(Firsts(s))
  {
    if s != [] {
      var before := s[..|s| - 1];
      FirstsKeepsValues(before);
      assert s == before + [s[|s| - 1]];
    }
  }

  ghost predicate Again(draws: nat -> byte, v: byte, k: nat) {
    exists j: nat :: k <= j && draws(j) == v
  }

  /** Every value of the generator's range keeps coming back. */
  ghost predicate Recurrent(draws: nat -> byte) {
    forall v: byte, k: nat :: v < 255 ==> Again(draws, v, k)
  }

  predicate InPrefix(s: seq<Addr4>) {
    forall i | 0 <= i < |s| :: s[i] == Client(s[i].d) && s[i].d > 0
  }

  function LastBytes(s: seq<Addr4>): set<byte> {
    set i | 0 <= i < |s| :: s[i].d
  }

  function UpTo(m: nat): (r: set<nat>)
    ensures |r| == m && forall x :: x in r <==> 1 <= x <= m
  {
    if m == 0 then {} else UpTo(m - 1) + {m}
  }

  lemma {:induction false} SubsetIsSmaller<T>(a: set<T>, b: set<T>)
    requires a <= b
    ensures |a| <= |b|
    ensures |a| == |b| ==> a == b
    decreases a
  {
    if a == {} {
      assert |b| == 0 ==> b == {};
    } else {
      var x :| x in a;
      SubsetIsSmaller(a - {x}, b - {x});
    }
  }

  lemma {:induction false} LastBytesOfDistinct(s: seq<Addr4>)
    requires Distinct(s) && InPrefix(s)
    ensures |LastBytes(s)| == |s|
  {
    if s != [] {
      var n := |s| - 1;
      LastBytesOfDistinct(s[..n]);
      forall i | 0 <= i < n ensures s[i].d != s[n].d {
        assert s[i] != s[n];
      }
      assert LastBytes(s) == LastBytes(s[..n]) + {s[n].d};
    }
  }

  lemma Pigeonhole(d: set<byte>, m: nat) returns (missing: nat)
    requires forall x | x in d :: 1 <= x <= m
    ensures |d| <= m
    ensures |d| < m ==> 1 <= missing <= m && missing !in d
  {
    var all := UpTo(m);
    var nats: set<nat> := d;
    SubsetIsSmaller(nats, all);
    missing := 0;
    if |d| < m {
      assert nats != all;
      missing :| missing in all && missing !in nats;
    }
  }

  /** A pool below 255 addresses misses one; it never grows beyond 255. */
  lemma PoolPigeonhole(s: seq<Addr4>) returns (missing: byte)
    requires Distinct(s) && InPrefix(s)
    ensures |s| <= 255
    ensures |s| < 255 ==> 1 <= missing && Client(missing) !in s
  {
    LastBytesOfDistinct(s);
    var m := Pigeonhole(LastBytes(s), 255);
    missing := if |s| < 255 then m else 0;
  }

  /** Draw `j` repeats an address. */
  predicate Repeats(draws: nat -> byte, j: nat)
    requires InRange(draws)
  {
    Client(draws(j) + 1) in Taken(draws, j)
  }

  lemma PoolShape(draws: nat -> byte, k: nat)
    requires InRange(draws)
    ensures var pool := PoolAfter(draws, k);
            && Distinct(pool) && InPrefix(pool)
            && (forall x :: x in pool <==> x in Taken(draws, k))
  {
    var pool := Firsts(Taken(draws, k));
    FirstsKeepsValues(Taken(draws, k));
    forall i | 0 <= i < |pool| ensures pool[i] == Client(pool[i].d) && pool[i].d > 0 {
      assert pool[i] in Taken(draws, k);
    }
  }

  /** The pool that the first `k` draws make. */
  function PoolAfter(draws: nat -> byte, k: nat): seq<Addr4>
    requires InRange(draws)
  {
    Firsts(Taken(draws, k))
  }

  /** A client address in the documentation prefix, 198.51.100.1 to 198.51.100.255. */
  predicate InDocumentationPrefix(x: Addr4) {
    x.a == 198 && x.b == 51 && x.c == 100 && 1 <= x.d <= 255
  }

  /** Last byte `d` is one more than one of the first `k` draws. */
  ghost predicate DrawnBefore(draws: nat -> byte, k: nat, d: nat) {
    exists j: nat :: j < k && d == draws(j) + 1
  }

  /** Every address lies in the prefix and comes from a draw, and every draw's address is there. */
  lemma {:induction false} PoolAddresses(draws: nat -> byte, k: nat)
    requires InRange(draws)
    ensures forall x | x in PoolAfter(draws, k) :: InDocumentationPrefix(x) && DrawnBefore(draws, k, x.d)
    ensures forall j: nat | j < k :: Addr4(198, 51, 100, draws(j) + 1) in PoolAfter(draws, k)
  {
    var taken := Taken(draws, k);
    PoolShape(draws, k);
    forall x | x in PoolAfter(draws, k) ensures InDocumentationPrefix(x) && DrawnBefore(draws, k, x.d) {
      var j: nat :| j < k && x == taken[j];
      assert x.d == draws(j) + 1;
    }
    forall j: nat | j < k ensures Addr4(198, 51, 100, draws(j) + 1) in PoolAfter(draws, k) {
      assert taken[j] == Addr4(198, 51, 100, draws(j) + 1);
    }
  }

  /** The first draw makes the first address. */
  lemma {:induction false} FirstAddress(draws: nat -> byte, k: nat)
    requires InRange(draws) && k > 0
    ensures PoolAfter(draws, k) != [] && PoolAfter(draws, k)[0] == Addr4(198, 51, 100, draws(0) + 1)
  {
    PoolStep(draws, k - 1);
    if k > 1 { FirstAddress(draws, k - 1); } else { assert Taken(draws, 0) == []; }
  }

  /** Neither a full pool nor a late repeat stopped the sampling before draw `k`. */
  ghost predicate Unstopped(draws: nat -> byte, n: nat, k: nat)
    requires InRange(draws)
  {
    forall j | 0 <= j < k :: |PoolAfter(draws, j)| < n && (Repeats(draws, j) ==> |PoolAfter(draws, j)| <= 200)
  }

  lemma PoolStep(draws: nat -> byte, k: nat)
    requires InRange(draws)
    ensures PoolAfter(draws, k + 1) == PoolAfter(draws, k) + if Repeats(draws, k) then [] else [Client(draws(k) + 1)]
  {
    assert Taken(draws, k + 1)[..k] == Taken(draws, k);
  }

  lemma PoolFits(draws: nat -> byte, k: nat)
    requires InRange(draws)
    ensures Distinct(PoolAfter(draws, k)) && InPrefix(PoolAfter(draws, k)) && |PoolAfter(draws, k)| <= 255
  {
    PoolShape(draws, k);
    var _ := PoolPigeonhole(PoolAfter(draws, k));
  }

  /** All the loop needs to know about one draw. */
  lemma OneDraw(draws: nat -> byte, n: nat, k: nat, pool: seq<Addr4>)
    requires InRange(draws)
    requires pool == PoolAfter(draws, k) && |pool| < n && Unstopped(draws, n, k)
    ensures Distinct(pool) && InPrefix(pool)
    ensures Repeats(draws, k) <==> Client(draws(k) + 1) in pool
    ensures PoolAfter(draws, k + 1) == if Client(draws(k) + 1) in pool then pool else pool + [Client(draws(k) + 1)]
    ensures (Client(draws(k) + 1) in pool ==> |pool| <= 200) ==> Unstopped(draws, n, k + 1)
  {
    PoolShape(draws, k);
    PoolStep(draws, k);
  }

  /** Draw `target` is past, or makes an address the pool has. */
  predicate Stale(draws: nat -> byte, pool: seq<Addr4>, k: nat, target: nat)
    requires InRange(draws)
  {
    target < k || Client(draws(target) + 1) in pool
  }

  /** While the pool is small a draw that is new is still to come. */
  lemma NewDrawComes(draws: nat -> byte, pool: seq<Addr4>, k: nat) returns (target: nat)
    requires InRange(draws)
    requires Recurrent(draws) && Distinct(pool) && InPrefix(pool) && |pool| < 255
    ensures k <= target && Client(draws(target) + 1) !in pool
  {
    var missing := PoolPigeonhole(pool);
    assert Again(draws, missing - 1, k);
    target :| k <= target && draws(target) == missing - 1;
  }

  /** Sampling goes on until the pool has all `n` addresses. */
  ghost predicate Fills(draws: nat -> byte, n: nat)
    requires InRange(draws)
  {
    exists k: nat :: FilledAt(draws, n, k)
  }

  ghost predicate FilledAt(draws: nat -> byte, n: nat, k: nat)
    requires InRange(draws)
  {
    |PoolAfter(draws, k)| == n && Unstopped(draws, n, k)
  }

  lemma {:induction false} PoolGrows(draws: nat -> byte, j: nat, k: nat)
    requires InRange(draws) && j <= k
    ensures |PoolAfter(draws, j)| <= |PoolAfter(draws, k)|
    decreases k
  {
    if j < k {
      PoolGrows(draws, j, k - 1);
      PoolStep(draws, k - 1);
    }
  }

  /** A late repeat that stops the sampling early stops it for good. */
  lemma LateRepeatNeverFills(draws: nat -> byte, n: nat, k: nat)
    requires InRange(draws) && Repeats(draws, k) && 200 < |PoolAfter(draws, k)| < n
    ensures !Fills(draws, n)
  {
    forall j: nat ensures !FilledAt(draws, n, j) {
      if j <= k { PoolGrows(draws, j, k); }
    }
  }

  /** The state of the loop before draw `used`. */
  ghost predicate Sampling(draws: nat -> byte, n: nat, used: nat, pool: seq<Addr4>)
    requires InRange(draws)
  {
    pool == PoolAfter(draws, used) && |pool| <= n && Unstopped(draws, n, used)
  }

  /** The last draw was a late repeat. */
  ghost predicate StoppedEarly(draws: nat -> byte, n: nat, used: nat, pool: seq<Addr4>)
    requires InRange(draws)
  {
    && pool == PoolAfter(draws, used) && 200 < |pool| < n
    && used > 0 && Unstopped(draws, n, used - 1) && Repeats(draws, used - 1)
  }

  lemma DrawSteps(draws: nat -> byte, n: nat, used: nat, pool: seq<Addr4>)
    requires InRange(draws) && Sampling(draws, n, used, pool) && |pool| < n
    ensures Distinct(pool) && InPrefix(pool)
    ensures var addr := Client(draws(used) + 1);
            && (addr !in pool ==> Sampling(draws, n, used + 1, pool + [addr]))
            && (addr in pool && |pool| <= 200 ==> Sampling(draws, n, used + 1, pool))
            && (addr in pool && |pool| > 200 ==> StoppedEarly(draws, n, used + 1, pool))
  {
    OneDraw(draws, n, used, pool);
  }

  /** A repeat leaves the new draw still to come. */
  lemma RepeatComesNearer(draws: nat -> byte, pool: seq<Addr4>, used: nat, target: nat)
    requires InRange(draws) && !Stale(draws, pool, used, target) && Client(draws(used) + 1) in pool
    ensures used < target && !Stale(draws, pool, used + 1, target)
  {}

  /** What the draws used make of the pool, wherever the sampling ends. */
  lemma PoolTells(draws: nat -> byte, used: nat, pool: seq<Addr4>)
    requires InRange(draws) && pool == PoolAfter(draws, used)
    ensures Distinct(pool) && InPrefix(pool) && |pool| <= 255
    ensures forall x | x in pool :: InDocumentationPrefix(x) && DrawnBefore(draws, used, x.d)
    ensures pool != [] ==> pool[0] == Addr4(198, 51, 100, draws(0) + 1)
  {
    PoolFits(draws, used);
    PoolAddresses(draws, used);
    if used > 0 { FirstAddress(draws, used); } else { assert pool == []; }
  }

  /** Where the sampling ends tells whether the stream fills the pool. */
  lemma SamplingEnds(draws: nat -> byte, n: nat, used: nat, pool: seq<Addr4>)
    requires InRange(draws)
    requires (Sampling(draws, n, used, pool) && |pool| == n) || StoppedEarly(draws, n, used, pool)
    ensures |pool| == n <==> Fills(draws, n)
  {
    if |pool| == n {
      assert FilledAt(draws, n, used);
    } else {
      PoolStep(draws, used - 1);
      LateRepeatNeverFills(draws, n, used - 1);
    }
  }

  /**
    The pool is the draws' addresses at first occurrence, up to the draw that fills it or the first
    repeat after more than 200.  There are 255 addresses, so a pool of 256 is never filled.
   */
  method MakeClientPool(draws: nat -> byte, n: nat) returns (pool: seq<Addr4>, used: nat)
    requires InRange(draws) && Recurrent(draws)
    ensures pool == PoolAfter(draws, used) && Distinct(pool) && InPrefix(pool)
    ensures forall x | x in pool :: InDocumentationPrefix(x) && DrawnBefore(draws, used, x.d)
    ensures pool != [] ==> pool[0] == Addr4(198, 51, 100, draws(0) + 1)
    ensures |pool| <= 255
    ensures |pool| == n || 200 < |pool| < n
    ensures |pool| == n <==> Fills(draws, n)
    ensures |pool| == n ==> Unstopped(draws, n, used)
    ensures |pool| < n ==> used > 0 && Unstopped(draws, n, used - 1) && Repeats(draws, used - 1)
  {
    pool := [];
    var seen: set<Addr4> := {};
    used := 0;
    ghost var target := 0;      // a later draw that is new, while the pool is small
    while |pool| < n
      invariant Sampling(draws, n, used, pool)
      invariant forall x :: x in seen <==> x in pool
      decreases n - |pool|, Stale(draws, pool, used, target), target - used
    {
      DrawSteps(draws, n, used, pool);
      if |pool| <= 200 && Stale(draws, pool, used, target) {
        target := NewDrawComes(draws, pool, used);
      }
      var addr := Client(draws(used) + 1);
      if addr in seen {
        if |pool| <= 200 {
          RepeatComesNearer(draws, pool, used, target);
        }
        used := used + 1;
        if |pool| > 200 {
          break;
        }
        continue;
      }
      seen := seen + {addr};
      pool := pool + [addr];
      used := used + 1;
    }
    SamplingEnds(draws, n, used, pool);
    PoolTells(draws, used, pool);
  }

  // ------------------------------------------------ for which `n` the pool fills

  /** With at most 200 addresses so far, a later draw adds the next one and nothing stops the sampling before. */
  lemma {:induction false} PoolGetsOneMore(draws: nat -> byte, n: nat, k: nat, target: nat) returns (k': nat)
    requires InRange(draws) && |PoolAfter(draws, k)| < n && Unstopped(draws, n, k) && |PoolAfter(draws, k)| <= 200
    requires k <= target && Client(draws(target) + 1) !in PoolAfter(draws, k)
    ensures |PoolAfter(draws, k')| == |PoolAfter(draws, k)| + 1 && Unstopped(draws, n, k')
    decreases target - k
  {
    OneDraw(draws, n, k, PoolAfter(draws, k));
    if Client(draws(k) + 1) in PoolAfter(draws, k) {
      k' := PoolGetsOneMore(draws, n, k + 1, target);
    } else {
      k' := k + 1;
    }
  }

  lemma {:induction false} PoolReaches(draws: nat -> byte, n: nat, size: nat) returns (k: nat)
    requires InRange(draws) && Recurrent(draws) && size <= n <= 201
    ensures |PoolAfter(draws, k)| == size && Unstopped(draws, n, k)
  {
    if size == 0 {
      k := 0;
    } else {
      k := PoolReaches(draws, n, size - 1);
      PoolFits(draws, k);
      var target := NewDrawComes(draws, PoolAfter(draws, k), k);
      k := PoolGetsOneMore(draws, n, k, target);
    }
  }

  /** Draws that count up give as many addresses. */
  lemma {:induction false} CountingDrawsFill(draws: nat -> byte, k: nat)
    requires InRange(draws) && forall j: nat | j < k :: draws(j) == j
    ensures |PoolAfter(draws, k)| == k
    ensures forall j: nat | j < k :: !Repeats(draws, j)
  {
    if k > 0 {
      CountingDrawsFill(draws, k - 1);
      PoolStep(draws, k - 1);
      assert !Repeats(draws, k - 1);
    }
  }

  lemma ModOfShift(q: nat, v: nat)
    requires v < 255
    ensures (255 * q + v) % 255 == v
  {}

  /** Counts to 200 and then starts over. */
  function Restarting(j: nat): byte {
    if j <= 200 then j else (j - 201) % 255
  }

  function Cycling(j: nat): byte {
    j % 255
  }

  lemma StreamsRecur()
    ensures InRange(Restarting) && Recurrent(Restarting)
    ensures InRange(Cycling) && Recurrent(Cycling)
  {
    forall v: byte, k: nat | v < 255 ensures Again(Restarting, v, k) && Again(Cycling, v, k) {
      ModOfShift(k, v);
      assert k <= 201 + (255 * k + v) && Restarting(201 + (255 * k + v)) == v;
      assert k <= 255 * k + v && Cycling(255 * k + v) == v;
    }
  }

  /** The stream that counts to 200 and starts over stops every larger pool at 201 addresses. */
  lemma RestartStopsAt201(n: nat)
    requires n > 201
    ensures InRange(Restarting) && Recurrent(Restarting)
    ensures |PoolAfter(Restarting, 201)| == 201 && Unstopped(Restarting, n, 201) && Repeats(Restarting, 201)
    ensures !Fills(Restarting, n)
  {
    StreamsRecur();
    CountingDrawsFill(Restarting, 201);
    forall j | 0 <= j < 201 ensures |PoolAfter(Restarting, j)| < n {
      PoolGrows(Restarting, j, 201);
    }
    assert Taken(Restarting, 201)[0] == Client(Restarting(201) + 1);
    LateRepeatNeverFills(Restarting, n, 201);
  }

  /** The pool has all `n` addresses on every stream exactly up to 201, and on some stream exactly up to 255. */
  lemma PoolFillsUpTo201(n: nat)
    ensures (forall draws: nat -> byte :: InRange(draws) && Recurrent(draws) ==> Fills(draws, n)) <==> n <= 201
    ensures (exists draws: nat -> byte :: InRange(draws) && Recurrent(draws) && Fills(draws, n)) <==> n <= 255
  {
    StreamsRecur();
    if n <= 201 {
      forall draws: nat -> byte | InRange(draws) && Recurrent(draws) ensures Fills(draws, n) {
        var k := PoolReaches(draws, n, n);
        assert FilledAt(draws, n, k);
      }
    } else {
      RestartStopsAt201(n);
    }
    if n <= 255 {
      CyclingFills(n);
    } else {
      forall draws: nat -> byte | InRange(draws) ensures !Fills(draws, n) {
        forall k: nat ensures !FilledAt(draws, n, k) {
          PoolFits(draws, k);
        }
      }
    }
  }

  lemma CyclingFills(n: nat)
    requires n <= 255 && InRange(Cycling)
    ensures Fills(Cycling, n)
  {
    CountingDrawsFill(Cycling, n);
    forall j | 0 <= j < n ensures |PoolAfter(Cycling, j)| < n {
      CountingDrawsFill(Cycling, j);
    }
    assert FilledAt(Cycling, n, n);
  }

  // ------------------------------------------------------------- query-type bag

  const TYPE_A: nat := 1

  function TypeWeight(dist: map<nat, int>, q: nat): nat {
    if q in dist then Pos(dist[q]) else 0
  }

  /** Every query type occurs as often as its weight says; with no positive weight the bag holds A. */
  method BuildQtypeBag(dist: map<nat, int>) returns (bag: seq<nat>)
    ensures (exists q :: q in dist && dist[q] > 0) ==> forall q :: multiset(bag)[q] == TypeWeight(dist, q)
    ensures forall q | q in dist && dist[q] > 0 :: multiset(bag)[q] == dist[q]
    ensures !(exists q :: q in dist && dist[q] > 0) ==> bag == [1]
    ensures bag != []
  {
    bag := [];
    var left := dist.Keys;
    while left != {}
      invariant left <= dist.Keys
      invariant forall q :: multiset(bag)[q] == if q in left then 0 else TypeWeight(dist, q)
    {
      var qt :| qt in left;
      var w := dist[qt];
      var i := 0;
      while i < w
        invariant 0 <= i <= Pos(w)
        invariant forall q :: multiset(bag)[q] == if q == qt then i else if q in left then 0 else TypeWeight(dist, q)
      {
        bag := bag + [qt];
        i := i + 1;
      }
      left := left - {qt};
    }
    if |bag| == 0 {
      forall q | q in dist ensures dist[q] <= 0 {
        assert multiset(bag)[q] == TypeWeight(dist, q);
      }
      bag := [TYPE_A];
    } else {
      assert multiset(bag)[bag[0]] > 0;
    }
  }

  // ---------------------------------------------------------------- fast flux

  /** `NoAddr` is the zero Addr that `Next` returns past the last address. */
  datatype Addr = NoAddr | V4(n: nat) | V6(hi: nat)

  datatype Prefix = Prefix(addr: Addr, bits: nat)

  predicate ValidPrefix(p: Prefix) {
    p.addr.V4? ==> p.addr.n < TWO32 && p.bits <= 32
  }

  function BlockSize(p: Prefix): nat
    requires p.bits <= 32
  {
    Pow2(32 - p.bits)
  }

  function Masked(p: Prefix): nat
    requires p.addr.V4? && p.bits <= 32
  {
    Clear(p.addr.n, BlockSize(p))
  }

  /** `n` with its host bits cleared. */
  function Clear(n: nat, size: nat): nat
    requires size > 0
  {
    n - n % size
  }

  function NextAddr(a: Addr): Addr {
    if a.V4? && a.n + 1 < TWO32 then V4(a.n + 1) else NoAddr
  }

  /** Same network bits. */
  predicate Contains(p: Prefix, a: Addr)
    requires p.addr.V4? && p.bits <= 32
  {
    a.V4? && Clear(a.n, BlockSize(p)) == Masked(p)
  }

  lemma {:induction false} Pow2Splits(a: nat, b: nat)
    ensures Pow2(a + b) == Pow2(a) * Pow2(b)
  {
    if a > 0 {
      Pow2Splits(a - 1, b);
      MulAssoc(Pow2(a - 1), Pow2(b));
    }
  }

  lemma MulAssoc(x: nat, y: nat)
    ensures 2 * (x * y) == (2 * x) * y
  {}

  lemma Pow2At32()
    ensures Pow2(32) == TWO32
  {
    Pow2Small();
    Pow2Splits(8, 8);
    Pow2Splits(16, 16);
  }

  lemma MulMono(a: nat, b: nat, k: nat)
    requires a <= b
    ensures k * a <= k * b
  {}

  lemma DivMod(n: nat, size: nat)
    requires size > 0
    ensures n == size * (n / size) + n % size && 0 <= n % size < size
  {}

  lemma BlocksApart(a: nat, b: nat, size: nat)
    requires size > 0
    ensures a < b ==> size * a + size <= size * b
    ensures b < a ==> size * b + size <= size * a
  {
    if a < b { MulMono(a + 1, b, size); }
    if b < a { MulMono(b + 1, a, size); }
  }

  /** Numbers share their network bits exactly when they are in the same block. */
  lemma SameBlock(n: nat, m: nat, size: nat)
    requires size > 0
    ensures Clear(n, size) == Clear(m, size) <==> Clear(m, size) <= n < Clear(m, size) + size
  {
    DivMod(n, size);
    DivMod(m, size);
    var a, b := n / size, m / size;
    assert Clear(n, size) == size * a && Clear(m, size) == size * b;
    BlocksApart(a, b, size);
  }

  lemma BlockFits(n: nat, blocks: nat, size: nat)
    requires size > 0 && n < size * blocks
    ensures Clear(n, size) + size <= size * blocks
  {
    DivMod(n, size);
    if blocks <= n / size { MulMono(blocks, n / size, size); }
    MulMono(n / size + 1, blocks, size);
  }

  /** The block of a prefix: where it starts, that it ends in the address space, and who is in it. */
  lemma BlockBounds(p: Prefix)
    requires p.addr.V4? && ValidPrefix(p)
    ensures Masked(p) <= p.addr.n < Masked(p) + BlockSize(p) <= TWO32
    ensures forall n: nat :: Contains(p, V4(n)) <==> Masked(p) <= n < Masked(p) + BlockSize(p)
  {
    var size := BlockSize(p);
    SpaceSplits(p.bits);
    DivMod(p.addr.n, size);
    BlockFits(p.addr.n, Pow2(p.bits), size);
    forall n: nat ensures Contains(p, V4(n)) <==> Masked(p) <= n < Masked(p) + size {
      SameBlock(n, p.addr.n, size);
    }
  }

  lemma SpaceSplits(bits: nat)
    requires bits <= 32
    ensures Pow2(32 - bits) * Pow2(bits) == TWO32
  {
    Pow2At32();
    Pow2Splits(32 - bits, bits);
  }

  const CAP: nat := 4096

  function Smaller(a: nat, b: nat): nat {
    if a < b then a else b
  }

  /** Consecutive addresses from the masked base. */
  function Expanded(p: Prefix): seq<Addr>
    requires p.addr.V4? && ValidPrefix(p)
  {
    seq(Smaller(CAP, BlockSize(p)), i requires 0 <= i => V4(Masked(p) + i))
  }

  lemma {:induction false} Pow2Mono(a: nat, b: nat)
    requires a <= b
    ensures Pow2(a) <= Pow2(b)
    ensures a < b ==> Pow2(a) < Pow2(b)
  {
    if a < b { Pow2Mono(a, b - 1); }
  }

  /** The number of addresses, and address `i`, in plain arithmetic. */
  lemma ExpandedInNumbers(p: Prefix, i: nat)
    requires p.addr.V4? && ValidPrefix(p) && i < |Expanded(p)|
    ensures |Expanded(p)| == if p.bits >= 20 then Pow2(32 - p.bits) else 4096
    ensures Expanded(p)[i].V4? && Expanded(p)[i].n == p.addr.n - p.addr.n % Pow2(32 - p.bits) + i
  {
    Pow2Splits(4, 8);
    Pow2Small();
    assert Expanded(p)[i] == V4(Masked(p) + i);
    if p.bits >= 20 { Pow2Mono(32 - p.bits, 12); } else { Pow2Mono(12, 32 - p.bits); }
  }

  /** The first min(4096, block size) addresses of the block, in order; nothing for IPv6. */
  method ExpandIPv4Prefix(p: Prefix) returns (out: seq<Addr>)
    requires ValidPrefix(p)
    ensures p.addr.V4? ==>
              && out == Expanded(p)
              && (forall i | 0 <= i < |out| :: Contains(p, out[i]))
    ensures !p.addr.V4? ==> out == []
  {
    out := [];
    if !p.addr.V4? {
      return;
    }
    BlockBounds(p);
    var size := BlockSize(p);
    var a := V4(Masked(p));
    while Contains(p, a) && |out| < CAP
      invariant |out| <= Smaller(CAP, size)
      invariant out == seq(|out|, i requires 0 <= i => V4(Masked(p) + i))
      invariant a == if Masked(p) + |out| < TWO32 then V4(Masked(p) + |out|) else NoAddr
      decreases CAP - |out|
    {
      out := out + [a];
      a := NextAddr(a);
    }
  }

  /** The pool is never empty, has no repeats, and is the whole prefix exactly from /20 on. */
  lemma ExpansionCoversIffSlash20(p: Prefix)
    requires p.addr.V4? && ValidPrefix(p)
    ensures Expanded(p) != [] && Distinct(Expanded(p))
    ensures (forall n: nat :: Contains(p, V4(n)) ==> V4(n) in Expanded(p)) <==> p.bits >= 20
  {
    BlockBounds(p);
    Pow2Splits(4, 8);
    Pow2Small();
    var out := Expanded(p);
    if p.bits >= 20 {
      Pow2Mono(32 - p.bits, 12);
      forall n: nat | Contains(p, V4(n)) ensures V4(n) in out {
        assert out[n - Masked(p)] == V4(n);
      }
    } else {
      Pow2Mono(12, 32 - p.bits);
      var n := Masked(p) + CAP;
      assert Contains(p, V4(n)) && V4(n) !in out;
    }
  }
}
