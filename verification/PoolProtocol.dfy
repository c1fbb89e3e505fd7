/**
 Concurrent use of one factory pool. `create_peer_connection_manager` scans the
 factories with `min_by`, which reloads both counts at every comparison, and only
 afterwards increments the count of the factory it settled on. The pool is shared, so
 the loads and increments of different calls interleave; each load and each increment
 is one atomic step here.
 */
module PoolProtocol {
  import opened Wrappers
  import opened Counts

  /** One call between the start of its scan and its increment. It visits the factories
      in some order of its own; `best` is the candidate so far and `loaded` is the
      candidate's count as last read, once read for the comparison with order[next]. */
  datatype Scan = Scan(order: seq<nat>, next: nat, best: nat, loaded: Option<nat>)
  {
    predicate Finished() { next == |order| }
  }

  datatype Pool = Pool(counts: seq<nat>, scans: map<nat, Scan>)

  datatype PoolEvent =
    | Begin(call: nat, order: seq<nat>)
    | LoadBest(call: nat)
    | LoadNext(call: nat)
    | Increment(call: nat)

  /** Map iteration yields every factory once, in no particular order. */
  predicate IsOrder(order: seq<nat>, n: nat) {
    && |order| == n
    && (forall i :: 0 <= i < n ==> order[i] < n)
    && (forall i :: 0 <= i < n ==> i in order)
  }

  function Fresh(n: nat): Pool {
    Pool(Zeros(n), map[])
  }

  /** When a step can be taken. Every scan of a reachable pool is ScanOk, as Ok in the
      invariant says, so asking for it here holds no step back. */
  predicate Enabled(p: Pool, e: PoolEvent) {
    match e
    case Begin(call, order) => call !in p.scans && IsOrder(order, |p.counts|) && order != []
    case LoadBest(call) => call in p.scans && ScanOk(p.counts, p.scans[call]) && !p.scans[call].Finished() && p.scans[call].loaded.None?
    case LoadNext(call) => call in p.scans && ScanOk(p.counts, p.scans[call]) && !p.scans[call].Finished() && p.scans[call].loaded.Some?
    case Increment(call) => call in p.scans && ScanOk(p.counts, p.scans[call]) && p.scans[call].Finished()
  }

  /** The scan is one that could be in progress on this pool. */
  predicate ScanOk(counts: seq<nat>, s: Scan) {
    && IsOrder(s.order, |counts|)
    && 1 <= s.next <= |s.order|
    && s.best in s.order[..s.next]
    && (s.loaded.Some? ==> !s.Finished() && s.loaded.value <= counts[s.best])
  }

  /** The comparison keeps the earlier candidate on a tie, as `min_by` does. */
  function Compare(counts: seq<nat>, s: Scan): Scan
    requires ScanOk(counts, s) && !s.Finished() && s.loaded.Some?
  {
    var challenger := s.order[s.next];
    Scan(s.order, s.next + 1, if s.loaded.value > counts[challenger] then challenger else s.best, None)
  }

  function Apply(p: Pool, e: PoolEvent): Pool
    requires Enabled(p, e)
  {
    match e
    case Begin(call, order) => p.(scans := p.scans[call := Scan(order, 1, order[0], None)])
    case LoadBest(call) =>
      var s := p.scans[call];
      p.(scans := p.scans[call := s.(loaded := Some(p.counts[s.best]))])
    case LoadNext(call) => p.(scans := p.scans[call := Compare(p.counts, p.scans[call])])
    case Increment(call) => Pool(Bump(p.counts, p.scans[call].best), p.scans - {call})
  }

  ghost predicate Next(p: Pool, q: Pool) {
    exists e :: Enabled(p, e) && q == Apply(p, e)
  }

  /** The states of a run from a fresh pool of n factories, with at most t calls in flight throughout. */
  ghost predicate IsRun(n: nat, t: nat, run: seq<Pool>) {
    && run != [] && run[0] == Fresh(n)
    && (forall i :: 0 <= i < |run| ==> |run[i].scans| <= t)
    && (forall i :: 0 < i < |run| ==> Next(run[i - 1], run[i]))
  }

  /** Calls whose scan has settled on i and whose increment is still to come. */
  ghost function Pending(p: Pool, i: nat): set<nat> {
    set call | call in p.scans && p.scans[call].Finished() && p.scans[call].best == i
  }

  /** The call has already compared against z, or is about to with a reading no larger than l. */
  predicate Low(s: Scan, z: nat, l: nat)
    requires s.next <= |s.order|
  {
    || z in s.order[..s.next]
    || (!s.Finished() && s.order[s.next] == z && s.loaded.Some? && s.loaded.value <= l)
  }

  /** Calls that are past z yet hold a candidate that has meanwhile grown to m or more. */
  ghost function Stale(p: Pool, z: nat, l: nat, m: nat): set<nat>
    requires Ok(p)
  {
    set call | call in p.scans && Low(p.scans[call], z, l) && p.counts[p.scans[call].best] >= m
  }

  ghost predicate Ok(p: Pool) {
    forall call :: call in p.scans ==> ScanOk(p.counts, p.scans[call])
  }

  predicate WithinBudget(calls: set<nat>, t: nat, l: nat, m: nat) {
    calls == {} || |calls| + m <= l + t
  }

  /** Every step up to level m above a factory z that is still at l or below uses up one of t calls. */
  ghost predicate Budgeted(p: Pool, t: nat)
    requires Ok(p)
  {
    && |p.scans| <= t
    && (forall z: nat, l: nat, m: nat :: z < |p.counts| && p.counts[z] <= l < m ==> WithinBudget(Stale(p, z, l, m), t, l, m))
  }

  /** No count exceeds another by more than t. */
  ghost predicate Spread(c: seq<nat>, t: nat) {
    forall i, j :: 0 <= i < |c| && 0 <= j < |c| ==> c[i] <= c[j] + t
  }

  ghost predicate Inv(n: nat, t: nat, p: Pool) {
    |p.counts| == n && Ok(p) && Budgeted(p, t) && Spread(p.counts, t)
  }

  lemma ScanStepKeepsOk(p: Pool, e: PoolEvent)
    requires Ok(p) && Enabled(p, e) && !e.Increment?
    ensures Ok(Apply(p, e))
  {
  }

  /** A comparison either keeps a candidate that already counted as stale, or drops to a smaller one. */
  lemma CompareNeverAddsStale(p: Pool, s: Scan, z: nat, l: nat, m: nat)
    requires ScanOk(p.counts, s) && !s.Finished() && s.loaded.Some?
    requires z < |p.counts| && p.counts[z] <= l < m
    requires Low(Compare(p.counts, s), z, l) && Compare(p.counts, s).best < |p.counts| && p.counts[Compare(p.counts, s).best] >= m
    ensures Low(s, z, l) && p.counts[s.best] >= m
  {
  }

  /** A step of a scan keeps every budget: a call becomes low only while its candidate is
      at l or below, and a low call only ever trades its candidate for a smaller one. */
  lemma ScanStepKeepsBudget(p: Pool, t: nat, e: PoolEvent, z: nat, l: nat, m: nat)
    requires Ok(p) && Budgeted(p, t) && Enabled(p, e) && !e.Increment?
    requires z < |p.counts| && p.counts[z] <= l < m
    requires Ok(Apply(p, e))
    ensures WithinBudget(Stale(Apply(p, e), z, l, m), t, l, m)
  {
    var q := Apply(p, e);
    forall call | call in Stale(q, z, l, m) ensures call in Stale(p, z, l, m) {
      if call == e.call {
        match e
        case Begin(_, order) =>
        case LoadBest(_) =>
        case LoadNext(_) => CompareNeverAddsStale(p, p.scans[call], z, l, m);
      }
    }
    SubsetCardinality(Stale(q, z, l, m), Stale(p, z, l, m));
  }

  /** The factory a finished call increments was at most t above every other one. */
  lemma FinishedCallHasRoom(p: Pool, t: nat, call: nat, z: nat)
    requires Ok(p) && Budgeted(p, t) && Enabled(p, Increment(call)) && z < |p.counts|
    ensures p.counts[p.scans[call].best] < p.counts[z] + t
  {
    var s := p.scans[call];
    var l := p.counts[z];
    var m := p.counts[s.best];
    if m <= l {
      SubsetCardinality({call}, p.scans.Keys);
    } else {
      assert s.order[..s.next] == s.order;
      assert call in Stale(p, z, l, m);
    }
  }

  /** An increment keeps every budget: it retires the call it raises the level for. */
  lemma IncrementKeepsBudget(p: Pool, t: nat, call: nat, z: nat, l: nat, m: nat)
    requires Ok(p) && Budgeted(p, t) && Enabled(p, Increment(call))
    requires Ok(Apply(p, Increment(call)))
    requires z < |p.counts| && Apply(p, Increment(call)).counts[z] <= l < m
    ensures WithinBudget(Stale(Apply(p, Increment(call)), z, l, m), t, l, m)
  {
    var q := Apply(p, Increment(call));
    var s := p.scans[call];
    assert s.order[..s.next] == s.order;
    var k := p.counts[s.best];
    assert p.counts[z] <= l;
    if m == k + 1 {
      // Calls that hold the same candidate reach m together with it; all of them were at k already.
      assert Stale(q, z, l, m) <= Stale(p, z, l, k) - {call};
      SubsetCardinality(Stale(q, z, l, m), Stale(p, z, l, k) - {call});
      if k > l {
        assert call in Stale(p, z, l, k);
      } else {
        SubsetCardinality(Stale(q, z, l, m), q.scans.Keys);
      }
    } else {
      assert Stale(q, z, l, m) <= Stale(p, z, l, m);
      SubsetCardinality(Stale(q, z, l, m), Stale(p, z, l, m));
    }
  }

  lemma StepKeepsInv(n: nat, t: nat, p: Pool, e: PoolEvent)
    requires Inv(n, t, p) && Enabled(p, e) && |Apply(p, e).scans| <= t
    ensures Inv(n, t, Apply(p, e))
  {
    var q := Apply(p, e);
    if e.Increment? {
      forall call | call in q.scans ensures ScanOk(q.counts, q.scans[call]) {
        assert ScanOk(p.counts, p.scans[call]);
      }
      forall z: nat, l: nat, m: nat | z < n && q.counts[z] <= l < m ensures WithinBudget(Stale(q, z, l, m), t, l, m) {
        IncrementKeepsBudget(p, t, e.call, z, l, m);
      }
      forall z | 0 <= z < n ensures q.counts[p.scans[e.call].best] <= q.counts[z] + t {
        FinishedCallHasRoom(p, t, e.call, z);
      }
    } else {
      ScanStepKeepsOk(p, e);
      forall z: nat, l: nat, m: nat | z < n && q.counts[z] <= l < m ensures WithinBudget(Stale(q, z, l, m), t, l, m) {
        ScanStepKeepsBudget(p, t, e, z, l, m);
      }
    }
  }

  lemma FreshInv(n: nat, t: nat)
    ensures Inv(n, t, Fresh(n))
  {
  }

  lemma NextKeepsInv(n: nat, t: nat, p: Pool, q: Pool)
    requires Inv(n, t, p) && Next(p, q) && |q.scans| <= t
    ensures Inv(n, t, q)
  {
    var e :| Enabled(p, e) && q == Apply(p, e);
    StepKeepsInv(n, t, p, e);
  }

  lemma {:induction false} RunInv(n: nat, t: nat, run: seq<Pool>, i: nat)
    requires IsRun(n, t, run) && i < |run|
    ensures Inv(n, t, run[i])
  {
    if i == 0 {
      FreshInv(n, t);
    } else {
      RunInv(n, t, run, i - 1);
      NextKeepsInv(n, t, run[i - 1], run[i]);
    }
  }

  /** With the pending increments counted in, no factory is ever more than t above another. */
  lemma InvBoundsLoad(n: nat, t: nat, p: Pool, i: nat, j: nat)
    requires Inv(n, t, p) && i < n && j < n
    ensures p.counts[i] + |Pending(p, i)| <= p.counts[j] + t
  {
    if p.counts[i] <= p.counts[j] {
      SubsetCardinality(Pending(p, i), p.scans.Keys);
    } else {
      var l, m := p.counts[j], p.counts[i];
      forall call | call in Pending(p, i) ensures call in Stale(p, j, l, m) {
        var s := p.scans[call];
        assert s.order[..s.next] == s.order;
      }
      SubsetCardinality(Pending(p, i), Stale(p, j, l, m));
    }
  }

  /** The balance bound: however the loads and increments of at most t calls interleave,
      count plus pending increments of one factory exceeds the count of another by at most t. */
  lemma BalanceBound(n: nat, t: nat, run: seq<Pool>, k: nat, i: nat, j: nat)
    requires IsRun(n, t, run) && k < |run| && i < n && j < n
    ensures |run[k].counts| == n
    ensures run[k].counts[i] + |Pending(run[k], i)| <= run[k].counts[j] + t
  {
    RunInv(n, t, run, k);
    InvBoundsLoad(n, t, run[k], i, j);
  }

  // ---- the bound is reached: t calls scan an idle pool, then all increment the same factory ----

  lemma Extend(n: nat, t: nat, run: seq<Pool>, e: PoolEvent, p: Pool) returns (longer: seq<Pool>)
    requires IsRun(n, t, run)
    requires Enabled(run[|run| - 1], e) && Apply(run[|run| - 1], e) == p && |p.scans| <= t
    ensures IsRun(n, t, longer) && longer[|longer| - 1] == p
  {
    longer := run + [p];
  }

  function Identity(n: nat): (o: seq<nat>)
    ensures |o| == n && forall i :: 0 <= i < n ==> o[i] == i
  {
    seq(n, i => i)
  }

  lemma IdentityIsOrder(n: nat)
    ensures IsOrder(Identity(n), n)
  {
    forall i | 0 <= i < n ensures i in Identity(n) {
      assert Identity(n)[i] == i;
    }
  }

  /** The scan of an idle pool in identity order, up to position j. */
  function ZeroScan(n: nat, j: nat): Scan {
    Scan(Identity(n), j, 0, None)
  }

  predicate From(lo: nat, call: nat) { lo <= call }

  /** Calls lo..hi-1 have settled on factory 0, which already took lo increments. */
  function Piled(n: nat, lo: nat, hi: nat): Pool
    requires n > 0
  {
    Pool(Zeros(n)[0 := lo], map call: nat | call < hi && From(lo, call) :: ZeroScan(n, n))
  }

  lemma {:induction false} PiledSize(n: nat, lo: nat, hi: nat)
    requires n > 0 && lo <= hi
    ensures |Piled(n, lo, hi).scans| == hi - lo
    decreases hi
  {
    if lo < hi {
      PiledSize(n, lo, hi - 1);
      OneMoreKey(Piled(n, lo, hi - 1).scans, Piled(n, lo, hi).scans, hi - 1);
    } else {
      assert Piled(n, lo, hi).scans == map[];
    }
  }

  lemma OneMoreKey<V>(a: map<nat, V>, b: map<nat, V>, k: nat)
    requires k !in a && forall call :: call in b <==> call in a || call == k
    ensures |b| == |a| + 1
  {
    assert b.Keys == a.Keys + {k};
    assert |b.Keys| == |a.Keys| + 1;
  }

  /** One more call scans the idle pool up to position j and keeps factory 0. */
  function Climbing(n: nat, hi: nat, j: nat): Pool
    requires n > 0
  {
    var p := Piled(n, 0, hi);
    p.(scans := p.scans[hi := ZeroScan(n, j)])
  }

  lemma ZeroScanOk(n: nat, lo: nat, p: Pool, j: nat)
    requires n > 0 && 1 <= j <= n && p.counts == Zeros(n)[0 := lo]
    ensures ScanOk(p.counts, ZeroScan(n, j))
    ensures j < n && lo == 0 ==> ScanOk(p.counts, ZeroScan(n, j).(loaded := Some(0)))
    ensures j < n && lo == 0 ==> Compare(p.counts, ZeroScan(n, j).(loaded := Some(0))) == ZeroScan(n, j + 1)
  {
    IdentityIsOrder(n);
    assert Identity(n)[..j][0] == 0;
  }

  /** The two loads of one comparison, made by the climbing call alone. */
  lemma ClimbOnce(n: nat, t: nat, hi: nat, j: nat, run: seq<Pool>) returns (longer: seq<Pool>)
    requires n > 0 && hi < t && 1 <= j < n
    requires IsRun(n, t, run) && run[|run| - 1] == Climbing(n, hi, j)
    ensures IsRun(n, t, longer) && longer[|longer| - 1] == Climbing(n, hi, j + 1)
  {
    var p := Climbing(n, hi, j);
    ZeroScanOk(n, 0, p, j);
    var q := p.(scans := p.scans[hi := ZeroScan(n, j).(loaded := Some(0))]);
    SameKeysSameSize(p.scans, q.scans);
    longer := Extend(n, t, run, LoadBest(hi), q);
    ZeroScanOk(n, 0, q, j);
    SameKeysSameSize(p.scans, Climbing(n, hi, j + 1).scans);
    longer := Extend(n, t, longer, LoadNext(hi), Climbing(n, hi, j + 1));
  }

  lemma SameKeysSameSize<K, V>(a: map<K, V>, b: map<K, V>)
    requires a.Keys == b.Keys
    ensures |a| == |b|
  {
  }

  lemma {:induction false} ClimbReached(n: nat, t: nat, hi: nat, j: nat, run: seq<Pool>) returns (longer: seq<Pool>)
    requires n > 0 && hi < t && 1 <= j <= n
    requires IsRun(n, t, run) && run[|run| - 1] == Piled(n, 0, hi)
    ensures IsRun(n, t, longer) && longer[|longer| - 1] == Climbing(n, hi, j)
    decreases j
  {
    if j == 1 {
      PiledSize(n, 0, hi);
      OneMoreKey(Piled(n, 0, hi).scans, Climbing(n, hi, 1).scans, hi);
      IdentityIsOrder(n);
      longer := Extend(n, t, run, Begin(hi, Identity(n)), Climbing(n, hi, 1));
    } else {
      var shorter := ClimbReached(n, t, hi, j - 1, run);
      longer := ClimbOnce(n, t, hi, j - 1, shorter);
    }
  }

  lemma ClimbedIsPiled(n: nat, hi: nat)
    requires n > 0
    ensures Climbing(n, hi, n) == Piled(n, 0, hi + 1)
  {
  }

  /** hi calls have finished their scans and none has incremented yet. */
  lemma {:induction false} AllScanned(n: nat, t: nat, hi: nat) returns (run: seq<Pool>)
    requires n > 0 && hi <= t
    ensures IsRun(n, t, run) && run[|run| - 1] == Piled(n, 0, hi)
  {
    if hi == 0 {
      assert Piled(n, 0, 0) == Fresh(n);
      run := [Fresh(n)];
    } else {
      var shorter := AllScanned(n, t, hi - 1);
      run := ClimbReached(n, t, hi - 1, n, shorter);
      ClimbedIsPiled(n, hi - 1);
    }
  }

  lemma IncrementOnce(n: nat, t: nat, lo: nat, run: seq<Pool>) returns (longer: seq<Pool>)
    requires n > 0 && lo < t && IsRun(n, t, run) && run[|run| - 1] == Piled(n, lo, t)
    ensures IsRun(n, t, longer) && longer[|longer| - 1] == Piled(n, lo + 1, t)
  {
    PiledIncrement(n, t, lo);
    PiledSize(n, lo + 1, t);
    longer := Extend(n, t, run, Increment(lo), Piled(n, lo + 1, t));
  }

  lemma PiledIncrement(n: nat, t: nat, lo: nat)
    requires n > 0 && lo < t
    ensures Enabled(Piled(n, lo, t), Increment(lo))
    ensures Apply(Piled(n, lo, t), Increment(lo)) == Piled(n, lo + 1, t)
  {
    var p := Piled(n, lo, t);
    assert From(lo, lo);
    assert p.scans[lo] == ZeroScan(n, n);
    ZeroScanOk(n, lo, p, n);
    var q := Piled(n, lo + 1, t);
    assert Bump(p.counts, 0) == q.counts;
    assert p.scans - {lo} == q.scans;
  }

  /** lo of them have incremented factory 0. */
  lemma {:induction false} SomeIncremented(n: nat, t: nat, lo: nat) returns (run: seq<Pool>)
    requires n > 0 && lo <= t
    ensures IsRun(n, t, run) && run[|run| - 1] == Piled(n, lo, t)
  {
    if lo == 0 {
      run := AllScanned(n, t, t);
    } else {
      var shorter := SomeIncremented(n, t, lo - 1);
      run := IncrementOnce(n, t, lo - 1, shorter);
    }
  }

  /** The bound cannot be improved: for every t some run with t calls in flight ends t apart. */
  lemma BoundIsReached(n: nat, t: nat) returns (run: seq<Pool>)
    requires n >= 2
    ensures IsRun(n, t, run)
    ensures |run[|run| - 1].counts| == n
    ensures run[|run| - 1].counts[0] == run[|run| - 1].counts[1] + t
  {
    run := SomeIncremented(n, t, t);
  }
}
