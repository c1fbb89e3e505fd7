/**
 The pool of peer connection factories of one session, used by one call at a time.
 Which factory each new connection gets, and how evenly any run of calls spreads them.
 */
module WebRtcPools {
  import opened Wrappers
  import opened Counts
  import opened PeerConnections
  import PoolProtocol

  /** The cast of a usize to u32, which drops the high bits. */
  function AsU32(x: nat): (r: nat)
    ensures r < 0x1_0000_0000 && (x - r) % 0x1_0000_0000 == 0
    ensures x < 0x1_0000_0000 ==> r == x
  {
    x % 0x1_0000_0000
  }

  /** The entry `min_by` returns: a minimum, and the first one in iteration order. */
  ghost predicate IsFirstMin(c: seq<nat>, order: seq<nat>, i: nat) {
    && IsMin(c, i)
    && exists k :: 0 <= k < |order| && order[k] == i && forall j :: 0 <= j < k ==> order[j] < |c| && c[order[j]] > c[i]
  }

  class WebRtcPool {
    const factoryCount: nat
    /** Load count by factory id. */
    var factoryList: map<nat, nat>

    ghost predicate Valid()
      reads this
    {
      forall id :: id in factoryList <==> 0 <= id < AsU32(factoryCount)
    }

    /** The load counts in id order. */
    ghost function Counts(): seq<nat>
      requires Valid()
      reads this
    {
      var list := factoryList;
      seq(AsU32(factoryCount), id requires 0 <= id < AsU32(factoryCount) && id in list => list[id])
    }

    constructor (factoryCount: nat, factoryList: map<nat, nat>)
      ensures this.factoryCount == factoryCount && this.factoryList == factoryList
    {
      this.factoryCount, this.factoryList := factoryCount, factoryList;
    }

    /** Builds one factory per id; building the encoder pool or any factory may fail. */
    static method New(factoryCount: nat, encoderPool: bool, factoryBuilt: nat -> bool)
      returns (r: Result<WebRtcPool, ServerError>)
      ensures r.Ok? <==> encoderPool && forall id :: 0 <= id < AsU32(factoryCount) ==> factoryBuilt(id)
      ensures r.Ok? ==> fresh(r.value) && r.value.Valid() && r.value.factoryCount == factoryCount
      ensures r.Ok? ==> r.value.Counts() == Zeros(AsU32(factoryCount))
      ensures r.Ok? && factoryCount < 0x1_0000_0000 ==> |r.value.Counts()| == factoryCount
      ensures r.Err? ==> r.error.WebRTCError?
    {
      if !encoderPool {
        return Err(WebRTCError("video encoder pool"));
      }
      var factoryList: map<nat, nat> := map[];
      for id := 0 to AsU32(factoryCount)
        invariant forall k :: k in factoryList <==> 0 <= k < id
        invariant forall k :: k in factoryList ==> factoryList[k] == 0 && factoryBuilt(k)
      {
        if !factoryBuilt(id) {
          return Err(WebRTCError("factory"));
        }
        factoryList := factoryList[id := 0];
      }
      var pool := new WebRtcPool(factoryCount, factoryList);
      return Ok(pool);
    }

    /** `order` is the order in which the map happens to be iterated, `built` whether the
        factory then manages to create the connection. The count is taken either way. */
    method CreatePeerConnectionManager(order: seq<nat>, built: bool, id: string, name: string, channel: nat)
      returns (r: Result<PeerConnectionManager, ServerError>, ghost picked: nat)
      requires Valid() && PoolProtocol.IsOrder(order, AsU32(factoryCount))
      modifies this`factoryList
      ensures Valid()
      ensures AsU32(factoryCount) == 0 ==> r.Err? && Counts() == old(Counts())
      ensures AsU32(factoryCount) != 0 ==>
                IsFirstMin(old(Counts()), order, picked) && Counts() == Bump(old(Counts()), picked) && (r.Ok? <==> built)
      ensures r.Err? ==> r.error.WebRTCError?
      ensures r.Ok? ==> fresh(r.value) && r.value.View() == NewConnection(id, name, picked, channel)
    {
      if order == [] {
        picked := 0;
        assert Counts() == [];
        return Err(WebRTCError("No peer connection factories")), 0;
      }
      var best := order[0];
      ghost var at := 0;
      for i := 1 to |order|
        invariant 0 <= at < i && order[at] == best
        invariant forall j :: 0 <= j < i ==> factoryList[best] <= factoryList[order[j]]
        invariant forall j :: 0 <= j < at ==> factoryList[best] < factoryList[order[j]]
      {
        if factoryList[best] > factoryList[order[i]] {
          best, at := order[i], i;
        }
      }
      assert IsFirstMin(Counts(), order, best) by {
        forall k | 0 <= k < AsU32(factoryCount) ensures factoryList[best] <= factoryList[k] {
          assert k in order;
        }
        assert order[at] == best;
      }
      ghost var before := Counts();
      factoryList := factoryList[best := factoryList[best] + 1];
      assert Counts() == Bump(before, best);
      picked := best;
      if !built {
        return Err(WebRTCError("peer connection")), best;
      }
      var pc := new PeerConnectionManager(best, id, name, channel);
      return Ok(pc), best;
    }
  }

  // ---- runs of calls, one after another ----

  function CountsAfter(n: nat, picks: seq<nat>): (c: seq<nat>)
    requires forall i :: 0 <= i < |picks| ==> picks[i] < n
    ensures |c| == n
  {
    if picks == [] then Zeros(n) else Bump(CountsAfter(n, picks[..|picks| - 1]), picks[|picks| - 1])
  }

  /** Each call picked one of the least loaded factories of its moment, ties broken in any way. */
  ghost predicate IsGreedy(n: nat, picks: seq<nat>)
    ensures IsGreedy(n, picks) ==> forall i :: 0 <= i < |picks| ==> picks[i] < n
  {
    picks == [] ||
    var prefix, last := picks[..|picks| - 1], picks[|picks| - 1];
    IsGreedy(n, prefix) && IsMin(CountsAfter(n, prefix), last)
  }

  lemma {:induction false} CountsAfterTotal(n: nat, picks: seq<nat>)
    requires forall i :: 0 <= i < |picks| ==> picks[i] < n
    ensures Sum(CountsAfter(n, picks)) == |picks|
  {
    if picks == [] {
      SumOfZeros(n);
    } else {
      var prefix := picks[..|picks| - 1];
      CountsAfterTotal(n, prefix);
      SumOfBump(CountsAfter(n, prefix), picks[|picks| - 1]);
    }
  }

  lemma {:induction false} GreedyIsBalanced(n: nat, picks: seq<nat>) returns (low: nat)
    requires IsGreedy(n, picks)
    ensures Balanced(CountsAfter(n, picks), low)
  {
    if picks == [] {
      low := 0;
    } else {
      var prefix, last := picks[..|picks| - 1], picks[|picks| - 1];
      low := GreedyIsBalanced(n, prefix);
      var c := CountsAfter(n, prefix);
      assert IsMin(c, last);
      if c[last] == low + 1 {
        low := low + 1;
      }
    }
  }

  /** After k = n * q + r calls, with r < n, r of the n factories hold q + 1 and the others q. */
  lemma GreedyDistribution(n: nat, picks: seq<nat>, q: nat, r: nat)
    requires IsGreedy(n, picks) && |picks| == n * q + r && r < n
    ensures EvenlySpread(CountsAfter(n, picks), q, r)
  {
    var low := GreedyIsBalanced(n, picks);
    CountsAfterTotal(n, picks);
    BalancedIsEvenlySpread(CountsAfter(n, picks), low, q, r);
  }

  /** The counts do not depend on the order the map is iterated in, up to which factory is which. */
  lemma TieBreakingIrrelevant(n: nat, picks: seq<nat>, others: seq<nat>)
    requires n > 0 && IsGreedy(n, picks) && IsGreedy(n, others) && |picks| == |others|
    ensures multiset(CountsAfter(n, picks)) == multiset(CountsAfter(n, others))
  {
    var q, r := Divide(|picks|, n);
    GreedyDistribution(n, picks, q, r);
    GreedyDistribution(n, others, q, r);
    EvenlySpreadUnique(CountsAfter(n, picks), CountsAfter(n, others), q, r);
  }

  /** No way of spreading as many creations over the factories has a lower peak or sum of squares. */
  lemma GreedyOptimal(n: nat, picks: seq<nat>, spread: seq<nat>)
    requires n > 0 && IsGreedy(n, picks) && |spread| == n && Sum(spread) == |picks|
    ensures Peak(CountsAfter(n, picks)) <= Peak(spread)
    ensures SumOfSquares(CountsAfter(n, picks)) <= SumOfSquares(spread)
  {
    var low := GreedyIsBalanced(n, picks);
    CountsAfterTotal(n, picks);
    BalancedOptimal(CountsAfter(n, picks), low, spread);
  }
}
