/** Load balance and accounting of the factory pools, over every run of the server. */
module ServerPool {
  import opened Wrappers
  import opened Counts
  import opened PeerConnections
  import opened Sessions
  import opened Server
  import opened ServerInvariants
  import PoolProtocol
  import WebRtcPools

  predicate ScansFor(q: Request, sid: string) { q.Scanning? && q.sid == sid }

  /** The pool of one session, with the scans in progress on it. */
  function PoolOf(st: State, sid: string): PoolProtocol.Pool
    requires sid in st.sessions
  {
    PoolProtocol.Pool(st.sessions[sid].counts,
                      map call | call in st.requests && ScansFor(st.requests[call], sid) :: st.requests[call].scan)
  }

  /** The step a session's pool takes when the server takes step e. */
  function PoolStep(st: State, e: Event, sid: string): Option<PoolProtocol.PoolEvent> {
    match e
    case CreateBegin(call, s, _, _, order) => if s == sid && order != [] then Some(PoolProtocol.Begin(call, order)) else None
    case CreateLoadBest(call) => if call in st.requests && st.requests[call].sid == sid then Some(PoolProtocol.LoadBest(call)) else None
    case CreateLoadNext(call) => if call in st.requests && st.requests[call].sid == sid then Some(PoolProtocol.LoadNext(call)) else None
    case CreateIncrement(call) => if call in st.requests && st.requests[call].sid == sid then Some(PoolProtocol.Increment(call)) else None
    case _ => None
  }

  lemma ScansStand(st: State, e: Event, sid: string)
    requires Enabled(st, e) && sid in st.sessions && !Recreates(e, sid) && PoolStep(st, e, sid).None?
    ensures forall call :: call in Apply(st, e).requests && ScansFor(Apply(st, e).requests[call], sid) ==>
              call in st.requests && st.requests[call] == Apply(st, e).requests[call]
    ensures forall call :: call in st.requests && ScansFor(st.requests[call], sid) ==> call in Apply(st, e).requests
  {
  }

  lemma PoolStands(st: State, e: Event, sid: string)
    requires Enabled(st, e) && sid in st.sessions && !Recreates(e, sid) && PoolStep(st, e, sid).None?
    ensures sid in Apply(st, e).sessions && PoolOf(Apply(st, e), sid) == PoolOf(st, sid)
  {
    StepKeeps(st, e, sid);
    CountsStand(st, e, sid);
    ScansStand(st, e, sid);
    assert PoolOf(Apply(st, e), sid).scans == PoolOf(st, sid).scans;
  }

  lemma StepKeeps(st: State, e: Event, sid: string)
    requires Enabled(st, e) && sid in st.sessions
    ensures sid in Apply(st, e).sessions
  {
  }

  lemma PoolMoves(st: State, e: Event, sid: string)
    requires Enabled(st, e) && sid in st.sessions && !Recreates(e, sid) && PoolStep(st, e, sid).Some?
    ensures sid in Apply(st, e).sessions
    ensures PoolProtocol.Enabled(PoolOf(st, sid), PoolStep(st, e, sid).value)
    ensures PoolOf(Apply(st, e), sid) == PoolProtocol.Apply(PoolOf(st, sid), PoolStep(st, e, sid).value)
  {
    var next := Apply(st, e);
    var p, q := PoolOf(st, sid), PoolProtocol.Apply(PoolOf(st, sid), PoolStep(st, e, sid).value);
    assert next.sessions[sid].counts == q.counts;
    assert PoolOf(next, sid).scans == q.scans;
  }

  /** At most t calls scan this session's pool at any time of the run. */
  ghost predicate ScansBounded(r: Run, sid: string, t: nat) {
    forall i :: 0 <= i < |r.states| && sid in r.states[i].sessions ==> |PoolOf(r.states[i], sid).scans| <= t
  }

  lemma {:induction false} PoolInvInRun(r: Run, sid: string, t: nat, i: nat)
    requires IsRun(r) && ScansBounded(r, sid, t) && i < |r.states| && sid in r.states[i].sessions
    ensures PoolProtocol.Inv(|r.states[i].sessions[sid].counts|, t, PoolOf(r.states[i], sid))
  {
    if i > 0 {
      var st, e := r.states[i - 1], r.events[i - 1];
      assert StepAt(r, i - 1);
      if Recreates(e, sid) {
        PoolRecreated(st, e);
        PoolProtocol.FreshInv(WebRtcPools.AsU32(e.factoryCount), t);
      } else {
        PoolInvInRun(r, sid, t, i - 1);
        PoolInvStep(st, e, sid, t);
      }
    }
  }

  lemma PoolRecreated(st: State, e: Event)
    requires Enabled(st, e) && e.CreateSession?
    ensures PoolOf(Apply(st, e), e.sid) == PoolProtocol.Fresh(WebRtcPools.AsU32(e.factoryCount))
  {
  }

  lemma PoolInvStep(st: State, e: Event, sid: string, t: nat)
    requires Enabled(st, e) && sid in st.sessions && !Recreates(e, sid)
    requires PoolProtocol.Inv(|st.sessions[sid].counts|, t, PoolOf(st, sid))
    requires sid in Apply(st, e).sessions && |PoolOf(Apply(st, e), sid).scans| <= t
    ensures PoolProtocol.Inv(|Apply(st, e).sessions[sid].counts|, t, PoolOf(Apply(st, e), sid))
  {
    if PoolStep(st, e, sid).None? {
      PoolStands(st, e, sid);
    } else {
      PoolMoves(st, e, sid);
      PoolProtocol.StepKeepsInv(|st.sessions[sid].counts|, t, PoolOf(st, sid), PoolStep(st, e, sid).value);
    }
  }

  /** In every state of every run with at most t scans in flight on a session, the load of one
      of its factories, increments still to come included, exceeds another's by at most t. */
  lemma ServerBalance(r: Run, sid: string, t: nat, i: nat, a: nat, b: nat)
    requires IsRun(r) && ScansBounded(r, sid, t) && i < |r.states| && sid in r.states[i].sessions
    requires a < |r.states[i].sessions[sid].counts| && b < |r.states[i].sessions[sid].counts|
    ensures var c := r.states[i].sessions[sid].counts;
            c[a] + |PoolProtocol.Pending(PoolOf(r.states[i], sid), a)| <= c[b] + t
  {
    PoolInvInRun(r, sid, t, i);
    PoolProtocol.InvBoundsLoad(|r.states[i].sessions[sid].counts|, t, PoolOf(r.states[i], sid), a, b);
  }

  // ---- accounting ----

  /** The connections of a session that live on factory f. */
  function Live(v: SessionView, f: nat): set<string> {
    set k | k in v.connections && v.connections[k].poolId == f
  }

  /** The request has taken a count of factory f and its connection is not yet inserted. */
  predicate Owes(q: Request, sid: string, f: nat) {
    q.sid == sid && ((q.Counted? && q.poolId == f) || (q.Built? && q.connection.poolId == f))
  }

  function Owing(requests: map<nat, Request>, sid: string, f: nat): set<nat> {
    set call | call in requests && Owes(requests[call], sid, f)
  }

  /** What a step can enter in the books of a factory: a count taken, a build that failed, a
      connection of its own that an insert replaced. */
  datatype Entry = Taken | Failed | Replaced

  predicate Books(entry: Entry, st: State, e: Event, sid: string, f: nat) {
    match entry
    case Taken => IsIncrement(st, e, sid) && st.requests[e.call].Scanning? && st.requests[e.call].scan.best == f
    case Failed => e.CreateBuild? && !e.built && e.call in st.requests && Owes(st.requests[e.call], sid, f)
    case Replaced =>
      && e.CreateInsert? && e.call in st.requests && st.requests[e.call].Built? && st.requests[e.call].sid == sid
      && sid in st.sessions && st.requests[e.call].connection.id in Live(st.sessions[sid], f)
  }

  function One(b: bool): nat { if b then 1 else 0 }

  /** Entries of one kind in the books of factory f since the session was last created. */
  ghost function Entries(r: Run, entry: Entry, sid: string, f: nat, i: nat): nat
    requires IsRun(r) && i < |r.states|
  {
    if i == 0 || Recreates(r.events[i - 1], sid) then 0
    else Entries(r, entry, sid, f, i - 1) + One(Books(entry, r.states[i - 1], r.events[i - 1], sid, f))
  }

  /** Only an insert changes which connections live where. */
  lemma LiveStands(st: State, e: Event, sid: string, f: nat)
    requires Enabled(st, e) && sid in st.sessions && !Recreates(e, sid) && !e.CreateInsert?
    ensures sid in Apply(st, e).sessions && Live(Apply(st, e).sessions[sid], f) == Live(st.sessions[sid], f)
  {
  }

  lemma LiveOnInsert(st: State, e: Event, sid: string, f: nat)
    requires Enabled(st, e) && e.CreateInsert? && sid in st.sessions
    ensures sid in Apply(st, e).sessions
    ensures |Live(Apply(st, e).sessions[sid], f)| + One(Books(Replaced, st, e, sid, f))
            == |Live(st.sessions[sid], f)| + One(Owes(st.requests[e.call], sid, f))
  {
    var q := st.requests[e.call];
    var before, after := Live(st.sessions[sid], f), Live(Apply(st, e).sessions[sid], f);
    if q.sid != sid {
      assert after == before;
    } else if q.connection.poolId == f {
      assert after == before + {q.connection.id};
    } else {
      assert after == before - {q.connection.id};
    }
  }

  lemma OwingStands(st: State, e: Event, sid: string, f: nat)
    requires Enabled(st, e) && !e.CreateIncrement? && !e.CreateBuild? && !e.CreateInsert?
    ensures Owing(Apply(st, e).requests, sid, f) == Owing(st.requests, sid, f)
  {
  }

  lemma OwingWithout(requests: map<nat, Request>, call: nat, sid: string, f: nat)
    requires call in requests
    ensures |Owing(requests - {call}, sid, f)| + One(Owes(requests[call], sid, f)) == |Owing(requests, sid, f)|
  {
    assert Owing(requests - {call}, sid, f) == Owing(requests, sid, f) - {call};
  }

  lemma OwingWith(requests: map<nat, Request>, call: nat, q: Request, sid: string, f: nat)
    requires call in requests
    ensures |Owing(requests[call := q], sid, f)| + One(Owes(requests[call], sid, f)) == |Owing(requests, sid, f)| + One(Owes(q, sid, f))
  {
    OwingWithout(requests, call, sid, f);
    OwingWithout(requests[call := q], call, sid, f);
    assert requests[call := q] - {call} == requests - {call};
  }

  /** An increment opens a debt; a failed build and an insert settle one. */
  lemma OwingMoves(st: State, e: Event, sid: string, f: nat)
    requires Enabled(st, e) && (e.CreateIncrement? || e.CreateBuild? || e.CreateInsert?)
    ensures |Owing(Apply(st, e).requests, sid, f)| + One(Books(Failed, st, e, sid, f))
            + One(e.CreateInsert? && Owes(st.requests[e.call], sid, f))
            == |Owing(st.requests, sid, f)| + One(Books(Taken, st, e, sid, f))
  {
    var next := Apply(st, e).requests;
    if e.call in next {
      OwingWith(st.requests, e.call, next[e.call], sid, f);
    } else {
      OwingWithout(st.requests, e.call, sid, f);
    }
  }

  lemma LedgerStep(st: State, e: Event, sid: string, f: nat)
    requires Enabled(st, e) && sid in st.sessions && !Recreates(e, sid)
    ensures sid in Apply(st, e).sessions
    ensures |Live(Apply(st, e).sessions[sid], f)| + |Owing(Apply(st, e).requests, sid, f)|
            + One(Books(Failed, st, e, sid, f)) + One(Books(Replaced, st, e, sid, f))
            == |Live(st.sessions[sid], f)| + |Owing(st.requests, sid, f)| + One(Books(Taken, st, e, sid, f))
  {
    if e.CreateIncrement? || e.CreateBuild? || e.CreateInsert? {
      OwingMoves(st, e, sid, f);
    } else {
      OwingStands(st, e, sid, f);
    }
    if e.CreateInsert? {
      LiveOnInsert(st, e, sid, f);
    } else {
      LiveStands(st, e, sid, f);
    }
  }

  lemma LedgerOpens(st: State, e: Event, sid: string, f: nat)
    requires Enabled(st, e) && Recreates(e, sid)
    ensures sid in Apply(st, e).sessions
    ensures Live(Apply(st, e).sessions[sid], f) == {} && Owing(Apply(st, e).requests, sid, f) == {}
  {
  }

  lemma CountStep(st: State, e: Event, sid: string, f: nat)
    requires Enabled(st, e) && sid in st.sessions && !Recreates(e, sid) && f < |st.sessions[sid].counts|
    ensures sid in Apply(st, e).sessions && |Apply(st, e).sessions[sid].counts| == |st.sessions[sid].counts|
    ensures Apply(st, e).sessions[sid].counts[f] == st.sessions[sid].counts[f] + One(Books(Taken, st, e, sid, f))
  {
    SessionsGrow(st, e, sid);
    if !IsIncrement(st, e, sid) {
      CountsStand(st, e, sid);
    }
  }

  /** The ledger of a factory, exact in every state of every run: each increment since the
      session was created is a living connection, one on its way, a failed build or a
      replaced connection. */
  lemma {:induction false} ExactLedger(r: Run, sid: string, f: nat, i: nat)
    requires IsRun(r) && i < |r.states| && sid in r.states[i].sessions && f < |r.states[i].sessions[sid].counts|
    ensures r.states[i].sessions[sid].counts[f] == Entries(r, Taken, sid, f, i)
    ensures Entries(r, Taken, sid, f, i)
            == |Live(r.states[i].sessions[sid], f)| + |Owing(r.states[i].requests, sid, f)|
               + Entries(r, Failed, sid, f, i) + Entries(r, Replaced, sid, f, i)
  {
    if i > 0 {
      var st, e := r.states[i - 1], r.events[i - 1];
      assert StepAt(r, i - 1);
      if Recreates(e, sid) {
        LedgerOpens(st, e, sid, f);
      } else {
        SessionOlder(st, e, sid);
        SessionsGrow(st, e, sid);
        ExactLedger(r, sid, f, i - 1);
        CountStep(st, e, sid, f);
        LedgerStep(st, e, sid, f);
      }
    }
  }

  /** So the connections living on a factory and those on their way to it number at most its count. */
  lemma PoolAccounting(r: Run, sid: string, f: nat, i: nat)
    requires IsRun(r) && i < |r.states| && sid in r.states[i].sessions && f < |r.states[i].sessions[sid].counts|
    ensures |Live(r.states[i].sessions[sid], f)| + |Owing(r.states[i].requests, sid, f)| <= r.states[i].sessions[sid].counts[f]
  {
    ExactLedger(r, sid, f, i);
  }

  /** Increments of a session's pool since the session was last created, up to state i. */
  ghost function Increments(r: Run, sid: string, i: nat): nat
    requires IsRun(r) && i < |r.states|
  {
    if i == 0 || Recreates(r.events[i - 1], sid) then 0
    else
      Increments(r, sid, i - 1)
      + if IsIncrement(r.states[i - 1], r.events[i - 1], sid) then 1 else 0
  }

  predicate IsIncrement(st: State, e: Event, sid: string) {
    e.CreateIncrement? && e.call in st.requests && st.requests[e.call].sid == sid
  }

  /** The counts of a pool add up to the increments performed on it. */
  lemma {:induction false} CountsAreIncrements(r: Run, sid: string, i: nat)
    requires IsRun(r) && i < |r.states| && sid in r.states[i].sessions
    ensures Sum(r.states[i].sessions[sid].counts) == Increments(r, sid, i)
  {
    if i > 0 {
      var st, e, next := r.states[i - 1], r.events[i - 1], r.states[i];
      assert StepAt(r, i - 1);
      if Recreates(e, sid) {
        SumOfZeros(WebRtcPools.AsU32(e.factoryCount));
      } else {
        CountsAreIncrements(r, sid, i - 1);
        if IsIncrement(st, e, sid) {
          SumOfBump(st.sessions[sid].counts, st.requests[e.call].scan.best);
        } else {
          CountsStand(st, e, sid);
        }
      }
    }
  }

  lemma CountsStand(st: State, e: Event, sid: string)
    requires Enabled(st, e) && sid in Apply(st, e).sessions && !Recreates(e, sid) && !IsIncrement(st, e, sid)
    ensures sid in st.sessions && Apply(st, e).sessions[sid].counts == st.sessions[sid].counts
  {
  }

  lemma SpreadOfOneIsBalanced(c: seq<nat>) returns (q: nat)
    requires c != [] && PoolProtocol.Spread(c, 1)
    ensures Balanced(c, q)
  {
    q := c[0];
    if exists i :: 0 <= i < |c| && c[i] < c[0] {
      var i :| 0 <= i < |c| && c[i] < c[0];
      q := c[i];
    }
  }

  /** If a session's creations never overlap, the factories end up as evenly loaded as can be:
      after n * q + r increments, with r < n, r of the n factories hold q + 1 and the others q. */
  lemma SequentialCreationsSpreadEvenly(r: Run, sid: string, i: nat, q: nat, rest: nat)
    requires IsRun(r) && ScansBounded(r, sid, 1) && i < |r.states| && sid in r.states[i].sessions
    requires Increments(r, sid, i) == |r.states[i].sessions[sid].counts| * q + rest && rest < |r.states[i].sessions[sid].counts|
    ensures EvenlySpread(r.states[i].sessions[sid].counts, q, rest)
  {
    PoolInvInRun(r, sid, 1, i);
    var low := SpreadOfOneIsBalanced(r.states[i].sessions[sid].counts);
    CountsAreIncrements(r, sid, i);
    BalancedIsEvenlySpread(r.states[i].sessions[sid].counts, low, q, rest);
  }

  /** What add_track and add_transceiver get when they look up their connection's factory. */
  function TrackLookup(st: State, sid: string, peerId: string): Result<nat, ServerError> {
    if sid !in st.sessions then Err(InvalidSessionError(sid))
    else if peerId !in st.sessions[sid].connections then Err(InvalidPeerConnection(peerId))
    else
      var v := st.sessions[sid];
      TrackFactory(v.connections[peerId].poolId, |v.counts|)
  }

  /** The lookup fails only for want of the session or the connection, and finds the connection's own factory. */
  lemma LookupNeverMisses(r: Run, i: nat, sid: string, peerId: string)
    requires IsRun(r) && i < |r.states|
    ensures var st := r.states[i];
            TrackLookup(st, sid, peerId) ==
            if sid !in st.sessions then Err(InvalidSessionError(sid))
            else if peerId !in st.sessions[sid].connections then Err(InvalidPeerConnection(peerId))
            else Ok(st.sessions[sid].connections[peerId].poolId)
  {
    RunInv(r, i);
    assert Indexed(r.states[i]);
  }
}
