/** What every reachable state of the server satisfies. */
module ServerInvariants {
  import opened Wrappers
  import opened PeerConnections
  import opened Sessions
  import PoolProtocol
  import opened Server

  /** A session is stored under its own id, its connections under theirs, and each of them
      refers to a factory of this session's own pool. */
  ghost predicate SessionOk(v: SessionView, sid: string) {
    && v.id == sid
    && (forall k :: k in v.connections ==> v.connections[k].id == k && v.connections[k].poolId < |v.counts|)
  }

  ghost predicate Indexed(st: State) {
    forall sid :: sid in st.sessions ==> SessionOk(st.sessions[sid], sid)
  }

  /** The connections that a statistics request has counted when `todo` are still to come. */
  function CountedSoFar(connections: map<string, Connection>, todo: set<string>): map<string, Connection> {
    map k | k in connections && k !in todo :: connections[k]
  }

  ghost predicate RequestFits(v: SessionView, q: Request) {
    match q
    case Scanning(_, _, _, scan) => PoolProtocol.ScanOk(v.counts, scan)
    case Counted(_, _, _, poolId) => poolId < |v.counts|
    case Built(_, connection) => connection.poolId < |v.counts| && IsNew(connection)
    case Observing(_, peerId) => peerId in v.connections
    case ObservingIce(_, peerId, _) =>
      && peerId in v.connections
      && v.connections[peerId].videoTrackRx.None? && v.connections[peerId].iceCandidatesRx.Some?
    case Tallying(_, total, todo, tally) =>
      && total == |v.connections| && todo <= v.connections.Keys
      && tally == TallyOf(CountedSoFar(v.connections, todo))
  }

  ghost predicate RequestsFit(st: State) {
    forall call :: call in st.requests ==> InFlight(st, call) && RequestFits(Own(st, call), st.requests[call])
  }

  /** Two requests in flight that could not both hold their guards. */
  ghost predicate Conflict(p: Request, q: Request) {
    || (p.Tallying? && p.sid == q.sid)
    || exists peerId :: HoldsPeer(p, p.sid, peerId) && HoldsPeer(q, p.sid, peerId)
  }

  /** An exclusive guard excludes every other guard on the same session or connection. */
  ghost predicate GuardsExclude(st: State) {
    && (forall a, b :: a in st.requests && b in st.requests && a != b ==> !Conflict(st.requests[a], st.requests[b]))
    && (forall a :: a in st.requests && st.requests[a].Tallying? ==> !Visits(st.metrics, st.requests[a].sid))
    && (st.metrics.Visiting? ==> st.metrics.sid in st.sessions)
  }

  /** Some observer request holds the video receiver but not yet the ICE one. */
  ghost predicate HandingOver(st: State, sid: string, peerId: string) {
    exists call :: call in st.requests && st.requests[call].ObservingIce? && HoldsPeer(st.requests[call], sid, peerId)
  }

  /** Outside a hand-over, both receivers of a connection are present or both are taken. */
  ghost predicate ReceiversPaired(st: State) {
    forall sid, k :: sid in st.sessions && k in st.sessions[sid].connections && !HandingOver(st, sid, k) ==>
      (st.sessions[sid].connections[k].videoTrackRx.Some? <==> st.sessions[sid].connections[k].iceCandidatesRx.Some?)
  }

  ghost predicate Inv(st: State) {
    Indexed(st) && RequestsFit(st) && GuardsExclude(st) && ReceiversPaired(st)
  }

  /** The connection that the step inserts, if any, refers to a factory of its session. */
  predicate InsertFits(st: State, e: Event) {
    e.CreateInsert? && InFlight(st, e.call) && st.requests[e.call].Built? ==>
      st.requests[e.call].connection.poolId < |Own(st, e.call).counts|
  }

  lemma SessionStaysIndexed(st: State, e: Event, sid: string)
    requires Enabled(st, e) && InsertFits(st, e) && (sid in st.sessions ==> SessionOk(st.sessions[sid], sid))
    ensures sid in Apply(st, e).sessions ==> SessionOk(Apply(st, e).sessions[sid], sid)
  {
  }

  lemma IndexedStep(st: State, e: Event)
    requires Inv(st) && Enabled(st, e)
    ensures Indexed(Apply(st, e))
  {
    if e.CreateInsert? {
      assert RequestFits(Own(st, e.call), st.requests[e.call]);
    }
    forall sid | sid in Apply(st, e).sessions ensures SessionOk(Apply(st, e).sessions[sid], sid) {
      SessionStaysIndexed(st, e, sid);
    }
  }

  /** The request that takes the step, if it is one in flight or about to be. */
  function Actor(e: Event): Option<nat> {
    match e
    case StatsBegin(call, _) => Some(call)
    case StatsCount(call, _) => Some(call)
    case StatsEnd(call, _) => Some(call)
    case CreateBegin(call, _, _, _, _) => Some(call)
    case CreateLoadBest(call) => Some(call)
    case CreateLoadNext(call) => Some(call)
    case CreateIncrement(call) => Some(call)
    case CreateBuild(call, _, _) => Some(call)
    case CreateInsert(call) => Some(call)
    case ObserveBegin(call, _, _) => Some(call)
    case ObserveVideo(call) => Some(call)
    case ObserveIce(call) => Some(call)
    case _ => None
  }

  lemma OnlyActorMoves(st: State, e: Event, call: nat)
    requires Enabled(st, e) && Actor(e) != Some(call)
    ensures call in Apply(st, e).requests <==> call in st.requests
    ensures call in st.requests ==> Apply(st, e).requests[call] == st.requests[call]
  {
  }

  /** What the step makes of its own request conflicts with no other request. */
  lemma ActorConflictsWithNone(st: State, e: Event, a: nat, b: nat)
    requires GuardsExclude(st) && Enabled(st, e) && Actor(e) == Some(a) && b in st.requests && a != b
    requires a in Apply(st, e).requests
    ensures !Conflict(Apply(st, e).requests[a], st.requests[b]) && !Conflict(st.requests[b], Apply(st, e).requests[a])
  {
    if a in st.requests {
      assert !Conflict(st.requests[a], st.requests[b]) && !Conflict(st.requests[b], st.requests[a]);
    }
  }

  lemma GuardsStep(st: State, e: Event)
    requires Inv(st) && Enabled(st, e)
    ensures GuardsExclude(Apply(st, e))
  {
    var next := Apply(st, e);
    forall a, b | a in next.requests && b in next.requests && a != b
      ensures !Conflict(next.requests[a], next.requests[b])
    {
      if Actor(e) == Some(a) {
        OnlyActorMoves(st, e, b);
        ActorConflictsWithNone(st, e, a, b);
      } else if Actor(e) == Some(b) {
        OnlyActorMoves(st, e, a);
        ActorConflictsWithNone(st, e, b, a);
      } else {
        OnlyActorMoves(st, e, a);
        OnlyActorMoves(st, e, b);
      }
    }
    forall a | a in next.requests && next.requests[a].Tallying? ensures !Visits(next.metrics, next.requests[a].sid) {
      StatisticsMeetNoVisit(st, e, a);
    }
  }

  lemma StatisticsMeetNoVisit(st: State, e: Event, a: nat)
    requires GuardsExclude(st) && Enabled(st, e)
    requires a in Apply(st, e).requests && Apply(st, e).requests[a].Tallying?
    ensures !Visits(Apply(st, e).metrics, Apply(st, e).requests[a].sid)
  {
  }

  /** Unless it is created anew, a session keeps its factories and connections, and its counts never drop. */
  ghost predicate Grows(v: SessionView, w: SessionView) {
    && |v.counts| == |w.counts| && (forall i :: 0 <= i < |v.counts| ==> v.counts[i] <= w.counts[i])
    && v.connections.Keys <= w.connections.Keys
  }

  predicate Recreates(e: Event, sid: string) { e.CreateSession? && e.sid == sid }

  lemma SessionsGrow(st: State, e: Event, sid: string)
    requires Enabled(st, e) && sid in st.sessions && !Recreates(e, sid)
    ensures sid in Apply(st, e).sessions && Grows(st.sessions[sid], Apply(st, e).sessions[sid])
  {
  }

  lemma SessionOlder(st: State, e: Event, sid: string)
    requires Enabled(st, e) && sid in Apply(st, e).sessions && !Recreates(e, sid)
    ensures sid in st.sessions
  {
  }

  /** An exclusive guard on a session keeps it as it is. */
  lemma GuardedSessionStays(st: State, e: Event, call: nat)
    requires GuardsExclude(st) && Enabled(st, e) && InFlight(st, call) && st.requests[call].Tallying?
    ensures st.requests[call].sid in Apply(st, e).sessions
    ensures Apply(st, e).sessions[st.requests[call].sid] == Own(st, call)
  {
    if Actor(e).Some? && Actor(e).value in st.requests && Actor(e).value != call {
      assert !Conflict(st.requests[call], st.requests[Actor(e).value]);
    }
  }

  /** An exclusive guard on a connection keeps its receivers in place while others step. */
  lemma GuardedPeerStays(st: State, e: Event, call: nat)
    requires GuardsExclude(st) && Enabled(st, e) && InFlight(st, call) && st.requests[call].ObservingIce? && Actor(e) != Some(call)
    requires st.requests[call].peerId in Own(st, call).connections
    requires st.requests[call].sid in Apply(st, e).sessions
    requires st.requests[call].peerId in Apply(st, e).sessions[st.requests[call].sid].connections
    ensures var c := Own(st, call).connections[st.requests[call].peerId];
            var d := Apply(st, e).sessions[st.requests[call].sid].connections[st.requests[call].peerId];
            c.videoTrackRx == d.videoTrackRx && c.iceCandidatesRx == d.iceCandidatesRx
  {
    var q := st.requests[call];
    assert HoldsPeer(q, q.sid, q.peerId);
    if Actor(e).Some? && Actor(e).value in st.requests {
      assert !Conflict(q, st.requests[Actor(e).value]);
    }
  }

  lemma OthersKeepFitting(st: State, e: Event, call: nat)
    requires Inv(st) && Enabled(st, e) && call in st.requests && Actor(e) != Some(call)
    ensures InFlight(Apply(st, e), call)
    ensures RequestFits(Own(Apply(st, e), call), st.requests[call])
  {
    OnlyActorMoves(st, e, call);
    assert InFlight(st, call) && RequestFits(Own(st, call), st.requests[call]);
    var q := st.requests[call];
    assert !Recreates(e, q.sid);
    SessionsGrow(st, e, q.sid);
    if q.Tallying? {
      GuardedSessionStays(st, e, call);
    } else if q.ObservingIce? {
      GuardedPeerStays(st, e, call);
    }
  }

  lemma CountedOne(connections: map<string, Connection>, todo: set<string>, k: string)
    requires k in todo && k in connections
    ensures CountOne(TallyOf(CountedSoFar(connections, todo)), connections[k]) == TallyOf(CountedSoFar(connections, todo - {k}))
  {
    assert CountedSoFar(connections, todo - {k}) == CountedSoFar(connections, todo)[k := connections[k]];
    CountOneExtends(CountedSoFar(connections, todo), k, connections[k]);
  }

  lemma NothingCounted(connections: map<string, Connection>)
    ensures TallyOf(CountedSoFar(connections, connections.Keys)) == Tally(0, 0, 0, 0)
  {
  }

  /** The request that takes the step fits its session after it, if it is then in flight. */
  ghost predicate FitsNext(st: State, e: Event, call: nat)
    requires Enabled(st, e)
  {
    var next := Apply(st, e);
    call in next.requests ==> InFlight(next, call) && RequestFits(Own(next, call), next.requests[call])
  }

  lemma StatisticsFit(st: State, e: Event)
    requires RequestsFit(st) && Enabled(st, e) && (e.StatsBegin? || e.StatsCount? || e.StatsEnd?)
    ensures FitsNext(st, e, e.call)
  {
    if e.StatsBegin? && e.sid in st.sessions {
      NothingCounted(st.sessions[e.sid].connections);
    } else if e.StatsCount? {
      assert RequestFits(Own(st, e.call), st.requests[e.call]);
      CountedOne(Own(st, e.call).connections, st.requests[e.call].todo, e.peerId);
    }
  }

  lemma ScanFits(st: State, e: Event)
    requires Enabled(st, e) && (e.CreateBegin? || e.CreateLoadBest? || e.CreateLoadNext?)
    requires e.CreateBegin? ==> e.call !in st.requests
    ensures FitsNext(st, e, e.call)
  {
    if e.CreateLoadNext? {
      var scan := st.requests[e.call].scan;
      assert scan.order[..scan.next + 1] == scan.order[..scan.next] + [scan.order[scan.next]];
    }
  }

  lemma CreationFits(st: State, e: Event)
    requires RequestsFit(st) && Enabled(st, e) && (e.CreateIncrement? || e.CreateBuild? || e.CreateInsert?)
    ensures FitsNext(st, e, e.call)
  {
    assert RequestFits(Own(st, e.call), st.requests[e.call]);
  }

  /** An observer that takes the video receiver finds the ICE receiver in place. */
  lemma TrackBeforeIce(st: State, e: Event)
    requires Inv(st) && Enabled(st, e) && e.ObserveVideo?
    ensures var c := Own(st, e.call).connections[st.requests[e.call].peerId];
            c.videoTrackRx.Some? ==> c.iceCandidatesRx.Some?
  {
    var q := st.requests[e.call];
    if HandingOver(st, q.sid, q.peerId) {
      var b :| b in st.requests && st.requests[b].ObservingIce? && HoldsPeer(st.requests[b], q.sid, q.peerId);
      assert RequestFits(Own(st, b), st.requests[b]);
    }
  }

  lemma ObservationFits(st: State, e: Event)
    requires Inv(st) && Enabled(st, e) && (e.ObserveBegin? || e.ObserveVideo? || e.ObserveIce?)
    ensures FitsNext(st, e, e.call)
  {
    if e.ObserveVideo? {
      TrackBeforeIce(st, e);
    }
  }

  lemma ActorFits(st: State, e: Event, call: nat)
    requires Inv(st) && Enabled(st, e) && Actor(e) == Some(call)
    ensures FitsNext(st, e, call)
  {
    if e.StatsBegin? || e.StatsCount? || e.StatsEnd? {
      StatisticsFit(st, e);
    } else if e.CreateBegin? || e.CreateLoadBest? || e.CreateLoadNext? {
      ScanFits(st, e);
    } else if e.CreateIncrement? || e.CreateBuild? || e.CreateInsert? {
      CreationFits(st, e);
    } else {
      ObservationFits(st, e);
    }
  }

  /** Only the observer itself ends a hand-over, by taking the ICE receiver. */
  lemma HandOverEnds(st: State, e: Event, sid: string, k: string)
    requires Inv(st) && Enabled(st, e)
    ensures HandingOver(st, sid, k) && !HandingOver(Apply(st, e), sid, k) ==>
              e.ObserveIce? && e.call in st.requests && HoldsPeer(st.requests[e.call], sid, k)
  {
    forall b | b in st.requests && st.requests[b].ObservingIce? && HoldsPeer(st.requests[b], sid, k) && Actor(e) != Some(b)
      ensures HandingOver(Apply(st, e), sid, k)
    {
      OnlyActorMoves(st, e, b);
    }
  }

  /** An observer that takes a video receiver begins a hand-over. */
  lemma HandOverBegins(st: State, e: Event, sid: string, k: string)
    requires Enabled(st, e) && e.ObserveVideo? && HoldsPeer(st.requests[e.call], sid, k)
    ensures Own(st, e.call).connections[k].videoTrackRx.Some? ==> HandingOver(Apply(st, e), sid, k)
  {
    if Own(st, e.call).connections[k].videoTrackRx.Some? {
      var q := Apply(st, e).requests[e.call];
      assert q.ObservingIce? && HoldsPeer(q, sid, k);
    }
  }

  /** The step stores a connection under this id, anew or with a receiver taken. */
  predicate Rewires(st: State, e: Event, sid: string, k: string)
    requires (e.ObserveVideo? || e.ObserveIce?) ==>
               e.call in st.requests && (st.requests[e.call].Observing? || st.requests[e.call].ObservingIce?)
    requires e.CreateInsert? ==> e.call in st.requests && st.requests[e.call].Built?
  {
    || ((e.ObserveVideo? || e.ObserveIce?) && HoldsPeer(st.requests[e.call], sid, k))
    || (e.CreateInsert? && st.requests[e.call].sid == sid && st.requests[e.call].connection.id == k)
  }

  lemma ReceiversUntouched(st: State, e: Event, sid: string, k: string)
    requires Enabled(st, e) && !Rewires(st, e, sid, k) && !Recreates(e, sid)
    requires sid in Apply(st, e).sessions && k in Apply(st, e).sessions[sid].connections
    ensures sid in st.sessions && k in st.sessions[sid].connections
    ensures var c, d := st.sessions[sid].connections[k], Apply(st, e).sessions[sid].connections[k];
            c.videoTrackRx == d.videoTrackRx && c.iceCandidatesRx == d.iceCandidatesRx
  {
  }

  lemma ReceiversRewired(st: State, e: Event, sid: string, k: string)
    requires Inv(st) && Enabled(st, e) && Rewires(st, e, sid, k)
    requires sid in Apply(st, e).sessions && k in Apply(st, e).sessions[sid].connections
    requires !HandingOver(Apply(st, e), sid, k)
    ensures var c := Apply(st, e).sessions[sid].connections[k]; c.videoTrackRx.Some? <==> c.iceCandidatesRx.Some?
  {
    assert RequestFits(Own(st, e.call), st.requests[e.call]);
    if e.ObserveVideo? {
      HandOverBegins(st, e, sid, k);
      HandOverEnds(st, e, sid, k);
    }
  }

  lemma ReceiversStep(st: State, e: Event, sid: string, k: string)
    requires Inv(st) && Enabled(st, e)
    requires sid in Apply(st, e).sessions && k in Apply(st, e).sessions[sid].connections
    requires !HandingOver(Apply(st, e), sid, k)
    ensures var c := Apply(st, e).sessions[sid].connections[k]; c.videoTrackRx.Some? <==> c.iceCandidatesRx.Some?
  {
    if Rewires(st, e, sid, k) {
      ReceiversRewired(st, e, sid, k);
    } else if !Recreates(e, sid) {
      ReceiversUntouched(st, e, sid, k);
      HandOverEnds(st, e, sid, k);
    }
  }

  lemma StepKeepsInv(st: State, e: Event)
    requires Inv(st) && Enabled(st, e)
    ensures Inv(Apply(st, e))
  {
    var next := Apply(st, e);
    IndexedStep(st, e);
    GuardsStep(st, e);
    forall call | call in next.requests ensures InFlight(next, call) && RequestFits(Own(next, call), next.requests[call]) {
      if Actor(e) == Some(call) {
        ActorFits(st, e, call);
      } else {
        OnlyActorMoves(st, e, call);
        OthersKeepFitting(st, e, call);
      }
    }
    forall sid, k | sid in next.sessions && k in next.sessions[sid].connections && !HandingOver(next, sid, k)
      ensures next.sessions[sid].connections[k].videoTrackRx.Some? <==> next.sessions[sid].connections[k].iceCandidatesRx.Some?
    {
      ReceiversStep(st, e, sid, k);
    }
  }

  lemma InitInv()
    ensures Inv(INIT)
  {
  }

  lemma {:induction false} RunInv(r: Run, i: nat)
    requires IsRun(r) && i < |r.states|
    ensures Inv(r.states[i])
  {
    if i == 0 {
      InitInv();
    } else {
      RunInv(r, i - 1);
      assert StepAt(r, i - 1);
      StepKeepsInv(r.states[i - 1], r.events[i - 1]);
    }
  }
}
