/**
 The whole server as a transition system: the session map, the requests in flight, and the
 metrics task. Every step is atomic; a request that holds guards across an await, or reads
 and writes in several operations, takes several steps.

 Guards. A request holds a guard on the entry of its session: shared while it creates a
 connection or hands over an observer, exclusive while it takes statistics (`call_session!`
 uses `get_mut`). The metrics task holds a shared guard on the session it visits. An
 observer request also holds an exclusive guard on its connection. Which guards are held
 is read off the requests in flight.
 */
module Server {
  import opened Wrappers
  import opened Counts
  import opened PeerConnections
  import opened Sessions
  import opened PoolProtocol
  import WebRtcPools

  datatype Request =
    | Scanning(sid: string, peerId: string, name: string, scan: Scan)
    | Counted(sid: string, peerId: string, name: string, poolId: nat)
    | Built(sid: string, connection: Connection)
    | Observing(sid: string, peerId: string)
    | ObservingIce(sid: string, peerId: string, videoTrackRx: Receiver)
    | Tallying(sid: string, total: nat, todo: set<string>, tally: Tally)

  datatype Metrics =
    | Waiting
    | InPass(due: set<string>, done: set<string>)
    | Visiting(due: set<string>, done: set<string>, sid: string, poll: bool, peersDue: set<string>, peersDone: set<string>)
    | Crashed

  datatype State = State(sessions: map<string, SessionView>, requests: map<nat, Request>, elapsed: nat, metrics: Metrics)

  const INIT := State(map[], map[], 1, Waiting)

  datatype Event =
    | CreateSession(sid: string, name: string, pollingStateS: nat, factoryCount: nat)
    | StartSession(sid: string, now: int)
    | StopSession(sid: string, now: int)
    | StatsBegin(call: nat, sid: string)
    | StatsCount(call: nat, peerId: string)
    | StatsEnd(call: nat, now: int)
    | CreateBegin(call: nat, sid: string, peerId: string, name: string, order: seq<nat>)
    | CreateLoadBest(call: nat)
    | CreateLoadNext(call: nat)
    | CreateIncrement(call: nat)
    | CreateBuild(call: nat, built: bool, channel: nat)
    | CreateInsert(call: nat)
    | ObserveBegin(call: nat, sid: string, peerId: string)
    | ObserveVideo(call: nat)
    | ObserveIce(call: nat)
    | PassBegin
    | VisitBegin(sid: string)
    | ExportOne(peerId: string, report: Result<Stats, ServerError>)
    | VisitEnd
    | PassEnd

  // ---- guards ----

  predicate Visits(m: Metrics, sid: string) { m.Visiting? && m.sid == sid }

  /** Nobody holds a guard on the session, so an exclusive one can be had. */
  ghost predicate Quiet(st: State, sid: string) {
    && (forall call :: call in st.requests ==> st.requests[call].sid != sid)
    && !Visits(st.metrics, sid)
  }

  /** Nobody holds the exclusive guard on the session, so a shared one can be had. */
  ghost predicate Shareable(st: State, sid: string) {
    forall call :: call in st.requests && st.requests[call].sid == sid ==> !st.requests[call].Tallying?
  }

  predicate HoldsPeer(q: Request, sid: string, peerId: string) {
    (q.Observing? || q.ObservingIce?) && q.sid == sid && q.peerId == peerId
  }

  /** Nobody holds a guard on the connection. */
  ghost predicate PeerFree(st: State, sid: string, peerId: string) {
    forall call :: call in st.requests ==> !HoldsPeer(st.requests[call], sid, peerId)
  }

  // ---- steps ----

  /** Request `call` is in flight on a session that exists. */
  predicate InFlight(st: State, call: nat) {
    call in st.requests && st.requests[call].sid in st.sessions
  }

  /** The session a request in flight works on. */
  function Own(st: State, call: nat): SessionView
    requires InFlight(st, call)
  {
    st.sessions[st.requests[call].sid]
  }

  predicate ScanReady(st: State, call: nat) {
    && InFlight(st, call) && st.requests[call].Scanning?
    && ScanOk(Own(st, call).counts, st.requests[call].scan)
  }

  predicate ObserverReady(st: State, call: nat) {
    && InFlight(st, call) && (st.requests[call].Observing? || st.requests[call].ObservingIce?)
    && st.requests[call].peerId in Own(st, call).connections
  }

  ghost predicate Enabled(st: State, e: Event) {
    match e
    case CreateSession(sid, _, _, _) => Quiet(st, sid)
    case StartSession(sid, _) => Quiet(st, sid)
    case StopSession(sid, _) => Quiet(st, sid)
    case StatsBegin(call, sid) => call !in st.requests && Quiet(st, sid)
    case StatsCount(call, peerId) =>
      && InFlight(st, call) && st.requests[call].Tallying?
      && peerId in st.requests[call].todo && peerId in Own(st, call).connections
    case StatsEnd(call, _) => InFlight(st, call) && st.requests[call].Tallying? && st.requests[call].todo == {}
    case CreateBegin(call, sid, _, _, order) =>
      && call !in st.requests && Shareable(st, sid)
      && (sid in st.sessions ==> IsOrder(order, |st.sessions[sid].counts|))
    case CreateLoadBest(call) =>
      ScanReady(st, call) && !st.requests[call].scan.Finished() && st.requests[call].scan.loaded.None?
    case CreateLoadNext(call) =>
      ScanReady(st, call) && !st.requests[call].scan.Finished() && st.requests[call].scan.loaded.Some?
    case CreateIncrement(call) => ScanReady(st, call) && st.requests[call].scan.Finished()
    case CreateBuild(call, _, _) => InFlight(st, call) && st.requests[call].Counted?
    case CreateInsert(call) =>
      && InFlight(st, call) && st.requests[call].Built?
      && PeerFree(st, st.requests[call].sid, st.requests[call].connection.id)
    case ObserveBegin(call, sid, peerId) =>
      call !in st.requests && Shareable(st, sid) && PeerFree(st, sid, peerId)
    case ObserveVideo(call) => ObserverReady(st, call) && st.requests[call].Observing?
    case ObserveIce(call) => ObserverReady(st, call) && st.requests[call].ObservingIce?
    case PassBegin => st.metrics.Waiting?
    case VisitBegin(sid) =>
      st.metrics.InPass? && sid in st.sessions && sid !in st.metrics.done && Shareable(st, sid)
    case ExportOne(peerId, _) =>
      && st.metrics.Visiting? && st.metrics.sid in st.sessions
      && peerId in st.sessions[st.metrics.sid].connections && peerId !in st.metrics.peersDone
      && PeerFree(st, st.metrics.sid, peerId)
    case VisitEnd => st.metrics.Visiting? && st.metrics.peersDue <= st.metrics.peersDone
    case PassEnd => st.metrics.InPass? && st.metrics.due <= st.metrics.done
  }

  function WithPeer(v: SessionView, peerId: string, c: Connection): SessionView {
    v.(connections := v.connections[peerId := c])
  }

  function TrackTaken(c: Connection): Connection { c.(videoTrackRx := None) }

  function IceTaken(c: Connection): Connection { c.(iceCandidatesRx := None) }

  /** What a step makes of the sessions. A request for an unknown one changes nothing. */
  ghost function SessionsAfter(st: State, e: Event): map<string, SessionView>
    requires Enabled(st, e)
  {
    match e
    case CreateSession(sid, name, period, factoryCount) => st.sessions[sid := NewSession(sid, name, period, factoryCount)]
    case StartSession(sid, now) =>
      if sid in st.sessions then st.sessions[sid := AfterStart(st.sessions[sid], now)] else st.sessions
    case StopSession(sid, now) =>
      if sid in st.sessions then st.sessions[sid := AfterStop(st.sessions[sid], now)] else st.sessions
    case CreateIncrement(call) =>
      var q, v := st.requests[call], Own(st, call);
      st.sessions[q.sid := v.(counts := Bump(v.counts, q.scan.best))]
    case CreateInsert(call) =>
      var q := st.requests[call];
      st.sessions[q.sid := AddConnection(Own(st, call), q.connection)]
    case ObserveVideo(call) =>
      var q, v := st.requests[call], Own(st, call);
      st.sessions[q.sid := WithPeer(v, q.peerId, TrackTaken(v.connections[q.peerId]))]
    case ObserveIce(call) =>
      var q, v := st.requests[call], Own(st, call);
      st.sessions[q.sid := WithPeer(v, q.peerId, IceTaken(v.connections[q.peerId]))]
    case ExportOne(peerId, report) =>
      var m := st.metrics;
      var v := st.sessions[m.sid];
      st.sessions[m.sid := WithPeer(v, peerId, Exported(v.connections[peerId], Export(report, m.poll)))]
    case _ => st.sessions
  }

  /** What a step makes of the requests in flight. A request that fails or is done leaves them. */
  ghost function RequestsAfter(st: State, e: Event): map<nat, Request>
    requires Enabled(st, e)
  {
    match e
    case StatsBegin(call, sid) =>
      if sid !in st.sessions then st.requests
      else
        var connections := st.sessions[sid].connections;
        st.requests[call := Tallying(sid, |connections|, connections.Keys, Tally(0, 0, 0, 0))]
    case StatsCount(call, peerId) =>
      var q := st.requests[call];
      st.requests[call := q.(todo := q.todo - {peerId}, tally := CountOne(q.tally, Own(st, call).connections[peerId]))]
    case StatsEnd(call, _) => st.requests - {call}
    case CreateBegin(call, sid, peerId, name, order) =>
      if sid !in st.sessions || order == [] then st.requests
      else st.requests[call := Scanning(sid, peerId, name, Scan(order, 1, order[0], None))]
    case CreateLoadBest(call) =>
      var q := st.requests[call];
      st.requests[call := q.(scan := q.scan.(loaded := Some(Own(st, call).counts[q.scan.best])))]
    case CreateLoadNext(call) =>
      var q := st.requests[call];
      st.requests[call := q.(scan := Compare(Own(st, call).counts, q.scan))]
    case CreateIncrement(call) =>
      var q := st.requests[call];
      st.requests[call := Counted(q.sid, q.peerId, q.name, q.scan.best)]
    case CreateBuild(call, built, channel) =>
      var q := st.requests[call];
      if built then st.requests[call := Built(q.sid, NewConnection(q.peerId, q.name, q.poolId, channel))]
      else st.requests - {call}
    case CreateInsert(call) => st.requests - {call}
    case ObserveBegin(call, sid, peerId) =>
      if sid !in st.sessions || peerId !in st.sessions[sid].connections then st.requests
      else st.requests[call := Observing(sid, peerId)]
    case ObserveVideo(call) =>
      var q := st.requests[call];
      var c := Own(st, call).connections[q.peerId];
      if c.videoTrackRx.None? then st.requests - {call}
      else st.requests[call := ObservingIce(q.sid, q.peerId, c.videoTrackRx.value)]
    case ObserveIce(call) => st.requests - {call}
    case _ => st.requests
  }

  /** What a step makes of the metrics task. */
  ghost function MetricsAfter(st: State, e: Event): Metrics
    requires Enabled(st, e)
  {
    var m := st.metrics;
    match e
    case PassBegin => InPass(st.sessions.Keys, {})
    case VisitBegin(sid) =>
      var v := st.sessions[sid];
      // The remainder by a zero period panics, which ends the task and releases its guards.
      if v.pollingStateS == 0 then Crashed
      else Visiting(m.due, m.done + {sid}, sid, st.elapsed % v.pollingStateS == 0, v.connections.Keys, {})
    case ExportOne(peerId, _) => m.(peersDone := m.peersDone + {peerId})
    case VisitEnd => InPass(m.due, m.done)
    case PassEnd => Waiting
    case _ => m
  }

  /** What a step makes of the metrics task's counter. */
  ghost function ElapsedAfter(st: State, e: Event): nat
    requires Enabled(st, e)
  {
    if !e.PassEnd? then st.elapsed else if |st.sessions| != 0 then st.elapsed + 1 else 1
  }

  ghost function Apply(st: State, e: Event): State
    requires Enabled(st, e)
  {
    State(SessionsAfter(st, e), RequestsAfter(st, e), ElapsedAfter(st, e), MetricsAfter(st, e))
  }

  /** The states of a run from start-up and the events between them. */
  datatype Run = Run(states: seq<State>, events: seq<Event>)

  ghost predicate IsRun(r: Run) {
    && |r.states| == |r.events| + 1
    && r.states[0] == INIT
    && (forall i :: 0 <= i < |r.events| ==> StepAt(r, i))
  }

  /** Event i takes the run from state i to the next. */
  ghost predicate StepAt(r: Run, i: nat)
    requires i < |r.events| && i + 1 < |r.states|
  {
    Follows(r.states[i], r.events[i], r.states[i + 1])
  }

  ghost predicate Follows(st: State, e: Event, next: State) {
    Enabled(st, e) && next == Apply(st, e)
  }
}
