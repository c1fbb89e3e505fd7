/** Each handler, run undisturbed, is one of the behaviours of the concurrent server. */
module ServerSequential {
  import opened Wrappers
  import opened PeerConnections
  import opened Sessions
  import opened PoolProtocol
  import opened Server
  import opened ServerInvariants
  import opened ServerRuns
  import Handlers
  import WebRtcPools

  /** A stretch of a run. */
  ghost predicate IsPath(states: seq<State>, events: seq<Event>) {
    && |states| == |events| + 1
    && (forall i :: 0 <= i < |events| ==> Follows(states[i], events[i], states[i + 1]))
  }

  ghost predicate Joins(states: seq<State>, events: seq<Event>, from: State, end: State) {
    IsPath(states, events) && states[0] == from && states[|events|] == end
  }

  lemma Extend(states: seq<State>, events: seq<Event>, from: State, mid: State, e: Event, end: State)
    returns (states': seq<State>, events': seq<Event>)
    requires Joins(states, events, from, mid) && Follows(mid, e, end)
    ensures Joins(states', events', from, end)
  {
    states', events' := states + [end], events + [e];
  }

  lemma Append(states: seq<State>, events: seq<Event>, states': seq<State>, events': seq<Event>, from: State, mid: State, end: State)
    returns (states'': seq<State>, events'': seq<Event>)
    requires Joins(states, events, from, mid) && Joins(states', events', mid, end)
    ensures Joins(states'', events'', from, end)
  {
    states'', events'' := states + states'[1..], events + events';
    forall i | 0 <= i < |events''| ensures Follows(states''[i], events''[i], states''[i + 1]) {
      if i >= |events| {
        assert Follows(states'[i - |events|], events'[i - |events|], states'[i - |events| + 1]);
      }
    }
  }

  lemma ExtendTwice(states: seq<State>, events: seq<Event>, from: State, mid: State, e: Event, next: State, f: Event, end: State)
    returns (states': seq<State>, events': seq<Event>)
    requires Joins(states, events, from, mid) && Follows(mid, e, next) && Follows(next, f, end)
    ensures Joins(states', events', from, end)
  {
    var states1, events1 := Extend(states, events, from, mid, e, next);
    states', events' := Extend(states1, events1, from, next, f, end);
  }

  // ---- create, start and stop a session ----

  /** On a session nobody works on, these requests are served at once and do what the class's methods do. */
  lemma SoloSessionRequests(st: State, sid: string, name: string, pollingStateS: nat, factoryCount: nat, now: int)
    requires Quiet(st, sid)
    ensures Follows(st, CreateSession(sid, name, pollingStateS, factoryCount),
                    PutSession(st, NewSession(sid, name, pollingStateS, factoryCount), sid))
    ensures Follows(st, StartSession(sid, now),
                    if sid in st.sessions then PutSession(st, AfterStart(st.sessions[sid], now), sid) else st)
    ensures Follows(st, StopSession(sid, now),
                    if sid in st.sessions then PutSession(st, AfterStop(st.sessions[sid], now), sid) else st)
  {
    assert PutSession(st, NewSession(sid, name, pollingStateS, factoryCount), sid)
        == Server.Apply(st, CreateSession(sid, name, pollingStateS, factoryCount));
  }

  // ---- create a connection ----

  /** b is the first minimum among the first j factories of the order. */
  ghost predicate FirstMinOf(c: seq<nat>, order: seq<nat>, j: nat, b: nat)
    requires IsOrder(order, |c|) && j <= |order|
  {
    && b < |c|
    && (forall k :: 0 <= k < j ==> c[b] <= c[order[k]])
    && exists at :: 0 <= at < j && order[at] == b && forall k :: 0 <= k < at ==> c[b] < c[order[k]]
  }

  lemma FirstMinStep(c: seq<nat>, order: seq<nat>, j: nat, b: nat)
    requires IsOrder(order, |c|) && j < |order| && FirstMinOf(c, order, j, b)
    ensures FirstMinOf(c, order, j + 1, if c[b] > c[order[j]] then order[j] else b)
  {
  }

  lemma FirstMinOfAll(c: seq<nat>, order: seq<nat>, b: nat)
    requires IsOrder(order, |c|) && FirstMinOf(c, order, |order|, b)
    ensures WebRtcPools.IsFirstMin(c, order, b)
  {
    forall j | 0 <= j < |c| ensures c[b] <= c[j] {
      assert j in order;
    }
  }

  function PutRequest(st: State, call: nat, q: Request): State { st.(requests := st.requests[call := q]) }

  function PutSession(st: State, v: SessionView, sid: string): State { st.(sessions := st.sessions[sid := v]) }

  /** The server with one call scanning, its candidate compared against the first j factories. */
  function Midway(st: State, call: nat, sid: string, peerId: string, name: string, order: seq<nat>, j: nat, b: nat): State {
    PutRequest(st, call, Scanning(sid, peerId, name, Scan(order, j, b, None)))
  }

  lemma SoloCompare(st: State, call: nat, sid: string, peerId: string, name: string, order: seq<nat>, j: nat, b: nat)
    returns (b': nat, loaded: State)
    requires sid in st.sessions && IsOrder(order, |st.sessions[sid].counts|)
    requires 1 <= j < |order| && FirstMinOf(st.sessions[sid].counts, order, j, b)
    ensures FirstMinOf(st.sessions[sid].counts, order, j + 1, b')
    ensures Follows(Midway(st, call, sid, peerId, name, order, j, b), CreateLoadBest(call), loaded)
    ensures Follows(loaded, CreateLoadNext(call), Midway(st, call, sid, peerId, name, order, j + 1, b'))
  {
    var c := st.sessions[sid].counts;
    b' := if c[b] > c[order[j]] then order[j] else b;
    FirstMinStep(c, order, j, b);
    assert b in order[..j];
    loaded := PutRequest(st, call, Scanning(sid, peerId, name, Scan(order, j, b, Some(c[b]))));
    assert Server.Apply(Midway(st, call, sid, peerId, name, order, j, b), CreateLoadBest(call)) == loaded;
  }

  lemma {:induction false} SoloScan(st: State, call: nat, sid: string, peerId: string, name: string, order: seq<nat>, j: nat)
    returns (b: nat, states: seq<State>, events: seq<Event>)
    requires sid in st.sessions && IsOrder(order, |st.sessions[sid].counts|) && order != [] && call !in st.requests
    requires Shareable(st, sid) && 1 <= j <= |order|
    ensures FirstMinOf(st.sessions[sid].counts, order, j, b)
    ensures Joins(states, events, st, Midway(st, call, sid, peerId, name, order, j, b))
    decreases j
  {
    if j == 1 {
      b := order[0];
      var begun := Midway(st, call, sid, peerId, name, order, 1, b);
      states, events := [st, begun], [CreateBegin(call, sid, peerId, name, order)];
      assert Follows(st, events[0], begun);
    } else {
      var b0, states0, events0 := SoloScan(st, call, sid, peerId, name, order, j - 1);
      var loaded;
      b, loaded := SoloCompare(st, call, sid, peerId, name, order, j - 1, b0);
      var before, after := Midway(st, call, sid, peerId, name, order, j - 1, b0), Midway(st, call, sid, peerId, name, order, j, b);
      states, events := ExtendTwice(states0, events0, st, before, CreateLoadBest(call), loaded, CreateLoadNext(call), after);
    }
  }

  /** The server once the call has counted factory b. */
  function Booked(st: State, sid: string, b: nat): State
    requires sid in st.sessions && b < |st.sessions[sid].counts|
  {
    PutSession(st, Handlers.AfterCreate(st.sessions[sid], b, None), sid)
  }

  lemma SoloIncrement(st: State, call: nat, sid: string, peerId: string, name: string, order: seq<nat>, b: nat)
    requires sid in st.sessions && IsOrder(order, |st.sessions[sid].counts|) && order != [] && call !in st.requests
    requires FirstMinOf(st.sessions[sid].counts, order, |order|, b)
    ensures Follows(Midway(st, call, sid, peerId, name, order, |order|, b), CreateIncrement(call),
                    PutRequest(Booked(st, sid, b), call, Counted(sid, peerId, name, b)))
  {
    assert order[..|order|] == order;
    assert Server.Apply(Midway(st, call, sid, peerId, name, order, |order|, b), CreateIncrement(call))
        == PutRequest(Booked(st, sid, b), call, Counted(sid, peerId, name, b));
  }

  lemma SoloBuild(st: State, call: nat, sid: string, peerId: string, name: string, b: nat, channel: nat)
    requires sid in st.sessions && call !in st.requests
    ensures Follows(PutRequest(st, call, Counted(sid, peerId, name, b)), CreateBuild(call, true, channel),
                    PutRequest(st, call, Built(sid, NewConnection(peerId, name, b, channel))))
  {
  }

  lemma SoloBuildFails(st: State, call: nat, sid: string, peerId: string, name: string, b: nat, channel: nat)
    requires sid in st.sessions && call !in st.requests
    ensures Follows(PutRequest(st, call, Counted(sid, peerId, name, b)), CreateBuild(call, false, channel), st)
  {
  }

  lemma SoloInsert(st: State, call: nat, sid: string, c: Connection)
    requires sid in st.sessions && call !in st.requests && PeerFree(st, sid, c.id)
    ensures Follows(PutRequest(st, call, Built(sid, c)), CreateInsert(call), PutSession(st, AddConnection(st.sessions[sid], c), sid))
  {
  }

  /** Taken on its own, create_peer_connection does in the concurrent model exactly what the
      sequential handler does, whether or not the connection can be built: it counts and uses
      the first least loaded factory in its order. */
  lemma SoloCreate(st: State, call: nat, sid: string, peerId: string, name: string, order: seq<nat>, built: bool, channel: nat)
    returns (picked: nat, states: seq<State>, events: seq<Event>)
    requires sid in st.sessions && IsOrder(order, |st.sessions[sid].counts|) && order != [] && call !in st.requests
    requires Shareable(st, sid) && PeerFree(st, sid, peerId)
    ensures WebRtcPools.IsFirstMin(st.sessions[sid].counts, order, picked)
    ensures var c := if built then Some(NewConnection(peerId, name, picked, channel)) else None;
            Joins(states, events, st, PutSession(st, Handlers.AfterCreate(st.sessions[sid], picked, c), sid))
  {
    picked, states, events := SoloScan(st, call, sid, peerId, name, order, |order|);
    FirstMinOfAll(st.sessions[sid].counts, order, picked);
    var scanned := Midway(st, call, sid, peerId, name, order, |order|, picked);
    var booked, c := Booked(st, sid, picked), NewConnection(peerId, name, picked, channel);
    var counted := PutRequest(booked, call, Counted(sid, peerId, name, picked));
    SoloIncrement(st, call, sid, peerId, name, order, picked);
    states, events := Extend(states, events, st, scanned, CreateIncrement(call), counted);
    if built {
      SoloBuild(booked, call, sid, peerId, name, picked, channel);
      SoloInsert(booked, call, sid, c);
      states, events := ExtendTwice(states, events, st, counted, CreateBuild(call, true, channel), PutRequest(booked, call, Built(sid, c)),
                                    CreateInsert(call), PutSession(booked, AddConnection(booked.sessions[sid], c), sid));
    } else {
      SoloBuildFails(booked, call, sid, peerId, name, picked, channel);
      states, events := Extend(states, events, st, counted, CreateBuild(call, false, channel), booked);
    }
  }

  // ---- observe ----

  function PutPeer(st: State, sid: string, peerId: string, c: Connection): State
    requires sid in st.sessions
  {
    PutSession(st, WithPeer(st.sessions[sid], peerId, c), sid)
  }

  lemma SoloObserveBegin(st: State, call: nat, sid: string, peerId: string)
    requires sid in st.sessions && peerId in st.sessions[sid].connections && call !in st.requests
    requires Shareable(st, sid) && PeerFree(st, sid, peerId)
    ensures Follows(st, ObserveBegin(call, sid, peerId), PutRequest(st, call, Observing(sid, peerId)))
  {
  }

  lemma SoloTakeTrack(st: State, call: nat, sid: string, peerId: string)
    requires sid in st.sessions && peerId in st.sessions[sid].connections && call !in st.requests
    ensures var c := st.sessions[sid].connections[peerId];
            var taken := PutPeer(st, sid, peerId, TrackTaken(c));
            Follows(PutRequest(st, call, Observing(sid, peerId)), ObserveVideo(call),
                    if c.videoTrackRx.None? then taken else PutRequest(taken, call, ObservingIce(sid, peerId, c.videoTrackRx.value)))
  {
  }

  lemma SoloTakeIce(st: State, call: nat, sid: string, peerId: string, rx: Receiver)
    requires sid in st.sessions && peerId in st.sessions[sid].connections && call !in st.requests
    ensures Follows(PutRequest(st, call, ObservingIce(sid, peerId, rx)), ObserveIce(call),
                    PutPeer(st, sid, peerId, IceTaken(st.sessions[sid].connections[peerId])))
  {
  }

  /** Taken on its own, an observer request leaves the connection exactly as the sequential handler
      does: untouched if the video receiver is gone, and without either receiver otherwise. */
  lemma SoloObserve(st: State, call: nat, sid: string, peerId: string) returns (states: seq<State>, events: seq<Event>)
    requires sid in st.sessions && peerId in st.sessions[sid].connections && call !in st.requests
    requires Shareable(st, sid) && PeerFree(st, sid, peerId)
    ensures var c := st.sessions[sid].connections[peerId];
            Joins(states, events, st,
                  if c.videoTrackRx.None? then st else PutPeer(st, sid, peerId, Handlers.AfterObserve(c)))
  {
    var c := st.sessions[sid].connections[peerId];
    var taken := PutPeer(st, sid, peerId, TrackTaken(c));
    var begun := PutRequest(st, call, Observing(sid, peerId));
    SoloObserveBegin(st, call, sid, peerId);
    SoloTakeTrack(st, call, sid, peerId);
    states, events := [st, begun], [ObserveBegin(call, sid, peerId)];
    if c.videoTrackRx.None? {
      NothingTaken(st, sid, peerId);
      states, events := Extend(states, events, st, begun, ObserveVideo(call), st);
    } else {
      var rx := c.videoTrackRx.value;
      SoloTakeIce(taken, call, sid, peerId, rx);
      TakenTwice(st, sid, peerId, TrackTaken(c), Handlers.AfterObserve(c));
      states, events := ExtendTwice(states, events, st, begun, ObserveVideo(call), PutRequest(taken, call, ObservingIce(sid, peerId, rx)),
                                    ObserveIce(call), PutPeer(st, sid, peerId, Handlers.AfterObserve(c)));
    }
  }

  lemma NothingTaken(st: State, sid: string, peerId: string)
    requires sid in st.sessions && peerId in st.sessions[sid].connections
    requires st.sessions[sid].connections[peerId].videoTrackRx.None?
    ensures PutPeer(st, sid, peerId, TrackTaken(st.sessions[sid].connections[peerId])) == st
  {
    var v := st.sessions[sid];
    assert v.connections[peerId := v.connections[peerId]] == v.connections;
    assert st.sessions[sid := v] == st.sessions;
  }

  lemma TakenTwice(st: State, sid: string, peerId: string, c: Connection, d: Connection)
    requires sid in st.sessions
    ensures PutPeer(PutPeer(st, sid, peerId, c), sid, peerId, d) == PutPeer(st, sid, peerId, d)
  {
    var v := st.sessions[sid];
    assert v.connections[peerId := c][peerId := d] == v.connections[peerId := d];
    assert st.sessions[sid := WithPeer(v, peerId, c)][sid := WithPeer(v, peerId, d)] == st.sessions[sid := WithPeer(v, peerId, d)];
  }

  // ---- statistics ----

  function Elements(s: seq<string>): set<string> { set k | k in s }

  /** A statistics request that has counted the connections visited. */
  function Counting(sid: string, connections: map<string, Connection>, visited: seq<string>): Request {
    var todo := connections.Keys - Elements(visited);
    Tallying(sid, |connections|, todo, TallyOf(CountedSoFar(connections, todo)))
  }

  lemma CountingBegins(sid: string, connections: map<string, Connection>)
    ensures Counting(sid, connections, []) == Tallying(sid, |connections|, connections.Keys, Tally(0, 0, 0, 0))
  {
    assert connections.Keys - Elements([]) == connections.Keys;
    NothingCounted(connections);
  }

  lemma CountingGoesOn(sid: string, connections: map<string, Connection>, order: seq<string>, j: nat)
    requires Enumerates(order, connections.Keys) && j < |order|
    ensures var k, q := order[j], Counting(sid, connections, order[..j]);
            && k in connections && k in q.todo
            && Counting(sid, connections, order[..j + 1]) == q.(todo := q.todo - {k}, tally := CountOne(q.tally, connections[k]))
  {
    var k := order[j];
    var todo := connections.Keys - Elements(order[..j]);
    assert k in order && k !in order[..j];
    assert order[..j + 1] == order[..j] + [k];
    assert todo - {k} == connections.Keys - Elements(order[..j + 1]);
    CountedOne(connections, todo, k);
  }

  lemma CountingEnds(sid: string, connections: map<string, Connection>, order: seq<string>)
    requires Enumerates(order, connections.Keys)
    ensures Counting(sid, connections, order) == Tallying(sid, |connections|, {}, TallyOf(connections))
  {
    assert connections.Keys - Elements(order) == {};
    assert CountedSoFar(connections, {}) == connections;
  }

  lemma SoloCount(st: State, call: nat, q: Request, k: string)
    requires call !in st.requests && q.Tallying? && q.sid in st.sessions
    requires k in q.todo && k in st.sessions[q.sid].connections
    ensures Follows(PutRequest(st, call, q), StatsCount(call, k),
                    PutRequest(st, call, q.(todo := q.todo - {k}, tally := CountOne(q.tally, st.sessions[q.sid].connections[k]))))
  {
  }

  /** The server with one statistics request that has counted the first j connections. */
  function MidCount(st: State, call: nat, sid: string, order: seq<string>, j: nat): State
    requires sid in st.sessions && j <= |order|
  {
    PutRequest(st, call, Counting(sid, st.sessions[sid].connections, order[..j]))
  }

  lemma SoloCountBegin(st: State, call: nat, sid: string, order: seq<string>) returns (states: seq<State>, events: seq<Event>)
    requires sid in st.sessions && Quiet(st, sid) && call !in st.requests
    ensures Joins(states, events, st, MidCount(st, call, sid, order, 0))
  {
    CountingBegins(sid, st.sessions[sid].connections);
    states, events := [st, MidCount(st, call, sid, order, 0)], [StatsBegin(call, sid)];
    assert Follows(st, StatsBegin(call, sid), states[1]);
  }

  lemma SoloCountNext(st: State, call: nat, sid: string, order: seq<string>, j: nat)
    requires call !in st.requests && sid in st.sessions
    requires Enumerates(order, st.sessions[sid].connections.Keys) && j < |order|
    ensures Follows(MidCount(st, call, sid, order, j), StatsCount(call, order[j]), MidCount(st, call, sid, order, j + 1))
  {
    CountingGoesOn(sid, st.sessions[sid].connections, order, j);
    SoloCount(st, call, Counting(sid, st.sessions[sid].connections, order[..j]), order[j]);
  }

  lemma SoloCountExtends(st: State, call: nat, sid: string, order: seq<string>, j: nat, states: seq<State>, events: seq<Event>)
    returns (states': seq<State>, events': seq<Event>)
    requires call !in st.requests && sid in st.sessions
    requires Enumerates(order, st.sessions[sid].connections.Keys) && j < |order|
    requires Joins(states, events, st, MidCount(st, call, sid, order, j))
    ensures Joins(states', events', st, MidCount(st, call, sid, order, j + 1))
  {
    SoloCountNext(st, call, sid, order, j);
    states', events' := Extend(states, events, st, MidCount(st, call, sid, order, j), StatsCount(call, order[j]),
                               MidCount(st, call, sid, order, j + 1));
  }

  lemma {:induction false} SoloCounts(st: State, call: nat, sid: string, order: seq<string>, j: nat)
    returns (states: seq<State>, events: seq<Event>)
    requires sid in st.sessions && Quiet(st, sid) && call !in st.requests
    requires Enumerates(order, st.sessions[sid].connections.Keys) && j <= |order|
    ensures Joins(states, events, st, MidCount(st, call, sid, order, j))
    decreases j
  {
    if j == 0 {
      states, events := SoloCountBegin(st, call, sid, order);
    } else {
      states, events := SoloCounts(st, call, sid, order, j - 1);
      states, events := SoloCountExtends(st, call, sid, order, j - 1, states, events);
    }
  }

  lemma SoloReply(st: State, call: nat, q: Request, now: int)
    requires call !in st.requests && q.Tallying? && q.todo == {} && q.sid in st.sessions
    ensures Follows(PutRequest(st, call, q), StatsEnd(call, now), st)
  {
    assert PutRequest(st, call, q).requests - {call} == st.requests;
  }

  /** Taken on its own, a statistics request changes nothing and replies with the snapshot that
      the sequential method takes, in whatever order it counts. */
  lemma SoloStats(st: State, call: nat, sid: string, order: seq<string>, now: int)
    returns (states: seq<State>, events: seq<Event>, q: Request)
    requires sid in st.sessions && Quiet(st, sid) && call !in st.requests
    requires Enumerates(order, st.sessions[sid].connections.Keys)
    ensures Joins(states, events, st, PutRequest(st, call, q))
    ensures Follows(PutRequest(st, call, q), StatsEnd(call, now), st)
    ensures q.Tallying? && StatsReply(st.sessions[sid], q, now) == Snapshot(st.sessions[sid], now)
  {
    var connections := st.sessions[sid].connections;
    q := Counting(sid, connections, order);
    states, events := SoloCounts(st, call, sid, order, |order|);
    assert order[..|order|] == order;
    CountingEnds(sid, connections, order);
    SoloReply(st, call, q, now);
  }
}
