/** The request handlers that change the session table, each run on its own. */
module Handlers {
  import opened Wrappers
  import opened Counts
  import opened PeerConnections
  import opened Sessions
  import opened Data
  import PoolProtocol
  import WebRtcPools

  /** A connection request that settled on factory `picked`: its count is taken, and the
      connection is stored if it could be built. */
  function AfterCreate(v: SessionView, picked: nat, built: Option<Connection>): SessionView
    requires picked < |v.counts|
  {
    var counted := v.(counts := Bump(v.counts, picked));
    match built case Some(c) => AddConnection(counted, c) case None => counted
  }

  /** Both receivers of a connection, taken in this order. */
  function AfterObserve(c: Connection): Connection { c.(videoTrackRx := None, iceCandidatesRx := None) }

  /** Fails, and stores nothing, if the video source, the encoder pool or any factory cannot be built. */
  method CreateSession(data: Data, id: string, name: string, pollingStateS: nat,
                       videoSource: bool, factoryCount: nat, encoderPool: bool, factoryBuilt: nat -> bool)
    returns (r: Result<(), ServerError>)
    requires data.Valid()
    modifies data
    ensures data.Valid()
    ensures r.Ok? <==> videoSource && encoderPool && forall f :: 0 <= f < WebRtcPools.AsU32(factoryCount) ==> factoryBuilt(f)
    ensures r.Err? ==> data.sessions == old(data.sessions)
    ensures r.Ok? ==> id in data.sessions && data.sessions == old(data.sessions)[id := data.sessions[id]]
    ensures r.Err? ==> r.error.WebRTCError?
    ensures r.Ok? ==> data.sessions[id].View() == NewSession(id, name, pollingStateS, factoryCount)
    ensures r.Ok? ==>
              var s := data.sessions[id];
              && s.id == id && s.name == name && s.pollingStateS == pollingStateS
              && s.state == Created && s.startTime == None && s.stopTime == None && s.peerConnections == map[]
              && (factoryCount < 0x1_0000_0000 ==> |s.View().counts| == factoryCount)
              && forall f :: 0 <= f < |s.View().counts| ==> s.View().counts[f] == 0
  {
    if !videoSource {
      return Err(WebRTCError("video source"));
    }
    var pool := WebRtcPools.WebRtcPool.New(factoryCount, encoderPool, factoryBuilt);
    if pool.Err? {
      return Err(pool.error);
    }
    var session := new Session(id, name, pollingStateS, pool.value);
    data.AddSession(session);
    return Ok(());
  }

  /** The part of create_peer_connection that runs under the shared guard on the session. */
  method CreateOn(session: Session, peerId: string, name: string, order: seq<nat>, built: bool, channel: nat)
    returns (r: Result<PeerConnectionManager, ServerError>, ghost picked: nat)
    requires session.Valid() && PoolProtocol.IsOrder(order, WebRtcPools.AsU32(session.webrtcPool.factoryCount))
    modifies session`peerConnections, session.webrtcPool`factoryList
    ensures session.Valid()
    ensures r.Ok? <==> order != [] && built
    ensures order != [] ==> WebRtcPools.IsFirstMin(old(session.View()).counts, order, picked)
    ensures r.Ok? ==> fresh(r.value) && session.peerConnections == old(session.peerConnections)[peerId := r.value]
    ensures r.Ok? ==> r.value.View() == NewConnection(peerId, name, picked, channel)
    ensures r.Err? ==> r.error.WebRTCError?
    ensures r.Err? ==> session.peerConnections == old(session.peerConnections)
    ensures session.View() ==
            if order == [] then old(session.View())
            else AfterCreate(old(session.View()), picked, if built then Some(r.value.View()) else None)
  {
    r, picked := session.webrtcPool.CreatePeerConnectionManager(order, built, peerId, name, channel);
    if r.Ok? {
      session.AddPeerConnection(r.value);
    }
  }

  method CreatePeerConnection(data: Data, sessionId: string, peerId: string, name: string,
                              order: seq<nat>, built: bool, channel: nat)
    returns (r: Result<PeerConnectionManager, ServerError>, ghost picked: nat)
    requires data.Valid()
    requires sessionId in data.sessions ==>
               PoolProtocol.IsOrder(order, WebRtcPools.AsU32(data.sessions[sessionId].webrtcPool.factoryCount))
    modifies if sessionId in data.sessions then {data.sessions[sessionId], data.sessions[sessionId].webrtcPool} else {}
    ensures data.Valid()
    ensures sessionId !in data.sessions ==> r == Err(InvalidSessionError(sessionId))
    ensures r.Ok? <==> sessionId in data.sessions && order != [] && built
    ensures sessionId in data.sessions && order != [] ==> WebRtcPools.IsFirstMin(old(data.sessions[sessionId].View()).counts, order, picked)
    ensures sessionId in data.sessions && r.Err? ==> r.error.WebRTCError?
    ensures r.Ok? ==> r.value.View() == NewConnection(peerId, name, picked, channel)
    ensures r.Ok? ==>
              && r.value.id == peerId && r.value.name == name && r.value.poolId == picked
              && r.value.connectionStateRx == Some(Receiver(ConnectionStates, channel))
              && r.value.iceCandidatesRx == Some(Receiver(IceCandidates, channel))
              && r.value.videoTrackRx == Some(Receiver(VideoTracks, channel))
    ensures sessionId in data.sessions ==>
              data.sessions[sessionId].View() ==
              if order == [] then old(data.sessions[sessionId].View())
              else AfterCreate(old(data.sessions[sessionId].View()), picked, if built then Some(r.value.View()) else None)
  {
    var session := data.GetSession(sessionId);
    if session.Err? {
      return Err(session.error), 0;
    }
    ghost var peers := session.value.peerConnections.Values;
    r, picked := CreateOn(session.value, peerId, name, order, built, channel);
    assert fresh(session.value.peerConnections.Values - peers);
    forall a, b | a in data.sessions && b in data.sessions && a != b ensures Apart(data.sessions[a], data.sessions[b]) {
      assert old(Apart(data.sessions[a], data.sessions[b]));
    }
  }

  method Observe(data: Data, sessionId: string, peerId: string) returns (r: Result<(Receiver, Receiver), ServerError>)
    requires data.Valid()
    modifies if sessionId in data.sessions && peerId in data.sessions[sessionId].peerConnections
             then {data.sessions[sessionId].peerConnections[peerId]} else {}
    ensures data.Valid()
    ensures sessionId !in data.sessions ==> r == Err(InvalidSessionError(sessionId))
    ensures sessionId in data.sessions && peerId !in data.sessions[sessionId].peerConnections ==> r == Err(NotFound)
    ensures sessionId in data.sessions && peerId in data.sessions[sessionId].peerConnections ==>
              var c := old(data.sessions[sessionId].peerConnections[peerId].View());
              var d := data.sessions[sessionId].peerConnections[peerId].View();
              if c.videoTrackRx.None? then r.Err? && r.error.InternalError? && d == c
              else
                && d == AfterObserve(c) && d.videoTrackRx == None && d.iceCandidatesRx == None
                && if c.iceCandidatesRx.None? then r.Err? && r.error.InternalError?
                   else r == Ok((c.videoTrackRx.value, c.iceCandidatesRx.value))
  {
    var session := data.GetSession(sessionId);
    if session.Err? {
      return Err(session.error);
    }
    if peerId !in session.value.peerConnections {
      return Err(NotFound);
    }
    var pc := session.value.peerConnections[peerId];
    var trackRx := pc.TakeVideoTrackRx();
    if trackRx.Err? {
      return Err(trackRx.error);
    }
    var iceRx := pc.TakeIceCandidatesRx();
    if iceRx.Err? {
      return Err(iceRx.error);
    }
    return Ok((trackRx.value, iceRx.value));
  }
}
