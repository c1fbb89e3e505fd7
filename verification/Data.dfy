/** The server's session table, and the metrics loop over it. */
module Data {
  import opened Wrappers
  import opened PeerConnections
  import opened Sessions
  import WebRtcPools

  type Reports = map<string, Result<Stats, ServerError>>

  /** Two sessions share neither their pool nor a connection. */
  ghost predicate Apart(s: Session, t: Session)
    reads s, t
  {
    s != t && s.webrtcPool != t.webrtcPool && s.peerConnections.Values !! t.peerConnections.Values
  }

  class Data {
    var sessions: map<string, Session>

    ghost function Pools(): set<WebRtcPools.WebRtcPool>
      reads this, sessions.Values
    {
      set s: Session | s in sessions.Values :: s.webrtcPool
    }

    ghost function Peers(): set<PeerConnectionManager>
      reads this, sessions.Values
    {
      set s: Session, pc: PeerConnectionManager | s in sessions.Values && pc in s.peerConnections.Values :: pc
    }

    /** Sessions are stored under their own ids and share no objects. */
    ghost predicate Valid()
      reads this, sessions.Values, Pools()
    {
      && (forall id :: id in sessions ==> sessions[id] in sessions.Values && sessions[id].id == id && sessions[id].Valid())
      && (forall a, b :: a in sessions && b in sessions && a != b ==> Apart(sessions[a], sessions[b]))
    }

    constructor ()
      ensures Valid() && sessions == map[]
    {
      sessions := map[];
    }

    /** Replaces any session that has the same id. */
    method AddSession(session: Session)
      requires Valid() && session.Valid()
      requires forall id :: id in sessions ==> Apart(sessions[id], session) && Apart(session, sessions[id])
      modifies this`sessions
      ensures Valid()
      ensures sessions == old(sessions)[session.id := session]
    {
      sessions := sessions[session.id := session];
      forall id | id in sessions ensures sessions[id] in sessions.Values && sessions[id].id == id && sessions[id].Valid() {
        assert sessions[id] == session || id in old(sessions);
      }
    }

    method GetSession(id: string) returns (r: Result<Session, ServerError>)
      requires Valid()
      ensures r == if id in sessions then Ok(sessions[id]) else Err(InvalidSessionError(id))
      ensures r.Ok? ==> r.value.id == id && r.value.Valid()
    {
      if id !in sessions {
        return Err(InvalidSessionError(id));
      }
      return Ok(sessions[id]);
    }
  }

  /** What a visit of the metrics loop at counter value `elapsed` makes of a session. */
  function Visit(v: SessionView, reports: Reports, elapsed: nat): SessionView
    requires v.pollingStateS > 0
  {
    ExportSession(v, reports, elapsed % v.pollingStateS == 0)
  }

  /** Sessions that are each well formed and share no objects, as those of one table are. */
  ghost predicate Table(sessions: seq<Session>)
    reads sessions, set s: Session | s in sessions :: s.webrtcPool
  {
    && (forall j :: 0 <= j < |sessions| ==> sessions[j].Valid())
    && (forall j, k :: 0 <= j < |sessions| && 0 <= k < |sessions| && j != k ==> Apart(sessions[j], sessions[k]))
  }

  /** These are the sessions of the table, each once, in this order. */
  ghost predicate Lists(data: Data, order: seq<string>, sessions: seq<Session>)
    reads data
  {
    && Enumerates(order, data.sessions.Keys) && |sessions| == |order|
    && (forall i :: 0 <= i < |order| ==> order[i] in data.sessions && sessions[i] == data.sessions[order[i]])
  }

  lemma TableOfData(data: Data, order: seq<string>, sessions: seq<Session>)
    requires data.Valid() && Lists(data, order, sessions)
    ensures Table(sessions)
    ensures forall s :: s in sessions ==> s in data.sessions.Values
    ensures |sessions| == 0 <==> |data.sessions| == 0
  {
    if sessions != [] {
      assert order[0] in data.sessions;
    }
  }

  /** A table whose sessions are still well formed and apart is still valid. */
  lemma DataOfTable(data: Data, order: seq<string>, sessions: seq<Session>)
    requires Lists(data, order, sessions) && Table(sessions)
    requires forall id :: id in data.sessions ==> data.sessions[id].id == id
    ensures data.Valid()
  {
    forall id | id in data.sessions ensures data.sessions[id].Valid() {
      assert id in order;
    }
    forall a, b | a in data.sessions && b in data.sessions && a != b ensures Apart(data.sessions[a], data.sessions[b]) {
      assert a in order && b in order;
    }
  }

  /** The iteration over the table, in any order. */
  function Iterate(data: Data, order: seq<string>): (sessions: seq<Session>)
    requires forall id :: id in order ==> id in data.sessions
    reads data
  {
    var table := data.sessions;
    seq(|order|, i requires 0 <= i < |order| && order[i] in table => table[order[i]])
  }

  /** What one export needs to know: the iteration order of the connections, and their reports. */
  datatype Input = Input(order: seq<string>, reports: Reports)

  ghost predicate Fits(s: Session, input: Input)
    reads s
  {
    Enumerates(input.order, s.peerConnections.Keys) && s.peerConnections.Keys <= input.reports.Keys
  }

  /** The background task that exports the statistics of every session once a second. */
  class MetricsTask {
    var elapsed: nat

    constructor ()
      ensures elapsed == 1
    {
      elapsed := 1;
    }

    /** Visits session i, which shares nothing with the others. */
    method VisitSession(sessions: seq<Session>, i: nat, input: Input)
      requires Table(sessions) && i < |sessions| && Fits(sessions[i], input) && sessions[i].pollingStateS > 0
      modifies sessions[i].peerConnections.Values
      ensures Table(sessions)
      ensures sessions[i].View() == Visit(old(sessions[i].View()), input.reports, elapsed)
      ensures forall j :: 0 <= j < |sessions| && j != i ==> sessions[j].View() == old(sessions[j].View())
    {
      forall j | 0 <= j < |sessions| && j != i
        ensures sessions[j].peerConnections.Values !! sessions[i].peerConnections.Values
      {
        assert Apart(sessions[j], sessions[i]);
      }
      var shouldPollState := elapsed % sessions[i].pollingStateS == 0;
      sessions[i].ExportPeerConnectionStats(input.order, input.reports, shouldPollState);
    }

    /** One turn of the loop, over the sessions in the order in which the table is iterated. A
        session with polling period 0 panics the task: the sessions before it have been
        exported, the others have not, and the counter stays. */
    method Pass(sessions: seq<Session>, inputs: seq<Input>) returns (alive: bool, ghost visited: nat)
      requires Table(sessions) && |inputs| == |sessions|
      requires forall i :: 0 <= i < |sessions| ==> Fits(sessions[i], inputs[i])
      modifies this`elapsed, set s: Session, pc: PeerConnectionManager | s in sessions && pc in s.peerConnections.Values :: pc
      ensures Table(sessions) && visited <= |sessions|
      ensures forall j :: 0 <= j < visited ==>
                && sessions[j].pollingStateS > 0
                && sessions[j].View() == Visit(old(sessions[j].View()), inputs[j].reports, old(elapsed))
      ensures forall j :: visited <= j < |sessions| ==> sessions[j].View() == old(sessions[j].View())
      ensures if alive then visited == |sessions| else visited < |sessions| && sessions[visited].pollingStateS == 0
      ensures elapsed == if !alive then old(elapsed) else if |sessions| != 0 then old(elapsed) + 1 else 1
    {
      for i := 0 to |sessions|
        invariant Table(sessions) && elapsed == old(elapsed)
        invariant forall j :: 0 <= j < i ==>
          && sessions[j].pollingStateS > 0
          && sessions[j].View() == Visit(old(sessions[j].View()), inputs[j].reports, elapsed)
        invariant forall j :: i <= j < |sessions| ==> sessions[j].View() == old(sessions[j].View())
      {
        if sessions[i].pollingStateS == 0 {
          return false, i;
        }
        VisitSession(sessions, i, inputs[i]);
      }
      elapsed := if |sessions| != 0 then elapsed + 1 else 1;
      return true, |sessions|;
    }

    /** The same turn over the session table itself. */
    method PassOver(data: Data, order: seq<string>, inputs: seq<Input>) returns (alive: bool, ghost visited: nat)
      requires data.Valid() && Enumerates(order, data.sessions.Keys) && |inputs| == |order|
      requires forall i :: 0 <= i < |order| ==> order[i] in data.sessions && Fits(data.sessions[order[i]], inputs[i])
      modifies this`elapsed, data.Peers()
      ensures data.Valid() && visited <= |order|
      ensures forall j :: 0 <= j < visited ==>
                && data.sessions[order[j]].pollingStateS > 0
                && data.sessions[order[j]].View() == Visit(old(data.sessions[order[j]].View()), inputs[j].reports, old(elapsed))
      ensures forall j :: visited <= j < |order| ==> data.sessions[order[j]].View() == old(data.sessions[order[j]].View())
      ensures if alive then visited == |order| else visited < |order| && data.sessions[order[visited]].pollingStateS == 0
      ensures elapsed == if !alive then old(elapsed) else if |data.sessions| != 0 then old(elapsed) + 1 else 1
    {
      var sessions := Iterate(data, order);
      TableOfData(data, order, sessions);
      alive, visited := Pass(sessions, inputs);
      assert data.Valid() by {
        DataOfTable(data, order, sessions);
      }
    }
  }
}
