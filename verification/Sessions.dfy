/** A session: its lifecycle, its connections, and the statistics snapshot taken of it. */
module Sessions {
  import opened Wrappers
  import opened Helpers
  import opened Counts
  import opened PeerConnections
  import WebRtcPools

  datatype SessionState = Created | Started | Stopped

  /** The value of a session, with its pool reduced to the load counts. */
  datatype SessionView = SessionView(
    id: string,
    name: string,
    pollingStateS: nat,
    state: SessionState,
    startTime: Option<int>,
    stopTime: Option<int>,
    counts: seq<nat>,
    connections: map<string, Connection>)

  function NewSession(id: string, name: string, pollingStateS: nat, factoryCount: nat): SessionView {
    SessionView(id, name, pollingStateS, Created, None, None, Zeros(WebRtcPools.AsU32(factoryCount)), map[])
  }

  // ---- lifecycle ----

  function StartReply(v: SessionView): Result<(), ServerError> {
    if v.state != Created then Err(InvalidStateError("Only a created session can be started")) else Ok(())
  }

  function AfterStart(v: SessionView, now: int): SessionView {
    if StartReply(v).Err? then v else v.(state := Started, startTime := Some(now))
  }

  function StopReply(v: SessionView): Result<(), ServerError> {
    if v.state != Started then Err(InvalidStateError("Only a started session can be stopped")) else Ok(())
  }

  function AfterStop(v: SessionView, now: int): SessionView {
    if StopReply(v).Err? then v else v.(state := Stopped, stopTime := Some(now))
  }

  function ElapsedTime(v: SessionView, now: int): Option<nat> {
    match v.state
    case Created => None
    case Started => Elapsed(v.startTime, Some(now))
    case Stopped => Elapsed(v.startTime, v.stopTime)
  }

  /** The elapsed time as reported to clients. */
  function ReportedElapsed(v: SessionView, now: int): nat {
    match ElapsedTime(v, now) case Some(s) => s case None => 0
  }

  // ---- the tally of connection states, in 32-bit counters ----

  const I32_MAX: int := 0x7fff_ffff

  /** The value of an i32 counter after x increments from 0, wrapping as release builds do. */
  function Wrap32(x: int): int {
    (x + I32_MAX + 1) % 0x1_0000_0000 - I32_MAX - 1
  }

  /** `+= 1` on an i32. */
  function AddOne(x: int): int {
    if x == I32_MAX then -I32_MAX - 1 else x + 1
  }

  datatype Tally = Tally(numSending: int, numNotSending: int, numReceiving: int, numNotReceiving: int)

  function Sending(connections: map<string, Connection>): set<string> {
    set k | k in connections && connections[k].videoSend.Active?
  }

  function Receiving(connections: map<string, Connection>): set<string> {
    set k | k in connections && connections[k].videoReceive.Active?
  }

  /** What the tally of these connections reads. */
  function TallyOf(connections: map<string, Connection>): Tally {
    Tally(Wrap32(|Sending(connections)|), Wrap32(|connections| - |Sending(connections)|),
          Wrap32(|Receiving(connections)|), Wrap32(|connections| - |Receiving(connections)|))
  }

  function CountOne(t: Tally, c: Connection): Tally {
    var t := match c.videoSend
      case Active(_) => t.(numSending := AddOne(t.numSending))
      case Idle(_) => t.(numNotSending := AddOne(t.numNotSending));
    match c.videoReceive
    case Active(_) => t.(numReceiving := AddOne(t.numReceiving))
    case Idle(_) => t.(numNotReceiving := AddOne(t.numNotReceiving))
  }

  lemma Wrap32Step(x: int)
    ensures AddOne(Wrap32(x)) == Wrap32(x + 1)
  {
  }

  lemma ExtendedSending(some: map<string, Connection>, k: string, c: Connection)
    requires k !in some
    ensures |Sending(some[k := c])| == |Sending(some)| + if c.videoSend.Active? then 1 else 0
  {
    if c.videoSend.Active? {
      assert Sending(some[k := c]) == Sending(some) + {k};
    } else {
      assert Sending(some[k := c]) == Sending(some);
    }
  }

  lemma ExtendedReceiving(some: map<string, Connection>, k: string, c: Connection)
    requires k !in some
    ensures |Receiving(some[k := c])| == |Receiving(some)| + if c.videoReceive.Active? then 1 else 0
  {
    if c.videoReceive.Active? {
      assert Receiving(some[k := c]) == Receiving(some) + {k};
    } else {
      assert Receiving(some[k := c]) == Receiving(some);
    }
  }

  /** Counting one more connection extends the tally of those counted so far. */
  lemma CountOneExtends(some: map<string, Connection>, k: string, c: Connection)
    requires k !in some
    ensures CountOne(TallyOf(some), c) == TallyOf(some[k := c])
  {
    ExtendedSending(some, k, c);
    ExtendedReceiving(some, k, c);
    Wrap32Step(|Sending(some)|);
    Wrap32Step(|some| - |Sending(some)|);
    Wrap32Step(|Receiving(some)|);
    Wrap32Step(|some| - |Receiving(some)|);
  }

  predicate AddsUp(t: Tally, total: nat) {
    t.numSending + t.numNotSending == total && t.numReceiving + t.numNotReceiving == total
  }

  predicate FitsI32(connections: map<string, Connection>) {
    && |Sending(connections)| <= 2_147_483_647 && |connections| - |Sending(connections)| <= 2_147_483_647
    && |Receiving(connections)| <= 2_147_483_647 && |connections| - |Receiving(connections)| <= 2_147_483_647
  }

  /** The four counters add up to the number of connections exactly while none of the four
      groups outgrows an i32. */
  lemma TallyAddsUpIff(connections: map<string, Connection>)
    ensures AddsUp(TallyOf(connections), |connections|) <==> FitsI32(connections)
  {
    SubsetCardinality(Sending(connections), connections.Keys);
    SubsetCardinality(Receiving(connections), connections.Keys);
    Wrap32Fits(|Sending(connections)|, |connections| - |Sending(connections)|);
    Wrap32Fits(|Receiving(connections)|, |connections| - |Receiving(connections)|);
  }

  /** And then each of them is the size of its group. */
  lemma TallyExact(connections: map<string, Connection>)
    requires FitsI32(connections)
    ensures TallyOf(connections) == Tally(|Sending(connections)|, |connections| - |Sending(connections)|,
                                          |Receiving(connections)|, |connections| - |Receiving(connections)|)
  {
    SubsetCardinality(Sending(connections), connections.Keys);
    SubsetCardinality(Receiving(connections), connections.Keys);
    Wrap32Exact(|Sending(connections)|);
    Wrap32Exact(|connections| - |Sending(connections)|);
    Wrap32Exact(|Receiving(connections)|);
    Wrap32Exact(|connections| - |Receiving(connections)|);
  }

  lemma Wrap32Exact(x: nat)
    requires x <= 2_147_483_647
    ensures Wrap32(x) == x
  {
  }

  lemma Wrap32Fits(x: nat, y: nat)
    ensures Wrap32(x) + Wrap32(y) == x + y <==> x <= I32_MAX && y <= I32_MAX
  {
  }

  datatype SessionStats = SessionStats(
    id: string,
    name: string,
    numPeerConnections: nat,
    state: SessionState,
    peerConnectionState: Tally,
    startTime: Option<int>,
    stopTime: Option<int>,
    elapsedTime: nat)

  /** The elapsed time of a reply: 0 before the start and under a clock set back, and otherwise the
      whole seconds since the start, or from the start to the stop. */
  predicate Clocked(stats: SessionStats, now: int) {
    && (stats.state == Created ==> stats.elapsedTime == 0)
    && (stats.state == Started && stats.startTime.Some? ==> Floored(stats.elapsedTime, stats.startTime.value, now))
    && (stats.state == Stopped && stats.startTime.Some? && stats.stopTime.Some? ==>
          Floored(stats.elapsedTime, stats.startTime.value, stats.stopTime.value))
  }

  predicate Floored(seconds: nat, from: int, to: int) {
    if from <= to then seconds * 1_000_000_000 <= to - from < (seconds + 1) * 1_000_000_000 else seconds == 0
  }

  /** The statistics of a session at one instant. */
  function Snapshot(v: SessionView, now: int): SessionStats {
    SessionStats(v.id, v.name, |v.connections|, v.state, TallyOf(v.connections), v.startTime, v.stopTime, ReportedElapsed(v, now))
  }

  // ---- connections ----

  function AddConnection(v: SessionView, c: Connection): SessionView {
    v.(connections := v.connections[c.id := c])
  }

  /** One export per connection that a report is asked of; a failed one leaves its connection
      alone and the rest proceed. */
  function ExportSession(v: SessionView, reports: map<string, Result<Stats, ServerError>>, poll: bool): SessionView {
    v.(connections := map k | k in v.connections ::
         if k in reports then Exported(v.connections[k], Export(reports[k], poll)) else v.connections[k])
  }

  ghost predicate Enumerates(order: seq<string>, s: set<string>) {
    && (forall k :: k in s <==> k in order)
    && (forall i, j :: 0 <= i < j < |order| ==> order[i] != order[j])
  }

  /** The connections while an export has visited only some of them. */
  ghost function ExportVisited(all: map<string, Connection>, visited: seq<string>, reports: map<string, Result<Stats, ServerError>>,
                               poll: bool): map<string, Connection>
  {
    map k | k in all :: if k in visited && k in reports then Exported(all[k], Export(reports[k], poll)) else all[k]
  }

  lemma ExportVisitedExtends(all: map<string, Connection>, order: seq<string>, i: nat,
                             reports: map<string, Result<Stats, ServerError>>, poll: bool)
    requires i < |order| && Enumerates(order, all.Keys) && all.Keys <= reports.Keys
    ensures var k := order[i]; var before := ExportVisited(all, order[..i], reports, poll);
            && k in all && before[k] == all[k]
            && ExportVisited(all, order[..i + 1], reports, poll) == before[k := Exported(all[k], Export(reports[k], poll))]
  {
    assert order[..i + 1] == order[..i] + [order[i]];
  }

  lemma ExportVisitedAll(v: SessionView, order: seq<string>, reports: map<string, Result<Stats, ServerError>>, poll: bool)
    requires Enumerates(order, v.connections.Keys)
    ensures v.(connections := ExportVisited(v.connections, order[..|order|], reports, poll)) == ExportSession(v, reports, poll)
  {
    assert order[..|order|] == order;
  }

  /** The connections that an iteration has visited so far. */
  ghost function Counted(all: map<string, Connection>, visited: seq<string>): map<string, Connection> {
    map k | k in all && k in visited :: all[k]
  }

  /** The tally after visiting some connections one by one. */
  function TallyVisited(all: map<string, Connection>, visited: seq<string>): Tally
    requires forall i :: 0 <= i < |visited| ==> visited[i] in all
  {
    if visited == [] then Tally(0, 0, 0, 0)
    else CountOne(TallyVisited(all, visited[..|visited| - 1]), all[visited[|visited| - 1]])
  }

  lemma {:induction false} TallyVisitedCorrect(all: map<string, Connection>, visited: seq<string>)
    requires forall i :: 0 <= i < |visited| ==> visited[i] in all
    requires forall i, j :: 0 <= i < j < |visited| ==> visited[i] != visited[j]
    ensures TallyVisited(all, visited) == TallyOf(Counted(all, visited))
  {
    if visited == [] {
      assert Counted(all, visited) == map[];
    } else {
      var prefix, k := visited[..|visited| - 1], visited[|visited| - 1];
      assert visited == prefix + [k];
      TallyVisitedCorrect(all, prefix);
      assert Counted(all, visited) == Counted(all, prefix)[k := all[k]];
      CountOneExtends(Counted(all, prefix), k, all[k]);
    }
  }

  class Session {
    const id: string
    const name: string
    const pollingStateS: nat
    const webrtcPool: WebRtcPools.WebRtcPool
    var state: SessionState
    var startTime: Option<int>
    var stopTime: Option<int>
    var peerConnections: map<string, PeerConnectionManager>

    ghost predicate Valid()
      reads this, webrtcPool
    {
      && webrtcPool.Valid()
      && forall k :: k in peerConnections ==> peerConnections[k].id == k
    }

    ghost function Connections(): map<string, Connection>
      reads this, peerConnections.Values
    {
      map k | k in peerConnections :: peerConnections[k].View()
    }

    ghost function View(): SessionView
      requires Valid()
      reads this, webrtcPool, peerConnections.Values
    {
      SessionView(id, name, pollingStateS, state, startTime, stopTime, webrtcPool.Counts(), Connections())
    }

    constructor (id: string, name: string, pollingStateS: nat, pool: WebRtcPools.WebRtcPool)
      requires pool.Valid() && pool.Counts() == Zeros(WebRtcPools.AsU32(pool.factoryCount))
      ensures Valid() && webrtcPool == pool && peerConnections == map[]
      ensures View() == NewSession(id, name, pollingStateS, pool.factoryCount)
    {
      this.id, this.name, this.pollingStateS := id, name, pollingStateS;
      webrtcPool := pool;
      state, startTime, stopTime := Created, None, None;
      peerConnections := map[];
    }

    method Start(now: int) returns (r: Result<(), ServerError>)
      requires Valid()
      modifies this`state, this`startTime
      ensures Valid()
      ensures r == StartReply(old(View())) && (r.Ok? <==> old(state) == Created) && (r.Err? ==> r.error.InvalidStateError?)
      ensures View() == AfterStart(old(View()), now)
    {
      if state != Created {
        return Err(InvalidStateError("Only a created session can be started"));
      }
      state := Started;
      startTime := Some(now);
      return Ok(());
    }

    method Stop(now: int) returns (r: Result<(), ServerError>)
      requires Valid()
      modifies this`state, this`stopTime
      ensures Valid()
      ensures r == StopReply(old(View())) && (r.Ok? <==> old(state) == Started) && (r.Err? ==> r.error.InvalidStateError?)
      ensures View() == AfterStop(old(View()), now)
    {
      if state != Started {
        return Err(InvalidStateError("Only a started session can be stopped"));
      }
      state := Stopped;
      stopTime := Some(now);
      return Ok(());
    }

    /** Replaces any connection that has the same id. */
    method AddPeerConnection(pc: PeerConnectionManager)
      requires Valid()
      modifies this`peerConnections
      ensures Valid()
      ensures peerConnections == old(peerConnections)[pc.id := pc]
      ensures View() == AddConnection(old(View()), pc.View())
    {
      peerConnections := peerConnections[pc.id := pc];
    }

    method GetPeerConnection(id: string) returns (r: Result<PeerConnectionManager, ServerError>)
      requires Valid()
      ensures r.Ok? <==> id in peerConnections
      ensures r.Ok? ==> r.value == peerConnections[id] && r.value.id == id
      ensures r.Err? ==> r.error.InvalidPeerConnection?
    {
      if id !in peerConnections {
        return Err(InvalidPeerConnection("Peer connection " + id + " not found"));
      }
      return Ok(peerConnections[id]);
    }

    /** The turn of one connection in the export loop: no other connection moves. */
    method ExportOne(k: string, report: Result<Stats, ServerError>, shouldPollState: bool)
      requires Valid() && k in peerConnections
      modifies peerConnections[k]
      ensures Connections() == old(Connections())[k := Exported(old(Connections())[k], Export(report, shouldPollState))]
    {
      var _ := peerConnections[k].ExportStats(report, shouldPollState);
    }

    method ExportPeerConnectionStats(order: seq<string>, reports: map<string, Result<Stats, ServerError>>, shouldPollState: bool)
      requires Valid() && Enumerates(order, peerConnections.Keys) && peerConnections.Keys <= reports.Keys
      modifies peerConnections.Values
      ensures Valid()
      ensures View() == ExportSession(old(View()), reports, shouldPollState)
    {
      ghost var before := Connections();
      for i := 0 to |order|
        invariant Connections() == ExportVisited(before, order[..i], reports, shouldPollState)
      {
        ExportVisitedExtends(before, order, i, reports, shouldPollState);
        ExportOne(order[i], reports[order[i]], shouldPollState);
      }
      ExportVisitedAll(old(View()), order, reports, shouldPollState);
    }

    method PeerConnectionStates(order: seq<string>) returns (t: Tally)
      requires Valid() && Enumerates(order, peerConnections.Keys)
      ensures t == TallyOf(Connections())
    {
      t := Tally(0, 0, 0, 0);
      ghost var all := Connections();
      for i := 0 to |order|
        invariant t == TallyVisited(all, order[..i])
      {
        t := CountOne(t, peerConnections[order[i]].View());
        assert order[..i + 1][..i] == order[..i];
      }
      assert order[..|order|] == order;
      TallyVisitedCorrect(all, order);
      assert Counted(all, order) == all;
    }

    /** The statistics reply, read off field by field. */
    method GetStats(order: seq<string>, now: int) returns (stats: SessionStats)
      requires Valid() && Enumerates(order, peerConnections.Keys)
      ensures stats == Snapshot(View(), now)
      ensures stats.id == id && stats.name == name && stats.state == state && stats.numPeerConnections == |peerConnections|
      ensures stats.startTime == startTime && stats.stopTime == stopTime
      ensures Clocked(stats, now)
    {
      var t := PeerConnectionStates(order);
      var elapsed := match state
        case Created => None
        case Started => Elapsed(startTime, Some(now))
        case Stopped => Elapsed(startTime, stopTime);
      assert Connections().Keys == peerConnections.Keys;
      assert |Connections().Keys| == |peerConnections|;
      stats := SessionStats(id, name, |peerConnections|, state, t, startTime, stopTime,
                            match elapsed case Some(s) => s case None => 0);
    }
  }
}
