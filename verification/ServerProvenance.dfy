/** Where the connections of a running server come from: the request, the factory and the channels of each. */
module ServerProvenance {
  import opened Wrappers
  import opened PeerConnections
  import opened Server
  import opened ServerInvariants
  import opened ServerRuns
  import opened ServerPool

  // ---- the events behind a request in flight ----

  /** Event x began creation `call`, and the session has not been replaced between it and state i. */
  ghost predicate Began(r: Run, call: nat, sid: string, peerId: string, name: string, x: nat, i: nat) {
    && x < i <= |r.events| && r.events[x].CreateBegin? && r.events[x].call == call && r.events[x].sid == sid
    && r.events[x].peerId == peerId && r.events[x].name == name
    && (forall n :: x <= n < i ==> !Recreates(r.events[n], sid))
  }

  /** Event y is the increment of creation `call`, and raised factory f of the session. */
  ghost predicate Raised(r: Run, call: nat, sid: string, f: nat, y: nat)
  {
    && y < |r.events| && |r.states| == |r.events| + 1 && r.events[y] == CreateIncrement(call)
    && sid in r.states[y].sessions && sid in r.states[y + 1].sessions
    && f < |r.states[y].sessions[sid].counts| && f < |r.states[y + 1].sessions[sid].counts|
    && r.states[y + 1].sessions[sid].counts[f] == r.states[y].sessions[sid].counts[f] + 1
  }

  /** Event z built the connection of creation `call`, on channels of this number. */
  ghost predicate Made(r: Run, call: nat, channel: nat, z: nat) {
    z < |r.events| && r.events[z] == CreateBuild(call, true, channel)
  }

  /** A request in flight keeps its session from being replaced. */
  lemma InFlightUnreplaced(st: State, e: Event, call: nat)
    requires Enabled(st, e) && call in st.requests
    ensures !Recreates(e, st.requests[call].sid)
  {
  }

  /** How the creation requests in flight come about, step by step. */
  lemma ScanStep(st: State, e: Event, call: nat)
    requires Enabled(st, e) && call in Apply(st, e).requests && Apply(st, e).requests[call].Scanning?
    ensures var q := Apply(st, e).requests[call];
            || (e.CreateBegin? && e.call == call && e.sid == q.sid && e.peerId == q.peerId && e.name == q.name)
            || (call in st.requests && st.requests[call].Scanning? && st.requests[call].sid == q.sid
                && st.requests[call].peerId == q.peerId && st.requests[call].name == q.name)
  {
  }

  lemma CountedStep(st: State, e: Event, call: nat)
    requires Enabled(st, e) && call in Apply(st, e).requests && Apply(st, e).requests[call].Counted?
    ensures var q := Apply(st, e).requests[call];
            && call in st.requests && st.requests[call].sid == q.sid
            && if e == CreateIncrement(call) then
                 && st.requests[call].Scanning? && st.requests[call].peerId == q.peerId && st.requests[call].name == q.name
                 && q.sid in st.sessions && q.sid in Apply(st, e).sessions
                 && q.poolId < |st.sessions[q.sid].counts| == |Apply(st, e).sessions[q.sid].counts|
                 && Apply(st, e).sessions[q.sid].counts[q.poolId] == st.sessions[q.sid].counts[q.poolId] + 1
               else st.requests[call] == q
  {
  }

  lemma BuiltStep(st: State, e: Event, call: nat)
    requires Enabled(st, e) && call in Apply(st, e).requests && Apply(st, e).requests[call].Built?
    ensures var q := Apply(st, e).requests[call];
            && call in st.requests && st.requests[call].sid == q.sid
            && (st.requests[call] == q
                || (e.CreateBuild? && e.call == call && e.built && st.requests[call].Counted?
                    && q.connection
                       == NewConnection(st.requests[call].peerId, st.requests[call].name, st.requests[call].poolId, e.channel)))
  {
  }

  lemma BeganLonger(r: Run, call: nat, sid: string, peerId: string, name: string, x: nat, i: nat)
    requires Began(r, call, sid, peerId, name, x, i) && i < |r.events| && !Recreates(r.events[i], sid)
    ensures Began(r, call, sid, peerId, name, x, i + 1)
  {
  }

  lemma {:induction false} ScanBegan(r: Run, call: nat, i: nat) returns (x: nat)
    requires IsRun(r) && i < |r.states| && call in r.states[i].requests && r.states[i].requests[call].Scanning?
    ensures var q := r.states[i].requests[call]; Began(r, call, q.sid, q.peerId, q.name, x, i)
  {
    var q := r.states[i].requests[call];
    var st, e := r.states[i - 1], r.events[i - 1];
    assert StepAt(r, i - 1);
    ScanStep(st, e, call);
    if e.CreateBegin? && e.call == call {
      x := i - 1;
    } else {
      x := ScanBegan(r, call, i - 1);
      InFlightUnreplaced(st, e, call);
      BeganLonger(r, call, q.sid, q.peerId, q.name, x, i - 1);
    }
  }

  /** Event x began the request and event y raised its factory, up to state i. */
  ghost predicate CountedFrom(r: Run, call: nat, q: Request, x: nat, y: nat, i: nat)
    requires q.Counted?
  {
    x < y < i && Began(r, call, q.sid, q.peerId, q.name, x, i) && Raised(r, call, q.sid, q.poolId, y)
  }

  lemma RaisedNow(r: Run, call: nat, i: nat) returns (x: nat)
    requires IsRun(r) && 0 < i < |r.states| && r.events[i - 1] == CreateIncrement(call)
    requires call in r.states[i].requests && r.states[i].requests[call].Counted?
    ensures CountedFrom(r, call, r.states[i].requests[call], x, i - 1, i)
  {
    var q := r.states[i].requests[call];
    assert StepAt(r, i - 1);
    CountedStep(r.states[i - 1], r.events[i - 1], call);
    x := ScanBegan(r, call, i - 1);
    BeganLonger(r, call, q.sid, q.peerId, q.name, x, i - 1);
  }

  lemma CountedLonger(r: Run, call: nat, q: Request, x: nat, y: nat, i: nat)
    requires q.Counted? && CountedFrom(r, call, q, x, y, i) && i < |r.events| && !Recreates(r.events[i], q.sid)
    ensures CountedFrom(r, call, q, x, y, i + 1)
  {
    BeganLonger(r, call, q.sid, q.peerId, q.name, x, i);
  }

  lemma {:induction false} CountedRaised(r: Run, call: nat, i: nat) returns (x: nat, y: nat)
    requires IsRun(r) && i < |r.states| && call in r.states[i].requests && r.states[i].requests[call].Counted?
    ensures CountedFrom(r, call, r.states[i].requests[call], x, y, i)
  {
    assert StepAt(r, i - 1);
    CountedStep(r.states[i - 1], r.events[i - 1], call);
    if r.events[i - 1] == CreateIncrement(call) {
      x := RaisedNow(r, call, i);
      y := i - 1;
    } else {
      x, y := CountedRaised(r, call, i - 1);
      InFlightUnreplaced(r.states[i - 1], r.events[i - 1], call);
      CountedLonger(r, call, r.states[i].requests[call], x, y, i - 1);
    }
  }

  lemma {:induction false} BuiltMade(r: Run, call: nat, i: nat) returns (x: nat, y: nat, z: nat, channel: nat)
    requires IsRun(r) && i < |r.states| && call in r.states[i].requests && r.states[i].requests[call].Built?
    ensures x < y < z < i
    ensures var q := r.states[i].requests[call]; var c := q.connection;
            && Began(r, call, q.sid, c.id, c.name, x, i) && Raised(r, call, q.sid, c.poolId, y) && Made(r, call, channel, z)
            && c == NewConnection(c.id, c.name, c.poolId, channel)
  {
    var q := r.states[i].requests[call];
    var st, e := r.states[i - 1], r.events[i - 1];
    assert StepAt(r, i - 1);
    BuiltStep(st, e, call);
    InFlightUnreplaced(st, e, call);
    if st.requests[call] == q {
      x, y, z, channel := BuiltMade(r, call, i - 1);
    } else {
      x, y := CountedRaised(r, call, i - 1);
      z, channel := i - 1, e.channel;
    }
    BeganLonger(r, call, q.sid, q.connection.id, q.connection.name, x, i - 1);
  }

  // ---- the events behind a connection ----

  /** The five events that a connection goes back to. */
  datatype Birth = Birth(call: nat, begin: nat, raise: nat, build: nat, insert: nat, channel: nat)

  /** In order: one call of the session asked for the connection, raised a factory, built it on
      channels of one number and inserted it, and nothing has replaced session or connection since. */
  ghost predicate BornOf(r: Run, sid: string, k: string, name: string, poolId: nat, b: Birth, i: nat) {
    && IsRun(r) && b.begin < b.raise < b.build < b.insert < i <= |r.events|
    && Began(r, b.call, sid, k, name, b.begin, i) && Raised(r, b.call, sid, poolId, b.raise) && Made(r, b.call, b.channel, b.build)
    && r.events[b.insert] == CreateInsert(b.call)
    && (forall n :: b.insert < n < i ==> !Inserts(r.states[n], r.events[n], sid, k))
  }

  /** The receivers that a connection still holds are each of their kind and of its own channels. */
  predicate HoldsItsOwn(c: Connection, channel: nat) {
    && (c.connectionStateRx.Some? ==> c.connectionStateRx.value == Receiver(ConnectionStates, channel))
    && (c.iceCandidatesRx.Some? ==> c.iceCandidatesRx.value == Receiver(IceCandidates, channel))
    && (c.videoTrackRx.Some? ==> c.videoTrackRx.value == Receiver(VideoTracks, channel))
  }

  /** A step takes receivers from a connection at most; the rest of its identity it keeps. */
  lemma ConnectionStands(st: State, e: Event, sid: string, k: string, channel: nat)
    requires Enabled(st, e) && sid in Apply(st, e).sessions && k in Apply(st, e).sessions[sid].connections
    requires !Recreates(e, sid) && !Inserts(st, e, sid, k)
    ensures sid in st.sessions && k in st.sessions[sid].connections
    ensures var c, d := st.sessions[sid].connections[k], Apply(st, e).sessions[sid].connections[k];
            c.id == d.id && c.name == d.name && c.poolId == d.poolId && (HoldsItsOwn(c, channel) ==> HoldsItsOwn(d, channel))
  {
  }

  lemma InsertStep(st: State, e: Event, sid: string, k: string)
    requires Enabled(st, e) && Inserts(st, e, sid, k)
    ensures sid in Apply(st, e).sessions && k in Apply(st, e).sessions[sid].connections
    ensures Apply(st, e).sessions[sid].connections[k] == st.requests[e.call].connection
  {
  }

  lemma SessionJustCreated(st: State, e: Event, sid: string)
    requires Enabled(st, e)
    ensures Recreates(e, sid) ==> sid in Apply(st, e).sessions && Apply(st, e).sessions[sid].connections == map[]
  {
  }

  lemma BornNow(r: Run, sid: string, k: string, i: nat) returns (b: Birth)
    requires IsRun(r) && 0 < i < |r.states| && Inserts(r.states[i - 1], r.events[i - 1], sid, k)
    ensures sid in r.states[i].sessions && k in r.states[i].sessions[sid].connections
    ensures var c := r.states[i].sessions[sid].connections[k];
            c.id == k && BornOf(r, sid, k, c.name, c.poolId, b, i) && HoldsItsOwn(c, b.channel)
  {
    var st, e := r.states[i - 1], r.events[i - 1];
    assert StepAt(r, i - 1);
    InsertStep(st, e, sid, k);
    var x, y, z, channel := BuiltMade(r, e.call, i - 1);
    var c := st.requests[e.call].connection;
    BeganLonger(r, e.call, sid, k, c.name, x, i - 1);
    b := Birth(e.call, x, y, z, i - 1, channel);
  }

  lemma BornEarlier(r: Run, sid: string, k: string, name: string, poolId: nat, b: Birth, i: nat)
    requires BornOf(r, sid, k, name, poolId, b, i) && i < |r.events|
    requires !Recreates(r.events[i], sid) && !Inserts(r.states[i], r.events[i], sid, k)
    ensures BornOf(r, sid, k, name, poolId, b, i + 1)
  {
    BeganLonger(r, b.call, sid, k, name, b.begin, i);
  }

  /** Every connection of every reachable state goes back to one call: it has the id and name that
      the call asked for, lives on the factory that the call raised, and holds receivers of the
      channels that were made for it, each under its own kind. */
  lemma {:induction false} Provenance(r: Run, sid: string, k: string, i: nat) returns (b: Birth)
    requires IsRun(r) && i < |r.states| && sid in r.states[i].sessions && k in r.states[i].sessions[sid].connections
    ensures var c := r.states[i].sessions[sid].connections[k];
            c.id == k && BornOf(r, sid, k, c.name, c.poolId, b, i) && HoldsItsOwn(c, b.channel)
  {
    var c := r.states[i].sessions[sid].connections[k];
    var st, e := r.states[i - 1], r.events[i - 1];
    assert StepAt(r, i - 1);
    SessionJustCreated(st, e, sid);
    if Inserts(st, e, sid, k) {
      b := BornNow(r, sid, k, i);
    } else {
      ConnectionStands(st, e, sid, k, 0);
      b := Provenance(r, sid, k, i - 1);
      ConnectionStands(st, e, sid, k, b.channel);
      BornEarlier(r, sid, k, c.name, c.poolId, b, i - 1);
    }
  }

  /** The factory that add_track and add_transceiver find is the one that the connection's own call raised. */
  lemma LookupFindsMaker(r: Run, i: nat, sid: string, peerId: string) returns (b: Birth)
    requires IsRun(r) && i < |r.states| && sid in r.states[i].sessions && peerId in r.states[i].sessions[sid].connections
    ensures TrackLookup(r.states[i], sid, peerId).Ok?
    ensures var c := r.states[i].sessions[sid].connections[peerId];
            BornOf(r, sid, peerId, c.name, TrackLookup(r.states[i], sid, peerId).value, b, i)
  {
    LookupNeverMisses(r, i, sid, peerId);
    b := Provenance(r, sid, peerId, i);
  }

  // ---- what an observer is handed ----

  /** The two receivers of one making. */
  predicate Pair(video: Receiver, ice: Option<Receiver>) {
    ice.Some? && video.kind == VideoTracks && ice.value == Receiver(IceCandidates, video.channel)
  }

  lemma VideoTaken(st: State, e: Event, call: nat)
    requires Inv(st) && Enabled(st, e) && e == ObserveVideo(call)
    requires call in Apply(st, e).requests && Apply(st, e).requests[call].ObservingIce?
    ensures InFlight(st, call) && st.requests[call].peerId in Own(st, call).connections
    ensures var q, before := Apply(st, e).requests[call], Own(st, call).connections[st.requests[call].peerId];
            && InFlight(Apply(st, e), call) && q.peerId in Own(Apply(st, e), call).connections
            && q.sid == st.requests[call].sid && q.peerId == st.requests[call].peerId
            && before.videoTrackRx == Some(q.videoTrackRx)
            && Own(Apply(st, e), call).connections[q.peerId].iceCandidatesRx == before.iceCandidatesRx
  {
  }

  /** The step by which a request comes to hold a video receiver, if it did not hold it before. */
  lemma HolderStep(st: State, e: Event, call: nat)
    requires Enabled(st, e) && call in Apply(st, e).requests && Apply(st, e).requests[call].ObservingIce?
    ensures e == ObserveVideo(call) || (Actor(e) != Some(call) && call in st.requests && st.requests[call] == Apply(st, e).requests[call])
  {
  }

  lemma VideoTakenInRun(r: Run, call: nat, i: nat)
    requires IsRun(r) && i < |r.events| && r.events[i] == ObserveVideo(call)
    requires call in r.states[i + 1].requests && r.states[i + 1].requests[call].ObservingIce?
    ensures InFlight(r.states[i + 1], call) && r.states[i + 1].requests[call].peerId in Own(r.states[i + 1], call).connections
    ensures var q := r.states[i + 1].requests[call];
            var ice := Own(r.states[i + 1], call).connections[q.peerId].iceCandidatesRx;
            ice.Some? ==> Pair(q.videoTrackRx, ice)
  {
    RunInv(r, i);
    assert StepAt(r, i);
    VideoTaken(r.states[i], r.events[i], call);
    var q := r.states[i].requests[call];
    var b := Provenance(r, q.sid, q.peerId, i);
  }

  lemma HolderFits(r: Run, call: nat, i: nat)
    requires IsRun(r) && i < |r.states| && call in r.states[i].requests && r.states[i].requests[call].ObservingIce?
    ensures InFlight(r.states[i], call) && r.states[i].requests[call].peerId in Own(r.states[i], call).connections
    ensures Own(r.states[i], call).connections[r.states[i].requests[call].peerId].iceCandidatesRx.Some?
  {
    RunInv(r, i);
    assert RequestFits(Own(r.states[i], call), r.states[i].requests[call]);
  }

  lemma VideoKept(r: Run, call: nat, i: nat)
    requires IsRun(r) && i < |r.events| && Actor(r.events[i]) != Some(call)
    requires call in r.states[i].requests && r.states[i].requests[call].ObservingIce?
    requires call in r.states[i + 1].requests && r.states[i + 1].requests[call] == r.states[i].requests[call]
    ensures InFlight(r.states[i], call) && InFlight(r.states[i + 1], call)
    ensures var k := r.states[i].requests[call].peerId;
            && k in Own(r.states[i], call).connections && k in Own(r.states[i + 1], call).connections
            && Own(r.states[i + 1], call).connections[k].iceCandidatesRx == Own(r.states[i], call).connections[k].iceCandidatesRx
  {
    HolderFits(r, call, i);
    HolderFits(r, call, i + 1);
    RunInv(r, i);
    assert StepAt(r, i);
    GuardedPeerStays(r.states[i], r.events[i], call);
  }

  /** The video receiver that a request holds was made together with the ICE receiver it is to take. */
  lemma {:induction false} VideoHeld(r: Run, call: nat, i: nat)
    requires IsRun(r) && i < |r.states| && call in r.states[i].requests && r.states[i].requests[call].ObservingIce?
    ensures InFlight(r.states[i], call) && r.states[i].requests[call].peerId in Own(r.states[i], call).connections
    ensures var q := r.states[i].requests[call];
            Pair(q.videoTrackRx, Own(r.states[i], call).connections[q.peerId].iceCandidatesRx)
  {
    HolderFits(r, call, i);
    assert StepAt(r, i - 1);
    HolderStep(r.states[i - 1], r.events[i - 1], call);
    if r.events[i - 1] == ObserveVideo(call) {
      VideoTakenInRun(r, call, i - 1);
    } else {
      VideoHeld(r, call, i - 1);
      VideoKept(r, call, i - 1);
    }
  }

  /** Every observer request that succeeds is handed the video and the ICE receiver that were
      made for its connection, neither twice nor those of another. */
  lemma ObserverGetsItsOwn(r: Run, i: nat) returns (b: Birth)
    requires IsRun(r) && i < |r.events| && r.events[i].ObserveIce?
    ensures ObserverReady(r.states[i], r.events[i].call) && r.states[i].requests[r.events[i].call].ObservingIce?
    ensures var q := r.states[i].requests[r.events[i].call];
            var c := r.states[i].sessions[q.sid].connections[q.peerId];
            && BornOf(r, q.sid, q.peerId, c.name, c.poolId, b, i)
            && q.videoTrackRx == Receiver(VideoTracks, b.channel)
            && c.iceCandidatesRx == Some(Receiver(IceCandidates, b.channel))
  {
    assert StepAt(r, i);
    var q := r.states[i].requests[r.events[i].call];
    VideoHeld(r, r.events[i].call, i);
    b := Provenance(r, q.sid, q.peerId, i);
  }
}
