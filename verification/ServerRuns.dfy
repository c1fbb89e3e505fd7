/** Isolation, lifecycle, statistics, observers and the metrics schedule, over every run of the server. */
module ServerRuns {
  import opened Wrappers
  import opened Sessions
  import opened Server
  import opened ServerInvariants
  import Counts
  import Lifecycle

  // ---- isolation ----

  /** The session that a step works on. */
  function Target(st: State, e: Event): Option<string> {
    match e
    case CreateSession(sid, _, _, _) => Some(sid)
    case StartSession(sid, _) => Some(sid)
    case StopSession(sid, _) => Some(sid)
    case VisitBegin(sid) => Some(sid)
    case ExportOne(_, _) => if st.metrics.Visiting? then Some(st.metrics.sid) else None
    case StatsBegin(_, sid) => Some(sid)
    case CreateBegin(_, sid, _, _, _) => Some(sid)
    case ObserveBegin(_, sid, _) => Some(sid)
    case PassBegin => None
    case VisitEnd => None
    case PassEnd => None
    case _ => if e.call in st.requests then Some(st.requests[e.call].sid) else None
  }

  /** A step leaves every session but the one it works on exactly as it was. */
  lemma StepIsolation(st: State, e: Event, sid: string)
    requires Enabled(st, e) && Target(st, e) != Some(sid)
    ensures sid in Apply(st, e).sessions <==> sid in st.sessions
    ensures sid in st.sessions ==> Apply(st, e).sessions[sid] == st.sessions[sid]
  {
  }

  /** However many steps work on other sessions, they leave this one exactly as it was, or absent. */
  lemma {:induction false} Isolation(r: Run, sid: string, i: nat, j: nat)
    requires IsRun(r) && i <= j < |r.states|
    requires forall k :: i <= k < j ==> Target(r.states[k], r.events[k]) != Some(sid)
    ensures sid in r.states[j].sessions <==> sid in r.states[i].sessions
    ensures sid in r.states[i].sessions ==> r.states[j].sessions[sid] == r.states[i].sessions[sid]
  {
    if i < j {
      Isolation(r, sid, i, j - 1);
      assert StepAt(r, j - 1);
      StepIsolation(r.states[j - 1], r.events[j - 1], sid);
    }
  }

  /** In every state of every run, sessions and connections are stored under their own ids. */
  lemma IndexAgreement(r: Run, i: nat, sid: string)
    requires IsRun(r) && i < |r.states| && sid in r.states[i].sessions
    ensures r.states[i].sessions[sid].id == sid
    ensures forall k :: k in r.states[i].sessions[sid].connections ==> r.states[i].sessions[sid].connections[k].id == k
  {
    RunInv(r, i);
    assert Indexed(r.states[i]);
  }

  /** No step removes a session. */
  lemma {:induction false} SessionsKept(r: Run, i: nat, j: nat)
    requires IsRun(r) && i <= j < |r.states|
    ensures r.states[i].sessions.Keys <= r.states[j].sessions.Keys
  {
    if i < j {
      SessionsKept(r, i, j - 1);
      assert StepAt(r, j - 1);
      StepKeepsSessions(r.states[j - 1], r.events[j - 1]);
    }
  }

  lemma StepKeepsSessions(st: State, e: Event)
    requires Enabled(st, e)
    ensures st.sessions.Keys <= Apply(st, e).sessions.Keys
  {
  }

  // ---- lifecycle ----

  /** The start, stop and statistics requests that a session has served since it was last created. */
  ghost function CallsOn(r: Run, sid: string, i: nat): seq<Lifecycle.Call>
    requires IsRun(r) && i < |r.states|
  {
    if i == 0 || Recreates(r.events[i - 1], sid) then []
    else CallsOn(r, sid, i - 1) + CallBy(r.states[i - 1], r.events[i - 1], sid)
  }

  function CallBy(st: State, e: Event, sid: string): seq<Lifecycle.Call> {
    match e
    case StartSession(s, now) => if s == sid then [Lifecycle.StartCall(now)] else []
    case StopSession(s, now) => if s == sid then [Lifecycle.StopCall(now)] else []
    case StatsEnd(call, now) => if Serves(st, call, sid) then [Lifecycle.StatsCall(now)] else []
    case _ => []
  }

  predicate Serves(st: State, call: nat, sid: string) { call in st.requests && st.requests[call].sid == sid }

  /** The part of a session that its lifecycle governs. */
  function Phase(v: SessionView): (SessionState, Option<int>, Option<int>) { (v.state, v.startTime, v.stopTime) }

  lemma PhaseStands(st: State, e: Event, sid: string)
    requires Enabled(st, e) && sid in Apply(st, e).sessions && !Recreates(e, sid)
    requires !(e.StartSession? && e.sid == sid) && !(e.StopSession? && e.sid == sid)
    ensures sid in st.sessions && Phase(Apply(st, e).sessions[sid]) == Phase(st.sessions[sid])
  {
  }

  /** Whatever else the server does, the phase of a session is that of its own start and stop requests. */
  lemma {:induction false} PhaseInRun(r: Run, sid: string, i: nat, v: SessionView)
    requires IsRun(r) && i < |r.states| && sid in r.states[i].sessions && Lifecycle.JustCreated(v)
    ensures Phase(r.states[i].sessions[sid]) == Phase(Lifecycle.After(v, CallsOn(r, sid, i)))
  {
    if i > 0 {
      var st, e := r.states[i - 1], r.events[i - 1];
      assert StepAt(r, i - 1);
      if !Recreates(e, sid) {
        if sid in st.sessions {
          PhaseInRun(r, sid, i - 1, v);
        }
        var calls := CallsOn(r, sid, i);
        if CallBy(st, e, sid) == [] {
          PhaseStands(st, e, sid);
          assert calls == CallsOn(r, sid, i - 1);
        } else {
          assert calls[..|calls| - 1] == CallsOn(r, sid, i - 1);
          if e.StatsEnd? {
            PhaseStands(st, e, sid);
          }
        }
      }
    }
  }

  /** In every run, the state and both times of a session are settled by the first start since
      it was created and the first stop after that. */
  lemma LifecycleInRun(r: Run, sid: string, n: nat, i: nat, j: nat)
    requires IsRun(r) && n < |r.states| && sid in r.states[n].sessions && Lifecycle.Phases(CallsOn(r, sid, n), i, j)
    ensures Phase(r.states[n].sessions[sid]) == Lifecycle.Settled(CallsOn(r, sid, n), i, j)
  {
    var v := NewSession(sid, "", 0, 0);
    PhaseInRun(r, sid, n, v);
    Lifecycle.LifecycleOfHistory(v, CallsOn(r, sid, n), i, j);
  }

  // ---- statistics ----

  /** The reply to a statistics request, put together from what the request has gathered. */
  function StatsReply(v: SessionView, q: Request, now: int): SessionStats
    requires q.Tallying?
  {
    SessionStats(v.id, v.name, q.total, v.state, q.tally, v.startTime, v.stopTime, ReportedElapsed(v, now))
  }

  /** The reply that event i of the run sends. */
  ghost function ReplyAt(r: Run, i: nat): SessionStats
    requires IsRun(r) && i < |r.events| && r.events[i].StatsEnd?
  {
    assert StepAt(r, i);
    var call := r.events[i].call;
    StatsReply(Own(r.states[i], call), r.states[i].requests[call], r.events[i].now)
  }

  /** The session that event i of the run reports on, as it is at that moment. */
  ghost function ReportedSession(r: Run, i: nat): SessionView
    requires IsRun(r) && i < |r.events| && r.events[i].StatsEnd?
  {
    assert StepAt(r, i);
    Own(r.states[i], r.events[i].call)
  }

  /** Every statistics reply is the snapshot of the session at one instant, however long the
      request took and whatever the others were doing. */
  lemma StatsReplyIsSnapshot(r: Run, i: nat)
    requires IsRun(r) && i < |r.events| && r.events[i].StatsEnd?
    ensures ReplyAt(r, i) == Snapshot(ReportedSession(r, i), r.events[i].now)
  {
    RunInv(r, i);
    var st, call := r.states[i], r.events[i].call;
    assert StepAt(r, i);
    assert RequestFits(Own(st, call), st.requests[call]);
    assert CountedSoFar(Own(st, call).connections, {}) == Own(st, call).connections;
  }

  /** What a reply says of a session, field by field. Its elapsed time is that of a clock in nanoseconds. */
  lemma ReplyFields(r: Run, i: nat, sid: string)
    requires IsRun(r) && i < |r.events| && r.events[i].StatsEnd? && Serves(r.states[i], r.events[i].call, sid)
    ensures sid in r.states[i].sessions
    ensures var v, reply := r.states[i].sessions[sid], ReplyAt(r, i);
            && reply.id == sid && reply.name == v.name && reply.state == v.state
            && reply.startTime == v.startTime && reply.stopTime == v.stopTime
            && reply.numPeerConnections == |v.connections|
    ensures Clocked(ReplyAt(r, i), r.events[i].now)
  {
    StatsReplyIsSnapshot(r, i);
    RunInv(r, i);
    assert StepAt(r, i);
    SnapshotClocked(r.states[i].sessions[sid], r.events[i].now);
  }

  lemma SnapshotClocked(v: SessionView, now: int)
    ensures Clocked(Snapshot(v, now), now)
  {
  }

  /** The elapsed time of a reply, by the first start since the session was created and the first
      stop after that: 0 before the one, the whole seconds from it while running, and from the one to the other. */
  lemma ReplySeconds(r: Run, sid: string, n: nat, i: nat, j: nat)
    requires IsRun(r) && n < |r.events| && r.events[n].StatsEnd? && Serves(r.states[n], r.events[n].call, sid)
    requires Lifecycle.Phases(CallsOn(r, sid, n), i, j)
    ensures var calls, seconds, now := CallsOn(r, sid, n), ReplyAt(r, n).elapsedTime, r.events[n].now;
            && (i == |calls| ==> seconds == 0)
            && (i < j == |calls| && calls[i].now <= now ==>
                  seconds * 1_000_000_000 <= now - calls[i].now < (seconds + 1) * 1_000_000_000)
            && (j < |calls| && calls[i].now <= calls[j].now ==>
                  seconds * 1_000_000_000 <= calls[j].now - calls[i].now < (seconds + 1) * 1_000_000_000)
            && (i < |calls| && (if j < |calls| then calls[j].now else now) < calls[i].now ==> seconds == 0)
  {
    ReplyFields(r, n, sid);
    LifecycleInRun(r, sid, n, i, j);
  }

  /** The counters of a reply add up to its number of connections exactly while each fits an i32. */
  lemma StatsReplyAddsUp(r: Run, i: nat)
    requires IsRun(r) && i < |r.events| && r.events[i].StatsEnd?
    ensures AddsUp(ReplyAt(r, i).peerConnectionState, ReplyAt(r, i).numPeerConnections)
            <==> FitsI32(ReportedSession(r, i).connections)
  {
    StatsReplyIsSnapshot(r, i);
    TallyAddsUpIff(ReportedSession(r, i).connections);
  }

  ghost predicate Unreplaced(r: Run, sid: string, i: nat, j: nat)
    requires j <= |r.events|
  {
    forall k :: i <= k < j ==> !Recreates(r.events[k], sid)
  }

  /** Calls on a session are only ever added to its history. */
  lemma {:induction false} CallsGrow(r: Run, sid: string, i: nat, j: nat)
    requires IsRun(r) && i <= j < |r.states| && Unreplaced(r, sid, i, j)
    ensures CallsOn(r, sid, i) <= CallsOn(r, sid, j)
  {
    if i < j {
      CallsGrow(r, sid, i, j - 1);
      CallsKept(r, sid, j);
      PrefixTransitive(CallsOn(r, sid, i), CallsOn(r, sid, j - 1), CallsOn(r, sid, j));
    }
  }

  lemma CallsKept(r: Run, sid: string, j: nat)
    requires IsRun(r) && 0 < j < |r.states| && !Recreates(r.events[j - 1], sid)
    ensures CallsOn(r, sid, j - 1) <= CallsOn(r, sid, j)
  {
    PrefixOfSum(CallsOn(r, sid, j - 1), CallBy(r.states[j - 1], r.events[j - 1], sid));
  }

  lemma PrefixOfSum<T>(a: seq<T>, b: seq<T>)
    ensures a <= a + b
  {
  }

  lemma PrefixTransitive<T>(a: seq<T>, b: seq<T>, c: seq<T>)
    requires a <= b && b <= c
    ensures a <= c
  {
  }

  lemma ElapsedOfPhase(v: SessionView, w: SessionView, now: int)
    requires Phase(v) == Phase(w)
    ensures ReportedElapsed(v, now) == ReportedElapsed(w, now)
  {
  }

  /** Two replies on one incarnation of a session, as calls of its own history. */
  ghost predicate SameIncarnation(r: Run, sid: string, i: nat, j: nat) {
    && IsRun(r) && i <= j < |r.events| && r.events[i].StatsEnd? && r.events[j].StatsEnd?
    && Serves(r.states[i], r.events[i].call, sid) && Serves(r.states[j], r.events[j].call, sid)
    && Unreplaced(r, sid, i, j)
  }

  lemma CallOfReply(r: Run, sid: string, i: nat)
    requires IsRun(r) && i < |r.events| && r.events[i].StatsEnd? && Serves(r.states[i], r.events[i].call, sid)
    ensures CallsOn(r, sid, i + 1) == CallsOn(r, sid, i) + [Lifecycle.StatsCall(r.events[i].now)]
  {
  }

  /** The item follows these in the longer sequence. */
  ghost predicate Recorded<T>(before: seq<T>, x: T, all: seq<T>) {
    |before| < |all| && all[..|before|] == before && all[|before|] == x
  }

  lemma RecordedNow<T>(before: seq<T>, x: T, all: seq<T>)
    requires all == before + [x]
    ensures Recorded(before, x, all)
  {
  }

  lemma RecordedLonger<T>(before: seq<T>, x: T, all: seq<T>, more: seq<T>)
    requires Recorded(before, x, all) && all <= more
    ensures Recorded(before, x, more)
  {
    assert more[..|before|] == all[..|before|];
    assert more[|before|] == all[|before|];
  }

  lemma {:induction false} ReplyRecorded(r: Run, sid: string, i: nat, n: nat)
    requires IsRun(r) && i < n < |r.states| && r.events[i].StatsEnd? && Serves(r.states[i], r.events[i].call, sid)
    requires Unreplaced(r, sid, i + 1, n)
    ensures Recorded(CallsOn(r, sid, i), Lifecycle.StatsCall(r.events[i].now), CallsOn(r, sid, n))
    decreases n
  {
    var x := Lifecycle.StatsCall(r.events[i].now);
    if n == i + 1 {
      CallOfReply(r, sid, i);
      RecordedNow(CallsOn(r, sid, i), x, CallsOn(r, sid, n));
    } else {
      ReplyRecorded(r, sid, i, n - 1);
      CallsKept(r, sid, n);
      RecordedLonger(CallsOn(r, sid, i), x, CallsOn(r, sid, n - 1), CallsOn(r, sid, n));
    }
  }

  /** What event i replies is what a statistics call at position a of the history reports. */
  ghost predicate RepliesTo(r: Run, i: nat, v: SessionView, calls: seq<Lifecycle.Call>, a: nat)
    requires IsRun(r) && i < |r.events| && r.events[i].StatsEnd?
  {
    a < |calls| && ReplyAt(r, i).elapsedTime == ReportedElapsed(Lifecycle.After(v, calls[..a]), calls[a].now)
  }

  lemma ReplyOfCall(r: Run, i: nat, v: SessionView, before: seq<Lifecycle.Call>, calls: seq<Lifecycle.Call>)
    requires IsRun(r) && i < |r.events| && r.events[i].StatsEnd?
    requires Recorded(before, Lifecycle.StatsCall(r.events[i].now), calls)
    requires ReplyAt(r, i).elapsedTime == ReportedElapsed(Lifecycle.After(v, before), r.events[i].now)
    ensures RepliesTo(r, i, v, calls, |before|)
  {
  }

  /** A reply is that of the statistics call it serves, in the session's history up to any later state. */
  lemma ReplyInHistory(r: Run, sid: string, i: nat, n: nat, v: SessionView)
    requires IsRun(r) && i < n < |r.states| && r.events[i].StatsEnd? && Serves(r.states[i], r.events[i].call, sid)
    requires Unreplaced(r, sid, i + 1, n) && Lifecycle.JustCreated(v)
    ensures RepliesTo(r, i, v, CallsOn(r, sid, n), |CallsOn(r, sid, i)|)
  {
    ReplyRecorded(r, sid, i, n);
    ElapsedInReply(r, sid, i, v);
    ReplyOfCall(r, i, v, CallsOn(r, sid, i), CallsOn(r, sid, n));
  }

  lemma EarlierReply(r: Run, sid: string, i: nat, j: nat, v: SessionView)
    requires SameIncarnation(r, sid, i, j) && Lifecycle.JustCreated(v)
    ensures |CallsOn(r, sid, i)| <= |CallsOn(r, sid, j)|
    ensures RepliesTo(r, i, v, CallsOn(r, sid, j + 1), |CallsOn(r, sid, i)|)
  {
    CallsGrow(r, sid, i, j);
    ReplyInHistory(r, sid, i, j + 1, v);
  }

  lemma LaterReply(r: Run, sid: string, i: nat, j: nat, v: SessionView)
    requires SameIncarnation(r, sid, i, j) && Lifecycle.JustCreated(v)
    ensures RepliesTo(r, j, v, CallsOn(r, sid, j + 1), |CallsOn(r, sid, j)|)
  {
    ReplyInHistory(r, sid, j, j + 1, v);
  }

  /** Replies on one incarnation of a session: while its clock readings do not decrease, neither
      does the elapsed time that successive replies report. */
  lemma RepliesNeverGoBack(r: Run, sid: string, i: nat, j: nat)
    requires SameIncarnation(r, sid, i, j) && Lifecycle.ClockForward(CallsOn(r, sid, j + 1))
    ensures ReplyAt(r, i).elapsedTime <= ReplyAt(r, j).elapsedTime
  {
    var v := NewSession(sid, "", 0, 0);
    EarlierReply(r, sid, i, j, v);
    LaterReply(r, sid, i, j, v);
    Lifecycle.ElapsedNeverDecreases(v, CallsOn(r, sid, j + 1), |CallsOn(r, sid, i)|, |CallsOn(r, sid, j)|);
  }

  /** Exactly when they go back, under any clock. */
  lemma RepliesGoBackIff(r: Run, sid: string, i: nat, j: nat, start: nat, stop: nat)
    requires SameIncarnation(r, sid, i, j) && Lifecycle.Phases(CallsOn(r, sid, j + 1), start, stop)
    ensures var a, b, calls := |CallsOn(r, sid, i)|, |CallsOn(r, sid, j)|, CallsOn(r, sid, j + 1);
            && a <= b < |calls|
            && (ReplyAt(r, j).elapsedTime < ReplyAt(r, i).elapsedTime <==>
                && start < a <= stop
                && Lifecycle.WholeSeconds(calls[start].now, calls[if stop < b then stop else b].now)
                   < Lifecycle.WholeSeconds(calls[start].now, calls[a].now))
  {
    var v := NewSession(sid, "", 0, 0);
    EarlierReply(r, sid, i, j, v);
    LaterReply(r, sid, i, j, v);
    Lifecycle.ElapsedGoesBackIff(v, CallsOn(r, sid, j + 1), start, stop, |CallsOn(r, sid, i)|, |CallsOn(r, sid, j)|);
  }

  lemma ElapsedInReply(r: Run, sid: string, i: nat, v: SessionView)
    requires IsRun(r) && i < |r.events| && r.events[i].StatsEnd? && Serves(r.states[i], r.events[i].call, sid)
    requires Lifecycle.JustCreated(v)
    ensures ReplyAt(r, i).elapsedTime == ReportedElapsed(Lifecycle.After(v, CallsOn(r, sid, i)), r.events[i].now)
  {
    assert StepAt(r, i);
    PhaseInRun(r, sid, i, v);
    ElapsedOfPhase(r.states[i].sessions[sid], Lifecycle.After(v, CallsOn(r, sid, i)), r.events[i].now);
  }

  // ---- observers ----

  /** Observer requests on this connection that succeeded since it was last inserted. */
  ghost function Observed(r: Run, sid: string, k: string, i: nat): nat
    requires IsRun(r) && i < |r.states|
  {
    if i == 0 || Recreates(r.events[i - 1], sid) || Inserts(r.states[i - 1], r.events[i - 1], sid, k) then 0
    else Observed(r, sid, k, i - 1) + if HandsOver(r.states[i - 1], r.events[i - 1], sid, k) then 1 else 0
  }

  predicate Inserts(st: State, e: Event, sid: string, k: string) {
    && e.CreateInsert? && e.call in st.requests && st.requests[e.call].Built?
    && st.requests[e.call].sid == sid && st.requests[e.call].connection.id == k
  }

  /** The step completes an observer request: the ICE receiver was still there to take. */
  predicate HandsOver(st: State, e: Event, sid: string, k: string) {
    && e.ObserveIce? && ObserverReady(st, e.call) && HoldsPeer(st.requests[e.call], sid, k)
    && st.sessions[sid].connections[k].iceCandidatesRx.Some?
  }

  lemma IceStands(st: State, e: Event, sid: string, k: string)
    requires Enabled(st, e) && sid in Apply(st, e).sessions && k in Apply(st, e).sessions[sid].connections
    requires !Recreates(e, sid) && !Inserts(st, e, sid, k)
    ensures sid in st.sessions && k in st.sessions[sid].connections
    ensures Apply(st, e).sessions[sid].connections[k].iceCandidatesRx ==
            if HandsOver(st, e, sid, k) then None else st.sessions[sid].connections[k].iceCandidatesRx
  {
  }

  /** At most one observer request succeeds per connection, and one has exactly when its receivers are gone. */
  lemma {:induction false} SingleObserver(r: Run, sid: string, k: string, i: nat)
    requires IsRun(r) && i < |r.states| && sid in r.states[i].sessions && k in r.states[i].sessions[sid].connections
    ensures Observed(r, sid, k, i) == if r.states[i].sessions[sid].connections[k].iceCandidatesRx.None? then 1 else 0
  {
    if i > 0 {
      var st, e := r.states[i - 1], r.events[i - 1];
      assert StepAt(r, i - 1);
      RunInv(r, i - 1);
      if Inserts(st, e, sid, k) {
        assert RequestFits(Own(st, e.call), st.requests[e.call]);
      } else if !Recreates(e, sid) {
        IceStands(st, e, sid, k);
        SingleObserver(r, sid, k, i - 1);
      }
    }
  }

  /** While no request is handing a connection over, its two receivers are both there or both taken. */
  lemma ReceiversTogether(r: Run, sid: string, k: string, i: nat)
    requires IsRun(r) && i < |r.states| && sid in r.states[i].sessions && k in r.states[i].sessions[sid].connections
    requires !HandingOver(r.states[i], sid, k)
    ensures var c := r.states[i].sessions[sid].connections[k];
            c.videoTrackRx.Some? <==> c.iceCandidatesRx.Some?
  {
    RunInv(r, i);
    assert ReceiversPaired(r.states[i]);
  }

  /** An observer that got the video receiver always gets the ICE receiver too. */
  lemma HandOverCompletes(r: Run, i: nat)
    requires IsRun(r) && i < |r.events| && r.events[i].ObserveIce?
    ensures ObserverReady(r.states[i], r.events[i].call)
    ensures Own(r.states[i], r.events[i].call).connections[r.states[i].requests[r.events[i].call].peerId].iceCandidatesRx.Some?
  {
    RunInv(r, i);
    assert StepAt(r, i);
    assert RequestFits(Own(r.states[i], r.events[i].call), r.states[i].requests[r.events[i].call]);
  }

  // ---- the metrics schedule ----

  /** Passes of the metrics loop that end between states i and j. */
  ghost function PassEnds(r: Run, i: nat, j: nat): nat
    requires IsRun(r) && i <= j < |r.states|
  {
    if i == j then 0 else PassEnds(r, i, j - 1) + if r.events[j - 1].PassEnd? then 1 else 0
  }

  lemma StillSessions(r: Run, i: nat, j: nat)
    requires IsRun(r) && i <= j < |r.states| && r.states[i].sessions.Keys != {}
    ensures r.states[j].sessions.Keys != {}
  {
    SessionsKept(r, i, j);
  }

  lemma CounterGrowsOnce(r: Run, j: nat)
    requires IsRun(r) && 0 < j < |r.states| && r.states[j - 1].sessions.Keys != {}
    ensures r.states[j].elapsed == r.states[j - 1].elapsed + if r.events[j - 1].PassEnd? then 1 else 0
  {
    assert StepAt(r, j - 1);
    CounterStep(r.states[j - 1], r.events[j - 1]);
  }

  /** Once a session exists the counter grows by one on every pass and never restarts. */
  lemma {:induction false} CounterGrows(r: Run, i: nat, j: nat)
    requires IsRun(r) && i <= j < |r.states| && r.states[i].sessions.Keys != {}
    ensures r.states[j].elapsed == r.states[i].elapsed + PassEnds(r, i, j)
  {
    if i < j {
      CounterGrows(r, i, j - 1);
      StillSessions(r, i, j - 1);
      CounterGrowsOnce(r, j);
    }
  }

  lemma CounterStep(st: State, e: Event)
    requires Enabled(st, e)
    ensures !e.PassEnd? ==> Apply(st, e).elapsed == st.elapsed
    ensures e.PassEnd? ==> Apply(st, e).elapsed == if st.sessions.Keys != {} then st.elapsed + 1 else 1
  {
  }

  /** Until then it reads 1 at every pass. */
  lemma {:induction false} CounterStartsAtOne(r: Run, j: nat)
    requires IsRun(r) && j < |r.states|
    ensures r.states[j].sessions.Keys == {} ==> r.states[j].elapsed == 1
    ensures r.states[j].elapsed >= 1
  {
    if j > 0 {
      CounterStartsAtOne(r, j - 1);
      assert StepAt(r, j - 1);
      CounterStep(r.states[j - 1], r.events[j - 1]);
      StepKeepsSessions(r.states[j - 1], r.events[j - 1]);
    }
  }

  predicate ZeroPeriodVisit(st: State, e: Event) {
    e.VisitBegin? && e.sid in st.sessions && st.sessions[e.sid].pollingStateS == 0
  }

  /** The metrics task is dead exactly when it has visited a session with polling period 0. */
  lemma {:induction false} MetricsDieIff(r: Run, i: nat)
    requires IsRun(r) && i < |r.states|
    ensures r.states[i].metrics.Crashed? <==> exists k :: 0 <= k < i && ZeroPeriodVisit(r.states[k], r.events[k])
  {
    if i > 0 {
      var st, e := r.states[i - 1], r.events[i - 1];
      MetricsDieIff(r, i - 1);
      assert StepAt(r, i - 1);
      DeathStep(st, e);
      assert ZeroPeriodVisit(st, e) ==> ZeroPeriodVisit(r.states[i - 1], r.events[i - 1]);
    }
  }

  lemma DeathStep(st: State, e: Event)
    requires Enabled(st, e)
    ensures Apply(st, e).metrics.Crashed? <==> st.metrics.Crashed? || ZeroPeriodVisit(st, e)
  {
  }

  /** And dead it can be: one session of period 0 and one tick are enough. */
  lemma ZeroPeriodKills(sid: string, name: string, factoryCount: nat) returns (r: Run)
    ensures IsRun(r) && r.events == [CreateSession(sid, name, 0, factoryCount), PassBegin, VisitBegin(sid)]
    ensures r.states[3].metrics.Crashed?
  {
    var st1 := Apply(INIT, CreateSession(sid, name, 0, factoryCount));
    var st2 := Apply(st1, PassBegin);
    var st3 := Apply(st2, VisitBegin(sid));
    r := Run([INIT, st1, st2, st3], [CreateSession(sid, name, 0, factoryCount), PassBegin, VisitBegin(sid)]);
    assert StepAt(r, 0) && StepAt(r, 1) && StepAt(r, 2);
  }

  ghost predicate PositivePeriods(r: Run, i: nat)
    requires IsRun(r) && i < |r.states|
  {
    forall k :: 0 <= k < i && r.events[k].CreateSession? ==> r.events[k].pollingStateS > 0
  }

  lemma PeriodsStep(st: State, e: Event)
    requires Enabled(st, e) && (e.CreateSession? ==> e.pollingStateS > 0)
    requires forall sid :: sid in st.sessions ==> st.sessions[sid].pollingStateS > 0
    ensures forall sid :: sid in Apply(st, e).sessions ==> Apply(st, e).sessions[sid].pollingStateS > 0
  {
    forall sid | sid in Apply(st, e).sessions ensures Apply(st, e).sessions[sid].pollingStateS > 0 {
      if !Recreates(e, sid) {
        SessionOlder(st, e, sid);
        PeriodStands(st, e, sid);
      }
    }
  }

  /** While every client asks for a positive period, the task stays alive. */
  lemma {:induction false} PositivePeriodsKeepAlive(r: Run, i: nat)
    requires IsRun(r) && i < |r.states| && PositivePeriods(r, i)
    ensures !r.states[i].metrics.Crashed?
    ensures forall sid :: sid in r.states[i].sessions ==> r.states[i].sessions[sid].pollingStateS > 0
  {
    if i > 0 {
      var st, e := r.states[i - 1], r.events[i - 1];
      PositivePeriodsKeepAlive(r, i - 1);
      assert StepAt(r, i - 1);
      DeathStep(st, e);
      PeriodsStep(st, e);
    }
  }

  /** A session of period 0 that is not replaced lets no pass end that has it still to visit. */
  lemma {:induction false} ZeroPeriodBlocks(r: Run, sid: string, i: nat, j: nat)
    requires IsRun(r) && i <= j < |r.states| && Persists(r, sid, i, j) && r.states[i].sessions[sid].pollingStateS == 0
    requires Awaits(r.states[i].metrics, sid) && !Visited(r.states[i].metrics, sid)
    ensures PassEnds(r, i, j) == 0
    ensures r.states[j].metrics.Crashed? || (Awaits(r.states[j].metrics, sid) && !Visited(r.states[j].metrics, sid))
    decreases j
  {
    if i < j {
      ZeroPeriodBlocks(r, sid, i, j - 1);
      SessionPersists(r, sid, i, j - 1);
      assert StepAt(r, j - 1);
      BlockedStep(r.states[j - 1], r.events[j - 1], sid);
    }
  }

  lemma BlockedStep(st: State, e: Event, sid: string)
    requires Enabled(st, e) && sid in st.sessions && st.sessions[sid].pollingStateS == 0
    requires st.metrics.Crashed? || (Awaits(st.metrics, sid) && !Visited(st.metrics, sid))
    ensures !e.PassEnd?
    ensures Apply(st, e).metrics.Crashed? || (Awaits(Apply(st, e).metrics, sid) && !Visited(Apply(st, e).metrics, sid))
  {
  }

  /** A pass that begins at state i and, with no session created meanwhile, is over by state j
      has killed the task exactly if at its beginning some session had polling period 0. */
  lemma PassDiesIff(r: Run, i: nat, j: nat)
    requires IsRun(r) && i <= j < |r.states| && r.states[i].metrics.Waiting?
    requires forall k :: i <= k < j ==> !r.events[k].CreateSession?
    requires PassEnds(r, i, j) > 0 || r.states[j].metrics.Crashed?
    ensures r.states[j].metrics.Crashed? <==>
            exists sid :: sid in r.states[i].sessions && r.states[i].sessions[sid].pollingStateS == 0
  {
    if r.states[j].metrics.Crashed? {
      var sid := KillerOf(r, i, j);
      assert r.states[i].sessions[sid].pollingStateS == 0;
    }
    forall sid | sid in r.states[i].sessions && r.states[i].sessions[sid].pollingStateS == 0 ensures r.states[j].metrics.Crashed? {
      ZeroPeriodBlocks(r, sid, i, j);
    }
  }

  lemma {:induction false} KillerOf(r: Run, i: nat, j: nat) returns (sid: string)
    requires IsRun(r) && i <= j < |r.states| && !r.states[i].metrics.Crashed? && r.states[j].metrics.Crashed?
    requires forall k :: i <= k < j ==> !r.events[k].CreateSession?
    ensures sid in r.states[i].sessions && r.states[i].sessions[sid].pollingStateS == 0
    decreases j
  {
    var st, e := r.states[j - 1], r.events[j - 1];
    assert StepAt(r, j - 1);
    DeathStep(st, e);
    if st.metrics.Crashed? {
      sid := KillerOf(r, i, j - 1);
    } else {
      sid := e.sid;
      SessionBefore(r, sid, i, j - 1);
    }
  }

  lemma {:induction false} SessionBefore(r: Run, sid: string, i: nat, j: nat)
    requires IsRun(r) && i <= j < |r.states| && sid in r.states[j].sessions
    requires forall k :: i <= k < j ==> !r.events[k].CreateSession?
    ensures sid in r.states[i].sessions
    ensures r.states[i].sessions[sid].pollingStateS == r.states[j].sessions[sid].pollingStateS
    decreases j
  {
    if i < j {
      assert StepAt(r, j - 1);
      SessionOlder(r.states[j - 1], r.events[j - 1], sid);
      PeriodStands(r.states[j - 1], r.events[j - 1], sid);
      SessionBefore(r, sid, i, j - 1);
    }
  }

  /** Visits that poll the states of this session's connections, between states i and j. */
  ghost function Polls(r: Run, sid: string, i: nat, j: nat): nat
    requires IsRun(r) && i <= j < |r.states|
  {
    if i == j then 0 else Polls(r, sid, i, j - 1) + if PollingVisit(r.events[j - 1], r.states[j], sid) then 1 else 0
  }

  /** The step begins a visit to the session that samples its connections. */
  predicate PollingVisit(e: Event, next: State, sid: string) {
    e.VisitBegin? && e.sid == sid && next.metrics.Visiting? && next.metrics.poll
  }

  /** The session is not replaced between states i and j. */
  ghost predicate Persists(r: Run, sid: string, i: nat, j: nat)
    requires IsRun(r) && i <= j < |r.states|
  {
    sid in r.states[i].sessions && forall k :: i <= k < j ==> !Recreates(r.events[k], sid)
  }

  /** The pass under way has been to the session already. */
  predicate Visited(m: Metrics, sid: string) {
    (m.InPass? || m.Visiting?) && sid in m.done
  }

  /** The pass under way has been to the session or will not end without it. */
  predicate Awaits(m: Metrics, sid: string) {
    (m.InPass? || m.Visiting?) ==> sid in m.due || sid in m.done
  }

  predicate Multiple(e: nat, p: nat)
    requires p > 0
  {
    e % p == 0
  }

  /** How many of the counter values 1..e-1 are multiples of p. */
  function MultiplesBelow(e: nat, p: nat): nat
    requires p > 0
  {
    if e <= 1 then 0 else MultiplesBelow(e - 1, p) + if Multiple(e - 1, p) then 1 else 0
  }

  lemma DivisionStep(e: nat, p: nat)
    requires e >= 1 && p > 0
    ensures e / p == (e - 1) / p + if Multiple(e, p) then 1 else 0
  {
    var q, s := (e - 1) / p, (e - 1) % p;
    assert e == p * q + s + 1;
    if s + 1 == p {
      assert e == p * (q + 1) by { Counts.Distribute(p, q, 1); }
      Counts.QuotientUnique(e, p, q + 1, 0);
    } else {
      Counts.QuotientUnique(e, p, q, s + 1);
    }
  }

  lemma {:induction false} MultiplesAreQuotient(e: nat, p: nat)
    requires e >= 1 && p > 0
    ensures MultiplesBelow(e, p) == (e - 1) / p
  {
    if e > 1 {
      MultiplesAreQuotient(e - 1, p);
      DivisionStep(e - 1, p);
    } else {
      Counts.QuotientUnique(0, p, 0, 0);
    }
  }

  lemma QuotientOfNext(x: nat, p: nat)
    requires p > 0
    ensures (x + p) / p == x / p + 1
  {
    Counts.Distribute(p, x / p, 1);
    Counts.QuotientUnique(x + p, p, x / p + 1, x % p);
  }

  /** How many of the n counter values from e on are multiples of p. */
  function MultiplesMet(e: nat, n: nat, p: nat): (polls: int)
    requires e >= 1 && p > 0
    ensures MultiplesBelow(e, p) + polls == MultiplesBelow(e + n, p)
  {
    MultiplesAreQuotient(e, p);
    MultiplesAreQuotient(e + n, p);
    (e + n - 1) / p - (e - 1) / p
  }

  lemma OneMultipleMet(e: nat, p: nat)
    requires e >= 1 && p > 0
    ensures MultiplesMet(e, p, p) == 1
  {
    QuotientOfNext(e - 1, p);
  }

  lemma SessionPersists(r: Run, sid: string, i: nat, j: nat)
    requires IsRun(r) && i <= j < |r.states| && Persists(r, sid, i, j)
    ensures sid in r.states[j].sessions
    ensures r.states[j].sessions[sid].pollingStateS == r.states[i].sessions[sid].pollingStateS
    decreases j
  {
    if i < j {
      SessionPersists(r, sid, i, j - 1);
      assert StepAt(r, j - 1);
      PeriodStands(r.states[j - 1], r.events[j - 1], sid);
    }
  }

  lemma PeriodStands(st: State, e: Event, sid: string)
    requires Enabled(st, e) && sid in st.sessions && !Recreates(e, sid)
    ensures sid in Apply(st, e).sessions && Apply(st, e).sessions[sid].pollingStateS == st.sessions[sid].pollingStateS
  {
  }

  /** Polls made from state i on, if every visit falls due: those of the passes that are over,
      and that of this pass if it has been to the session. */
  function PollsDue(st: State, sid: string, p: nat): nat
    requires p > 0
  {
    MultiplesBelow(st.elapsed, p) + if Visited(st.metrics, sid) && Multiple(st.elapsed, p) then 1 else 0
  }

  lemma PollsDueStep(st: State, e: Event, sid: string, p: nat)
    requires Enabled(st, e) && sid in st.sessions && !Apply(st, e).metrics.Crashed? && Awaits(st.metrics, sid)
    requires p > 0 && st.sessions[sid].pollingStateS == p && st.elapsed >= 1
    ensures PollsDue(Apply(st, e), sid, p) == PollsDue(st, sid, p) + if PollingVisit(e, Apply(st, e), sid) then 1 else 0
  {
  }

  lemma {:induction false} PollsSoFar(r: Run, sid: string, i: nat, j: nat)
    requires IsRun(r) && i <= j < |r.states| && Persists(r, sid, i, j)
    requires r.states[i].metrics.Waiting? && r.states[i].sessions[sid].pollingStateS > 0
    requires !r.states[j].metrics.Crashed?
    ensures Awaits(r.states[j].metrics, sid)
    ensures var p := r.states[i].sessions[sid].pollingStateS;
            PollsDue(r.states[i], sid, p) + Polls(r, sid, i, j) == PollsDue(r.states[j], sid, p)
    decreases j
  {
    if i < j {
      var st, e := r.states[j - 1], r.events[j - 1];
      assert StepAt(r, j - 1);
      DeathStep(st, e);
      PollsSoFar(r, sid, i, j - 1);
      CounterStartsAtOne(r, j - 1);
      SessionPersists(r, sid, i, j - 1);
      PollsDueStep(st, e, sid, r.states[i].sessions[sid].pollingStateS);
      PollsStep(st, e, sid);
    }
  }

  /** How one step moves the counter and the visit marks. */
  lemma PollsStep(st: State, e: Event, sid: string)
    requires Enabled(st, e) && sid in st.sessions && !Apply(st, e).metrics.Crashed? && Awaits(st.metrics, sid)
    ensures !st.metrics.Crashed? && Awaits(Apply(st, e).metrics, sid)
    ensures e.PassEnd? ==> Visited(st.metrics, sid) && !Visited(Apply(st, e).metrics, sid) && Apply(st, e).elapsed == st.elapsed + 1
    ensures !e.PassEnd? ==> Apply(st, e).elapsed == st.elapsed
    ensures e.VisitBegin? && e.sid == sid ==> !Visited(st.metrics, sid) && Visited(Apply(st, e).metrics, sid)
    ensures !e.PassEnd? && !(e.VisitBegin? && e.sid == sid) ==> (Visited(Apply(st, e).metrics, sid) <==> Visited(st.metrics, sid))
  {
  }

  /** Between two passes, the polls made are the multiples of the period that the counter has met. */
  lemma PollsBetweenPasses(r: Run, sid: string, i: nat, j: nat)
    requires IsRun(r) && i <= j < |r.states| && Persists(r, sid, i, j)
    requires r.states[i].metrics.Waiting? && r.states[j].metrics.Waiting? && r.states[i].sessions[sid].pollingStateS > 0
    ensures var p := r.states[i].sessions[sid].pollingStateS;
            MultiplesBelow(r.states[i].elapsed, p) + Polls(r, sid, i, j) == MultiplesBelow(r.states[j].elapsed, p)
  {
    PollsSoFar(r, sid, i, j);
  }

  lemma CounterAfterPasses(r: Run, sid: string, i: nat, j: nat)
    requires IsRun(r) && i <= j < |r.states| && sid in r.states[i].sessions
    ensures r.states[i].elapsed >= 1 && r.states[j].elapsed == r.states[i].elapsed + PassEnds(r, i, j)
  {
    assert sid in r.states[i].sessions.Keys;
    CounterGrows(r, i, j);
    CounterStartsAtOne(r, i);
  }

  lemma MetBetween(e: nat, n: nat, last: nat, p: nat, polls: int)
    requires e >= 1 && last == e + n && p > 0 && MultiplesBelow(e, p) + polls == MultiplesBelow(last, p)
    ensures polls == MultiplesMet(e, n, p)
  {
  }

  /** State i is one of the session that event c created, which is not replaced up to state j. */
  ghost predicate CreatedBy(r: Run, sid: string, c: nat, i: nat, j: nat) {
    && IsRun(r) && c < i <= j < |r.states| && Recreates(r.events[c], sid)
    && (forall k :: c < k < j ==> !Recreates(r.events[k], sid))
  }

  lemma IdentityStands(st: State, e: Event, sid: string)
    requires Enabled(st, e) && sid in st.sessions && !Recreates(e, sid)
    ensures sid in Apply(st, e).sessions
    ensures var v, w := st.sessions[sid], Apply(st, e).sessions[sid];
            w.id == v.id && w.name == v.name && w.pollingStateS == v.pollingStateS && |w.counts| == |v.counts|
  {
  }

  lemma IdentityGiven(st: State, e: Event, sid: string)
    requires Enabled(st, e) && Recreates(e, sid)
    ensures sid in Apply(st, e).sessions
    ensures var w := Apply(st, e).sessions[sid];
            && w.id == sid && w.name == e.name && w.pollingStateS == e.pollingStateS
            && (e.factoryCount < 0x1_0000_0000 ==> |w.counts| == e.factoryCount)
            && w.state == Created && w.startTime == None && w.stopTime == None && w.connections == map[]
            && forall f :: 0 <= f < |w.counts| ==> w.counts[f] == 0
  {
  }

  /** A session has the name, the period and the factories that the request that created it asked for. */
  lemma {:induction false} SessionAsRequested(r: Run, sid: string, c: nat, j: nat)
    requires CreatedBy(r, sid, c, j, j)
    ensures sid in r.states[j].sessions
    ensures var v, e := r.states[j].sessions[sid], r.events[c];
            && v.id == sid && v.name == e.name && v.pollingStateS == e.pollingStateS
            && (e.factoryCount < 0x1_0000_0000 ==> |v.counts| == e.factoryCount)
    decreases j
  {
    assert StepAt(r, j - 1);
    if c == j - 1 {
      IdentityGiven(r.states[j - 1], r.events[j - 1], sid);
    } else {
      SessionAsRequested(r, sid, c, j - 1);
      IdentityStands(r.states[j - 1], r.events[j - 1], sid);
    }
  }

  /** Over n whole passes a session that was created with period p is polled exactly as often as
      the counter meets a multiple of p. */
  lemma PollingFrequency(r: Run, sid: string, c: nat, i: nat, j: nat)
    requires CreatedBy(r, sid, c, i, j) && r.events[c].pollingStateS > 0
    requires r.states[i].metrics.Waiting? && r.states[j].metrics.Waiting?
    ensures var p, e, n := r.events[c].pollingStateS, r.states[i].elapsed, PassEnds(r, i, j);
            e >= 1 && Polls(r, sid, i, j) == MultiplesMet(e, n, p)
  {
    SessionAsRequested(r, sid, c, i);
    PollsBetweenPasses(r, sid, i, j);
    CounterAfterPasses(r, sid, i, j);
    MetBetween(r.states[i].elapsed, PassEnds(r, i, j), r.states[j].elapsed, r.events[c].pollingStateS, Polls(r, sid, i, j));
  }

  /** As many consecutive passes as the period has seconds poll the session exactly once. */
  lemma OnePollPerPeriod(r: Run, sid: string, c: nat, i: nat, j: nat)
    requires CreatedBy(r, sid, c, i, j) && PassEnds(r, i, j) == r.events[c].pollingStateS > 0
    requires r.states[i].metrics.Waiting? && r.states[j].metrics.Waiting?
    ensures Polls(r, sid, i, j) == 1
  {
    PollingFrequency(r, sid, c, i, j);
    OneMultipleMet(r.states[i].elapsed, r.events[c].pollingStateS);
  }
}
