/** The metrics loop, run undisturbed, is one of the behaviours of the concurrent server. */
module ServerPass {
  import opened Sessions
  import opened Server
  import opened ServerSequential
  import Data

  // ---- one visit ----

  /** The counter says that a visit now samples the session's connections. */
  predicate FallsDue(st: State, sid: string)
    requires sid in st.sessions && st.sessions[sid].pollingStateS > 0
  {
    st.elapsed % st.sessions[sid].pollingStateS == 0
  }

  /** The server while the task has exported some connections of the session. */
  ghost function MidVisit(st: State, sid: string, reports: Data.Reports, visited: seq<string>): State
    requires st.metrics.InPass? && sid in st.sessions && st.sessions[sid].pollingStateS > 0
  {
    var v, m, poll := st.sessions[sid], st.metrics, FallsDue(st, sid);
    PutSession(st, v.(connections := ExportVisited(v.connections, visited, reports, poll)), sid)
      .(metrics := Visiting(m.due, m.done + {sid}, sid, poll, v.connections.Keys, Elements(visited)))
  }

  /** The task may visit the session, and nobody keeps it from any connection. */
  ghost predicate Visitable(st: State, sid: string) {
    && st.metrics.InPass? && sid in st.sessions && sid !in st.metrics.done && st.sessions[sid].pollingStateS > 0
    && Shareable(st, sid) && forall k :: PeerFree(st, sid, k)
  }

  lemma SoloExport(st: State, sid: string, order: seq<string>, reports: Data.Reports, j: nat)
    requires Visitable(st, sid) && Enumerates(order, st.sessions[sid].connections.Keys) && j < |order|
    requires st.sessions[sid].connections.Keys <= reports.Keys
    ensures order[j] in reports
    ensures Follows(MidVisit(st, sid, reports, order[..j]), ExportOne(order[j], reports[order[j]]),
                    MidVisit(st, sid, reports, order[..j + 1]))
  {
    var k := order[j];
    assert k in order && k !in order[..j];
    assert order[..j + 1] == order[..j] + [k];
    assert Elements(order[..j + 1]) == Elements(order[..j]) + {k};
    ExportVisitedExtends(st.sessions[sid].connections, order, j, reports, FallsDue(st, sid));
    var before, after := MidVisit(st, sid, reports, order[..j]), MidVisit(st, sid, reports, order[..j + 1]);
    assert PeerFree(st, sid, k);
    assert Server.Enabled(before, ExportOne(k, reports[k]));
    assert Server.SessionsAfter(before, ExportOne(k, reports[k])) == after.sessions;
  }

  lemma VisitBegins(st: State, sid: string, reports: Data.Reports)
    requires Visitable(st, sid)
    ensures Follows(st, VisitBegin(sid), MidVisit(st, sid, reports, []))
  {
    var v := st.sessions[sid];
    assert ExportVisited(v.connections, [], reports, FallsDue(st, sid)) == v.connections;
    assert st.sessions[sid := v] == st.sessions;
    assert Elements([]) == {};
    assert Server.Apply(st, VisitBegin(sid)) == MidVisit(st, sid, reports, []);
  }

  lemma {:induction false} SoloExports(st: State, sid: string, order: seq<string>, reports: Data.Reports, j: nat)
    returns (states: seq<State>, events: seq<Event>)
    requires Visitable(st, sid) && Enumerates(order, st.sessions[sid].connections.Keys) && j <= |order|
    requires st.sessions[sid].connections.Keys <= reports.Keys
    ensures Joins(states, events, st, MidVisit(st, sid, reports, order[..j]))
    decreases j
  {
    if j == 0 {
      VisitBegins(st, sid, reports);
      states, events := [st, MidVisit(st, sid, reports, [])], [VisitBegin(sid)];
    } else {
      states, events := SoloExports(st, sid, order, reports, j - 1);
      SoloExport(st, sid, order, reports, j - 1);
      states, events := Extend(states, events, st, MidVisit(st, sid, reports, order[..j - 1]),
                               ExportOne(order[j - 1], reports[order[j - 1]]), MidVisit(st, sid, reports, order[..j]));
    }
  }

  /** The server once the task has visited the session. */
  function AfterVisit(st: State, sid: string, reports: Data.Reports): State
    requires st.metrics.InPass? && sid in st.sessions && st.sessions[sid].pollingStateS > 0
  {
    PutSession(st, Data.Visit(st.sessions[sid], reports, st.elapsed), sid)
      .(metrics := InPass(st.metrics.due, st.metrics.done + {sid}))
  }

  /** Taken on its own, a visit of the metrics task does in the concurrent model exactly what the loop body does. */
  lemma SoloVisit(st: State, sid: string, order: seq<string>, reports: Data.Reports)
    returns (states: seq<State>, events: seq<Event>)
    requires Visitable(st, sid) && Enumerates(order, st.sessions[sid].connections.Keys)
    requires st.sessions[sid].connections.Keys <= reports.Keys
    ensures Joins(states, events, st, AfterVisit(st, sid, reports))
  {
    states, events := SoloExports(st, sid, order, reports, |order|);
    assert order[..|order|] == order;
    ExportVisitedAll(st.sessions[sid], order, reports, FallsDue(st, sid));
    VisitEnds(st, sid, order, reports);
    states, events := Extend(states, events, st, MidVisit(st, sid, reports, order), VisitEnd, AfterVisit(st, sid, reports));
  }

  lemma VisitEnds(st: State, sid: string, order: seq<string>, reports: Data.Reports)
    requires Visitable(st, sid) && Enumerates(order, st.sessions[sid].connections.Keys)
    ensures Follows(MidVisit(st, sid, reports, order), VisitEnd, AfterVisit(st, sid, reports))
  {
    assert order[..|order|] == order;
    ExportVisitedAll(st.sessions[sid], order, reports, FallsDue(st, sid));
  }

  // ---- one turn of the loop ----

  /** No request in flight keeps the task waiting. */
  ghost predicate Unhindered(st: State) {
    forall call :: call in st.requests ==>
      var q := st.requests[call]; !q.Tallying? && !q.Observing? && !q.ObservingIce?
  }

  /** The iteration orders and reports that a turn of the loop meets. */
  ghost predicate Fits(st: State, order: seq<string>, inputs: map<string, Data.Input>) {
    && Enumerates(order, st.sessions.Keys)
    && (forall sid :: sid in st.sessions ==>
          && sid in inputs && Enumerates(inputs[sid].order, st.sessions[sid].connections.Keys)
          && st.sessions[sid].connections.Keys <= inputs[sid].reports.Keys)
  }

  /** The sessions of which some have been visited in this turn. */
  ghost function SessionsVisited(sessions: map<string, SessionView>, inputs: map<string, Data.Input>, elapsed: nat,
                                 visited: seq<string>): map<string, SessionView>
  {
    map sid | sid in sessions ::
      if sid in visited && sid in inputs && sessions[sid].pollingStateS > 0
      then Data.Visit(sessions[sid], inputs[sid].reports, elapsed) else sessions[sid]
  }

  lemma SessionsVisitedExtends(sessions: map<string, SessionView>, inputs: map<string, Data.Input>, elapsed: nat,
                               order: seq<string>, j: nat)
    requires Enumerates(order, sessions.Keys) && j < |order| && order[j] in sessions && order[j] in inputs
    requires sessions[order[j]].pollingStateS > 0
    ensures var sid, before := order[j], SessionsVisited(sessions, inputs, elapsed, order[..j]);
            && before[sid] == sessions[sid]
            && SessionsVisited(sessions, inputs, elapsed, order[..j + 1])
               == before[sid := Data.Visit(sessions[sid], inputs[sid].reports, elapsed)]
  {
    assert order[j] !in order[..j];
    assert order[..j + 1] == order[..j] + [order[j]];
  }

  ghost function MidPass(st: State, inputs: map<string, Data.Input>, visited: seq<string>): State {
    State(SessionsVisited(st.sessions, inputs, st.elapsed, visited), st.requests, st.elapsed,
          InPass(st.sessions.Keys, Elements(visited)))
  }

  lemma UnhinderedVisit(st: State, sid: string)
    requires Unhindered(st)
    ensures Shareable(st, sid) && forall k :: PeerFree(st, sid, k)
  {
  }

  lemma NextVisit(st: State, order: seq<string>, inputs: map<string, Data.Input>, j: nat)
    requires Unhindered(st) && Enumerates(order, st.sessions.Keys) && j < |order| && order[j] in inputs
    requires order[j] in st.sessions && st.sessions[order[j]].pollingStateS > 0
    ensures var mid := MidPass(st, inputs, order[..j]);
            && Visitable(mid, order[j]) && mid.sessions[order[j]] == st.sessions[order[j]]
            && AfterVisit(mid, order[j], inputs[order[j]].reports) == MidPass(st, inputs, order[..j + 1])
  {
    var sid := order[j];
    SessionsVisitedExtends(st.sessions, inputs, st.elapsed, order, j);
    UnhinderedVisit(MidPass(st, inputs, order[..j]), sid);
    assert sid !in order[..j];
    assert order[..j + 1] == order[..j] + [sid];
    assert Elements(order[..j + 1]) == Elements(order[..j]) + {sid};
  }

  lemma PassBegins(st: State, inputs: map<string, Data.Input>)
    requires st.metrics.Waiting?
    ensures Follows(st, PassBegin, MidPass(st, inputs, []))
  {
    assert SessionsVisited(st.sessions, inputs, st.elapsed, []) == st.sessions;
    assert Elements([]) == {};
  }

  lemma {:induction false} SoloVisits(st: State, order: seq<string>, inputs: map<string, Data.Input>, j: nat)
    returns (states: seq<State>, events: seq<Event>)
    requires st.metrics.Waiting? && Unhindered(st) && Fits(st, order, inputs) && j <= |order|
    requires forall i :: 0 <= i < j ==> order[i] in st.sessions && st.sessions[order[i]].pollingStateS > 0
    ensures Joins(states, events, st, MidPass(st, inputs, order[..j]))
    decreases j
  {
    if j == 0 {
      PassBegins(st, inputs);
      states, events := [st, MidPass(st, inputs, [])], [PassBegin];
    } else {
      var before, sid := MidPass(st, inputs, order[..j - 1]), order[j - 1];
      var states0, events0 := SoloVisits(st, order, inputs, j - 1);
      NextVisit(st, order, inputs, j - 1);
      var states1, events1 := SoloVisit(before, sid, inputs[sid].order, inputs[sid].reports);
      states, events := Append(states0, events0, states1, events1, st, before, MidPass(st, inputs, order[..j]));
    }
  }

  /** Where a turn ends that visits n sessions: back to waiting if these are all, dead otherwise. */
  ghost function AfterPass(st: State, order: seq<string>, inputs: map<string, Data.Input>, n: nat): State
    requires n <= |order|
  {
    var sessions := SessionsVisited(st.sessions, inputs, st.elapsed, order[..n]);
    if n < |order| then State(sessions, st.requests, st.elapsed, Crashed)
    else State(sessions, st.requests, if |st.sessions| != 0 then st.elapsed + 1 else 1, Waiting)
  }

  lemma PassEnds(st: State, order: seq<string>, inputs: map<string, Data.Input>)
    requires Enumerates(order, st.sessions.Keys)
    ensures Follows(MidPass(st, inputs, order[..|order|]), PassEnd, AfterPass(st, order, inputs, |order|))
  {
    var mid := MidPass(st, inputs, order[..|order|]);
    assert order[..|order|] == order;
    assert mid.sessions.Keys == st.sessions.Keys;
    assert |mid.sessions.Keys| == |mid.sessions|;
  }

  lemma PassDies(st: State, order: seq<string>, inputs: map<string, Data.Input>, n: nat)
    requires Unhindered(st) && Enumerates(order, st.sessions.Keys) && n < |order|
    requires order[n] in st.sessions && st.sessions[order[n]].pollingStateS == 0
    ensures Follows(MidPass(st, inputs, order[..n]), VisitBegin(order[n]), AfterPass(st, order, inputs, n))
  {
    UnhinderedVisit(MidPass(st, inputs, order[..n]), order[n]);
    assert order[n] !in order[..n];
  }

  /** Taken on its own, a turn of the loop does in the concurrent model exactly what the
      sequential method does: it visits the sessions in order up to the first one with polling
      period 0, at which it dies. */
  lemma SoloPass(st: State, order: seq<string>, inputs: map<string, Data.Input>, n: nat)
    returns (states: seq<State>, events: seq<Event>)
    requires st.metrics.Waiting? && Unhindered(st) && Fits(st, order, inputs) && n <= |order|
    requires forall i :: 0 <= i < n ==> order[i] in st.sessions && st.sessions[order[i]].pollingStateS > 0
    requires n < |order| ==> order[n] in st.sessions && st.sessions[order[n]].pollingStateS == 0
    ensures Joins(states, events, st, AfterPass(st, order, inputs, n))
  {
    states, events := SoloVisits(st, order, inputs, n);
    var mid, end := MidPass(st, inputs, order[..n]), AfterPass(st, order, inputs, n);
    if n < |order| {
      PassDies(st, order, inputs, n);
      states, events := Extend(states, events, st, mid, VisitBegin(order[n]), end);
    } else {
      PassEnds(st, order, inputs);
      states, events := Extend(states, events, st, mid, PassEnd, end);
    }
  }
}
