/** The lifecycle and the clock of one session, from its creation on, over any sequence of calls. */
module Lifecycle {
  import opened Wrappers
  import opened Sessions

  /** A call that can matter to the lifecycle, with the clock reading it is made at. */
  datatype Call = StartCall(now: int) | StopCall(now: int) | StatsCall(now: int)

  function Step(v: SessionView, c: Call): SessionView {
    match c
    case StartCall(now) => AfterStart(v, now)
    case StopCall(now) => AfterStop(v, now)
    case StatsCall(_) => v
  }

  function After(v: SessionView, calls: seq<Call>): SessionView {
    if calls == [] then v else Step(After(v, calls[..|calls| - 1]), calls[|calls| - 1])
  }

  /** Whether the session accepts the call. */
  predicate Accepts(v: SessionView, c: Call) {
    match c
    case StartCall(_) => StartReply(v).Ok?
    case StopCall(_) => StopReply(v).Ok?
    case StatsCall(_) => true
  }

  predicate JustCreated(v: SessionView) { v.state == Created && v.startTime == None && v.stopTime == None }

  /** Call i is the first start and call j the first stop after it; |calls| stands for none. */
  ghost predicate Phases(calls: seq<Call>, i: nat, j: nat) {
    && i <= j <= |calls|
    && (forall k :: 0 <= k < i ==> !calls[k].StartCall?) && (i < |calls| ==> calls[i].StartCall?)
    && (forall k :: i < k < j ==> !calls[k].StopCall?) && (j < |calls| ==> i < j && calls[j].StopCall?)
  }

  /** Every history has exactly one such pair. */
  lemma {:induction false} PhasesExist(calls: seq<Call>) returns (i: nat, j: nat)
    ensures Phases(calls, i, j)
    ensures forall a: nat, b: nat :: Phases(calls, a, b) ==> a == i && b == j
  {
    if calls == [] {
      i, j := 0, 0;
    } else {
      var prefix, c := calls[..|calls| - 1], calls[|calls| - 1];
      i, j := PhasesExist(prefix);
      if i == |prefix| {
        i := if c.StartCall? then i else |calls|;
        j := |calls|;
      } else if j == |prefix| {
        j := if c.StopCall? then j else |calls|;
      }
    }
  }

  lemma PrefixPhases(calls: seq<Call>, i: nat, j: nat, m: nat)
    requires Phases(calls, i, j) && m <= |calls|
    ensures Phases(calls[..m], if i < m then i else m, if j < m then j else m)
  {
  }

  /** The session is as its first start and the first stop after it left it; no other call
      has any effect, and both times are the readings of exactly those two calls. */
  lemma {:induction false} LifecycleOfHistory(v: SessionView, calls: seq<Call>, i: nat, j: nat)
    requires JustCreated(v) && Phases(calls, i, j)
    ensures i == |calls| ==> After(v, calls) == v
    ensures i < j == |calls| ==> After(v, calls) == v.(state := Started, startTime := Some(calls[i].now))
    ensures j < |calls| ==>
              After(v, calls) == v.(state := Stopped, startTime := Some(calls[i].now), stopTime := Some(calls[j].now))
  {
    if calls != [] {
      var m := |calls| - 1;
      PrefixPhases(calls, i, j, m);
      LifecycleOfHistory(v, calls[..m], if i < m then i else m, if j < m then j else m);
    }
  }

  /** Of all start and stop calls, the first start and the first stop after it are accepted, and only these. */
  lemma AcceptedCalls(v: SessionView, calls: seq<Call>, i: nat, j: nat, k: nat)
    requires JustCreated(v) && Phases(calls, i, j) && k < |calls|
    ensures Accepts(After(v, calls[..k]), calls[k]) <==> calls[k].StatsCall? || k == i || k == j
    ensures !Accepts(After(v, calls[..k]), calls[k]) ==> Step(After(v, calls[..k]), calls[k]) == After(v, calls[..k])
  {
    PrefixPhases(calls, i, j, k);
    LifecycleOfHistory(v, calls[..k], if i < k then i else k, if j < k then j else k);
  }

  /** The distinct states a session goes through, in order. */
  function History(v: SessionView, calls: seq<Call>): (h: seq<SessionState>)
    ensures h != [] && h[|h| - 1] == After(v, calls).state
  {
    if calls == [] then [v.state]
    else
      var h := History(v, calls[..|calls| - 1]);
      var state := After(v, calls).state;
      if state == h[|h| - 1] then h else h + [state]
  }

  lemma {:induction false} HistoryIsForward(v: SessionView, calls: seq<Call>)
    requires JustCreated(v)
    ensures History(v, calls) <= [Created, Started, Stopped]
  {
    if calls != [] {
      HistoryIsForward(v, calls[..|calls| - 1]);
    }
  }

  /** State, start time and stop time as the first start i and the first stop j after it settle them. */
  function Settled(calls: seq<Call>, i: nat, j: nat): (SessionState, Option<int>, Option<int>)
    requires i <= j <= |calls|
  {
    if i == |calls| then (Created, None, None)
    else if j == |calls| then (Started, Some(calls[i].now), None)
    else (Stopped, Some(calls[i].now), Some(calls[j].now))
  }

  // ---- elapsed time ----

  ghost predicate ClockForward(calls: seq<Call>) {
    forall a, b :: 0 <= a < b < |calls| ==> calls[a].now <= calls[b].now
  }

  /** No recorded time lies after the reading, and none after a later one. */
  predicate TimesBy(v: SessionView, now: int) {
    && (v.state != Created ==> v.startTime.Some? && v.startTime.value <= now)
    && (v.state == Stopped ==> v.stopTime.Some? && v.startTime.value <= v.stopTime.value <= now)
  }

  lemma {:induction false} TimesRecorded(v: SessionView, calls: seq<Call>, now: int)
    requires JustCreated(v) && ClockForward(calls)
    requires forall a :: 0 <= a < |calls| ==> calls[a].now <= now
    ensures TimesBy(After(v, calls), now)
  {
    if calls != [] {
      var m := |calls| - 1;
      TimesRecorded(v, calls[..m], calls[m].now);
    }
  }

  /** One more call, at the time it is made, never takes the reported time back. */
  lemma StepKeepsElapsed(v: SessionView, c: Call, now: int, later: int)
    requires TimesBy(v, now) && now <= c.now <= later
    ensures ReportedElapsed(v, now) <= ReportedElapsed(Step(v, c), later)
  {
  }

  /** Two statistics calls of one history, the earlier at a: what they report never decreases. */
  lemma {:induction false} ElapsedNeverDecreases(v: SessionView, calls: seq<Call>, a: nat, b: nat)
    requires JustCreated(v) && ClockForward(calls) && a <= b < |calls|
    ensures ReportedElapsed(After(v, calls[..a]), calls[a].now) <= ReportedElapsed(After(v, calls[..b]), calls[b].now)
    decreases b
  {
    if a < b {
      ElapsedNeverDecreases(v, calls, a, b - 1);
      TimesRecorded(v, calls[..b - 1], calls[b - 1].now);
      var w := After(v, calls[..b - 1]);
      assert calls[..b][..b - 1] == calls[..b - 1];
      assert After(v, calls[..b]) == Step(w, calls[b - 1]);
      StepKeepsElapsed(w, calls[b - 1], calls[b - 1].now, calls[b].now);
    }
  }

  /** Whole seconds between two readings, 0 if the second is the earlier. */
  function WholeSeconds(start: int, end: int): (s: nat)
    ensures end < start ==> s == 0
    ensures start <= end ==> s * 1_000_000_000 <= end - start < (s + 1) * 1_000_000_000
  {
    if end < start then 0 else (end - start) / 1_000_000_000
  }

  /** Under any clock: 0 before the first start, then the whole seconds since it, frozen at the first stop after it. */
  lemma ElapsedOfHistory(v: SessionView, calls: seq<Call>, i: nat, j: nat, now: int)
    requires JustCreated(v) && Phases(calls, i, j)
    ensures i == |calls| ==> ReportedElapsed(After(v, calls), now) == 0
    ensures i < j == |calls| ==> ReportedElapsed(After(v, calls), now) == WholeSeconds(calls[i].now, now)
    ensures j < |calls| ==> ReportedElapsed(After(v, calls), now) == WholeSeconds(calls[i].now, calls[j].now)
  {
    LifecycleOfHistory(v, calls, i, j);
  }

  /** What a statistics call at position a of a history reports. */
  lemma ElapsedAt(v: SessionView, calls: seq<Call>, i: nat, j: nat, a: nat)
    requires JustCreated(v) && Phases(calls, i, j) && a < |calls|
    ensures ReportedElapsed(After(v, calls[..a]), calls[a].now) ==
            if a <= i then 0 else WholeSeconds(calls[i].now, calls[if j < a then j else a].now)
  {
    var i', j' := if i < a then i else a, if j < a then j else a;
    PrefixPhases(calls, i, j, a);
    ElapsedOfHistory(v, calls[..a], i', j', calls[a].now);
  }

  /** Exactly when the reported time goes back, under any clock: the session was running at the
      earlier call, and up to the later call, or the stop before it, the clock showed fewer whole
      seconds since the start. */
  lemma ElapsedGoesBackIff(v: SessionView, calls: seq<Call>, i: nat, j: nat, a: nat, b: nat)
    requires JustCreated(v) && Phases(calls, i, j) && a <= b < |calls|
    ensures ReportedElapsed(After(v, calls[..b]), calls[b].now) < ReportedElapsed(After(v, calls[..a]), calls[a].now) <==>
            && i < a <= j
            && WholeSeconds(calls[i].now, calls[if j < b then j else b].now) < WholeSeconds(calls[i].now, calls[a].now)
  {
    ElapsedAt(v, calls, i, j, a);
    ElapsedAt(v, calls, i, j, b);
  }

  /** So it happens: a clock that is set back takes the reported time of a running session back with it. */
  lemma ClockSetBack(v: SessionView)
    requires JustCreated(v)
    ensures var calls := [StartCall(0), StatsCall(5_000_000_000), StatsCall(2_000_000_000)];
            ReportedElapsed(After(v, calls[..1]), calls[1].now) == 5 && ReportedElapsed(After(v, calls[..2]), calls[2].now) == 2
  {
  }
}
