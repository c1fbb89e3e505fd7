/** From byte counters and metrics passes to the reported number of active connections. */
module ServerActivity {
  import opened PeerConnections
  import opened Sessions
  import opened Server
  import opened ServerInvariants
  import opened ServerRuns

  /** The two directions of video. */
  datatype Direction = Send | Receive

  function ActivityOf(c: Connection, d: Direction): Activity {
    match d case Send => c.videoSend case Receive => c.videoReceive
  }

  function SamplesOf(e: Export, d: Direction): seq<nat> {
    match d case Send => SentSamples(e) case Receive => ReceivedSamples(e)
  }

  /** The samples that polls have taken of a connection since it was last inserted. */
  ghost function Samples(r: Run, sid: string, k: string, d: Direction, i: nat): seq<nat>
    requires IsRun(r) && i < |r.states|
  {
    if i == 0 || Recreates(r.events[i - 1], sid) || Inserts(r.states[i - 1], r.events[i - 1], sid, k) then []
    else Samples(r, sid, k, d, i - 1) + StepSamples(r.states[i - 1], r.events[i - 1], sid, k, d)
  }

  predicate Exports(st: State, e: Event, sid: string, k: string) {
    e.ExportOne? && e.peerId == k && Visits(st.metrics, sid)
  }

  function StepSamples(st: State, e: Event, sid: string, k: string, d: Direction): seq<nat> {
    if Exports(st, e, sid, k) then SamplesOf(Export(e.report, st.metrics.poll), d) else []
  }

  /** A step changes an activity only by exporting the connection, or by storing a new one in its place. */
  lemma ActivityStep(st: State, e: Event, sid: string, k: string, d: Direction)
    requires Enabled(st, e) && sid in Apply(st, e).sessions && k in Apply(st, e).sessions[sid].connections
    requires !Recreates(e, sid) && !Inserts(st, e, sid, k)
    ensures sid in st.sessions && k in st.sessions[sid].connections
    ensures ActivityOf(Apply(st, e).sessions[sid].connections[k], d)
            == ClassifyAll(ActivityOf(st.sessions[sid].connections[k], d), StepSamples(st, e, sid, k, d))
  {
  }

  lemma InsertedIsNew(st: State, e: Event, sid: string, k: string)
    requires Inv(st) && Enabled(st, e) && Inserts(st, e, sid, k)
    ensures sid in Apply(st, e).sessions && k in Apply(st, e).sessions[sid].connections
    ensures IsNew(Apply(st, e).sessions[sid].connections[k])
  {
  }

  /** Whatever interleaves with the polls, and whichever fail, a connection's state is the
      verdict on the samples taken of it since it was inserted. */
  lemma {:induction false} ActivityIsVerdict(r: Run, sid: string, k: string, d: Direction, i: nat)
    requires IsRun(r) && i < |r.states| && sid in r.states[i].sessions && k in r.states[i].sessions[sid].connections
    ensures ActivityOf(r.states[i].sessions[sid].connections[k], d) == Verdict(Samples(r, sid, k, d, i))
  {
    if i > 0 {
      var st, e := r.states[i - 1], r.events[i - 1];
      assert StepAt(r, i - 1);
      if Inserts(st, e, sid, k) {
        RunInv(r, i - 1);
        InsertedIsNew(st, e, sid, k);
      } else if !Recreates(e, sid) {
        ActivityStep(st, e, sid, k, d);
        ActivityIsVerdict(r, sid, k, d, i - 1);
        VerdictExtends(Samples(r, sid, k, d, i - 1), StepSamples(st, e, sid, k, d));
      }
    }
  }

  /** The connections whose latest sample in one direction exceeds the one before. */
  ghost function RisingIn(r: Run, sid: string, d: Direction, i: nat): set<string>
    requires IsRun(r) && i < |r.states| && sid in r.states[i].sessions
  {
    set k | k in r.states[i].sessions[sid].connections && Verdict(Samples(r, sid, k, d, i)).Active?
  }

  /** With no assumption on the reports: a reply counts the connections whose samples were last seen rising. */
  lemma ReportedVerdicts(r: Run, i: nat, d: Direction)
    requires IsRun(r) && i < |r.events| && r.events[i].StatsEnd?
    ensures ReportedSession(r, i).id in r.states[i].sessions
    ensures Reported(ReplyAt(r, i).peerConnectionState, d)
            == Split(|RisingIn(r, ReportedSession(r, i).id, d, i)|, |ReportedSession(r, i).connections|)
  {
    var v := ReportedSession(r, i);
    StatsReplyIsSnapshot(r, i);
    StatisticsMeetNoVisitInRun(r, i);
    forall k | k in v.connections ensures k in ActiveSet(v.connections, d) <==> k in RisingIn(r, v.id, d, i) {
      ActivityIsVerdict(r, v.id, k, d, i);
    }
    assert ActiveSet(v.connections, d) == RisingIn(r, v.id, d, i);
    TallySplits(v.connections, d);
  }

  // ---- closed form: one stream per connection, every report read ----

  /** The byte counter of a connection's stream, read at pass m, is b(m). */
  type Counter = nat -> nat

  /** The state after polls at the multiples of p from pass `first` to pass `last`. */
  function Polled(b: Counter, p: nat, first: nat, last: nat): Activity
    requires p > 0
  {
    var latest := last / p * p;
    if latest < first then Idle(0)
    else Classify(Idle(if latest >= first + p then b(latest - p) else 0), b(latest))
  }

  /** Whether the counter grew between the last two polls, or since 0 if there was only one. */
  predicate Grew(b: Counter, p: nat, first: nat, last: nat)
    requires p > 0
  {
    var latest := last / p * p;
    latest >= first && b(latest) > (if latest >= first + p then b(latest - p) else 0)
  }

  lemma PolledActiveIffGrew(b: Counter, p: nat, first: nat, last: nat)
    requires p > 0
    ensures Polled(b, p, first, last).Active? <==> Grew(b, p, first, last)
  {
  }

  /** Pass m polls when it is a multiple of p, and then classifies b(m). */
  lemma PolledStep(b: Counter, p: nat, first: nat, m: nat)
    requires p > 0 && 1 <= first <= m
    ensures Polled(b, p, first, m)
            == if Multiple(m, p) then Classify(Polled(b, p, first, m - 1), b(m)) else Polled(b, p, first, m - 1)
  {
    DivisionStep(m, p);
    var before := (m - 1) / p;
    if Multiple(m, p) {
      assert m == m / p * p;
      assert (before + 1) * p == before * p + p;
    }
  }

  lemma NothingPolledYet(b: Counter, p: nat, first: nat)
    requires p > 0 && first >= 1
    ensures Polled(b, p, first, first - 1) == Idle(0)
  {
  }

  /** The state after the passes from `first` up to but not including `end`, told pass by pass. */
  function Polling(b: Counter, p: nat, first: nat, end: nat): Activity
    requires p > 0
  {
    if end <= first then Idle(0)
    else if Multiple(end - 1, p) then Classify(Polling(b, p, first, end - 1), b(end - 1))
    else Polling(b, p, first, end - 1)
  }

  /** One more pass classifies one more sample if it polls; an opening pass that is put off changes nothing. */
  lemma PollingStep(b: Counter, p: nat, first: nat, end: nat, first': nat, end': nat, exported: bool)
    requires p > 0 && first <= end && first' <= end'
    requires exported ==> first' == first && end' == end + 1
    requires !exported ==> (first' == first && end' == end) || (first == end && first' == end')
    ensures Polling(b, p, first', end')
            == if exported && Multiple(end, p) then Classify(Polling(b, p, first, end), b(end)) else Polling(b, p, first, end)
  {
  }

  lemma {:induction false} PollingInClosedForm(b: Counter, p: nat, first: nat, end: nat)
    requires p > 0 && 1 <= first <= end
    ensures Polling(b, p, first, end) == Polled(b, p, first, end - 1)
  {
    if end == first {
      NothingPolledYet(b, p, first);
    } else {
      PollingInClosedForm(b, p, first, end - 1);
      PolledStep(b, p, first, end - 1);
    }
  }

  /** The next pass that will export connection k of the session. */
  function NextPass(st: State, sid: string, k: string): nat {
    if (if Visits(st.metrics, sid) then k in st.metrics.peersDone else Visited(st.metrics, sid))
    then st.elapsed + 1 else st.elapsed
  }

  /** From state a, where connection k is idle at 0 bytes, as when it has just been inserted, to
      state i: the session and the connection are not replaced, and every export reads one
      stream, whose counter is b. */
  ghost predicate Steady(r: Run, sid: string, k: string, d: Direction, b: Counter, a: nat, i: nat) {
    && IsRun(r) && a <= i < |r.states| && Persists(r, sid, a, i)
    && k in r.states[a].sessions[sid].connections
    && ActivityOf(r.states[a].sessions[sid].connections[k], d) == Idle(0)
    && (forall n :: a <= n < i ==> !Inserts(r.states[n], r.events[n], sid, k))
    && (forall n :: a <= n < i && Exports(r.states[n], r.events[n], sid, k) ==>
          SamplesOf(Export(r.events[n].report, true), d) == [b(r.states[n].elapsed)])
  }

  /** A visit to the session is marked as made, and polls exactly at the multiples of its period. */
  ghost predicate VisitOk(st: State, sid: string) {
    Visits(st.metrics, sid) ==>
      && sid in st.metrics.done && sid in st.sessions && st.sessions[sid].pollingStateS > 0
      && (st.metrics.poll <==> Multiple(st.elapsed, st.sessions[sid].pollingStateS))
  }

  lemma VisitStep(st: State, e: Event, sid: string)
    requires Enabled(st, e) && VisitOk(st, sid)
    ensures VisitOk(Apply(st, e), sid)
  {
  }

  lemma {:induction false} VisitsAreOk(r: Run, sid: string, i: nat)
    requires IsRun(r) && i < |r.states|
    ensures VisitOk(r.states[i], sid)
  {
    if i > 0 {
      VisitsAreOk(r, sid, i - 1);
      assert StepAt(r, i - 1);
      VisitStep(r.states[i - 1], r.events[i - 1], sid);
    }
  }

  /** The pass under way has exported connection k or will not end without doing so. A session or
      connection that came in the middle of a pass may be met or missed by that pass. */
  ghost predicate OnSchedule(st: State, sid: string, k: string) {
    && Awaits(st.metrics, sid)
    && (Visits(st.metrics, sid) ==> k in st.metrics.peersDue || k in st.metrics.peersDone)
  }

  lemma ScheduleStep(st: State, e: Event, sid: string, k: string)
    requires Enabled(st, e) && sid in st.sessions && k in st.sessions[sid].connections && VisitOk(st, sid)
    requires !Apply(st, e).metrics.Crashed?
    ensures OnSchedule(st, sid, k) || e.PassEnd? || Exports(st, e, sid, k) ==> OnSchedule(Apply(st, e), sid, k)
    ensures OnSchedule(st, sid, k) && !Exports(st, e, sid, k) ==> NextPass(Apply(st, e), sid, k) == NextPass(st, sid, k)
  {
  }

  /** Exporting connection k is what its next pass was waiting for; other steps put it off by one pass at most. */
  lemma NextPassStep(st: State, e: Event, sid: string, k: string)
    requires Enabled(st, e) && sid in st.sessions && k in st.sessions[sid].connections && VisitOk(st, sid)
    requires !Apply(st, e).metrics.Crashed?
    ensures Exports(st, e, sid, k) ==> NextPass(st, sid, k) == st.elapsed && NextPass(Apply(st, e), sid, k) == st.elapsed + 1
    ensures NextPass(st, sid, k) <= NextPass(Apply(st, e), sid, k)
    ensures Apply(st, e).elapsed <= NextPass(Apply(st, e), sid, k) <= Apply(st, e).elapsed + 1
    ensures e.PassEnd? ==> NextPass(Apply(st, e), sid, k) == Apply(st, e).elapsed
    ensures Apply(st, e).elapsed == if e.PassEnd? then st.elapsed + 1 else st.elapsed
  {
  }

  /** What a step adds to the samples of a connection whose only stream has counter value x. */
  lemma SingleSample(st: State, e: Event, sid: string, k: string, d: Direction, last: Activity, x: nat)
    requires Exports(st, e, sid, k) ==> SamplesOf(Export(e.report, true), d) == [x]
    ensures ClassifyAll(last, StepSamples(st, e, sid, k, d))
            == if Exports(st, e, sid, k) && st.metrics.poll then Classify(last, x) else last
  {
  }

  /** Connection k, there at state a, is followed to state i without its session being replaced or the task dying. */
  ghost predicate Followed(r: Run, sid: string, k: string, a: nat, i: nat) {
    && IsRun(r) && a <= i < |r.states| && Persists(r, sid, a, i)
    && k in r.states[a].sessions[sid].connections && !r.states[i].metrics.Crashed?
  }

  lemma {:induction false} FollowedExists(r: Run, sid: string, k: string, a: nat, i: nat)
    requires Followed(r, sid, k, a, i)
    ensures sid in r.states[i].sessions && k in r.states[i].sessions[sid].connections
    decreases i
  {
    if i > a {
      FollowedBefore(r, sid, k, a, i);
      FollowedExists(r, sid, k, a, i - 1);
      assert StepAt(r, i - 1);
      ConnectionKept(r.states[i - 1], r.events[i - 1], sid, k);
    }
  }

  lemma FollowedBefore(r: Run, sid: string, k: string, a: nat, i: nat)
    requires Followed(r, sid, k, a, i) && i > a
    ensures Followed(r, sid, k, a, i - 1)
  {
    assert StepAt(r, i - 1);
    DeathStep(r.states[i - 1], r.events[i - 1]);
  }

  /** Connection k has been exported between states a and i. */
  ghost predicate ExportedSince(r: Run, sid: string, k: string, a: nat, i: nat)
    requires IsRun(r) && a <= i < |r.states|
    decreases i
  {
    i > a && (ExportedSince(r, sid, k, a, i - 1) || Exports(r.states[i - 1], r.events[i - 1], sid, k))
  }

  /** The first pass that has exported connection k since state a or, until then, the next that may. */
  ghost function FirstPass(r: Run, sid: string, k: string, a: nat, i: nat): nat
    requires IsRun(r) && a <= i < |r.states|
    decreases i
  {
    if ExportedSince(r, sid, k, a, i) then FirstPass(r, sid, k, a, i - 1) else NextPass(r.states[i], sid, k)
  }

  /** The two states before and after a step of a followed connection. */
  lemma FollowedStep(r: Run, sid: string, k: string, a: nat, i: nat)
    requires Followed(r, sid, k, a, i) && i > a
    ensures var st, e, next := r.states[i - 1], r.events[i - 1], r.states[i];
            && Followed(r, sid, k, a, i - 1)
            && (OnSchedule(st, sid, k) || e.PassEnd? || Exports(st, e, sid, k) ==> OnSchedule(next, sid, k))
            && (OnSchedule(st, sid, k) && !Exports(st, e, sid, k) ==> NextPass(next, sid, k) == NextPass(st, sid, k))
            && (Exports(st, e, sid, k) ==> NextPass(st, sid, k) == st.elapsed && NextPass(next, sid, k) == st.elapsed + 1)
            && NextPass(st, sid, k) <= NextPass(next, sid, k) <= next.elapsed + 1
            && (e.PassEnd? ==> NextPass(next, sid, k) == next.elapsed)
            && next.elapsed == if e.PassEnd? then st.elapsed + 1 else st.elapsed
  {
    FollowedBefore(r, sid, k, a, i);
    FollowedExists(r, sid, k, a, i - 1);
    VisitsAreOk(r, sid, i - 1);
    assert StepAt(r, i - 1);
    ScheduleStep(r.states[i - 1], r.events[i - 1], sid, k);
    NextPassStep(r.states[i - 1], r.events[i - 1], sid, k);
  }

  /** Once exported, or once the pass under way at state a is over, connection k is on schedule. */
  lemma {:induction false} ScheduleJoined(r: Run, sid: string, k: string, a: nat, i: nat)
    requires Followed(r, sid, k, a, i)
    ensures r.states[a].elapsed <= r.states[i].elapsed
    ensures OnSchedule(r.states[a], sid, k) || ExportedSince(r, sid, k, a, i) || r.states[a].elapsed < r.states[i].elapsed ==>
              OnSchedule(r.states[i], sid, k)
    decreases i
  {
    if i > a {
      FollowedStep(r, sid, k, a, i);
      ScheduleJoined(r, sid, k, a, i - 1);
    }
  }

  /** Connection k is first exported in the pass under way at state a or in the one after it,
      and in the one that was certain at state a if one was. */
  lemma {:induction false} FirstPassBounds(r: Run, sid: string, k: string, a: nat, i: nat)
    requires Followed(r, sid, k, a, i)
    ensures NextPass(r.states[a], sid, k) <= FirstPass(r, sid, k, a, i) <= NextPass(r.states[i], sid, k)
    ensures FirstPass(r, sid, k, a, i) <= r.states[a].elapsed + 1
    ensures OnSchedule(r.states[a], sid, k) ==> FirstPass(r, sid, k, a, i) == NextPass(r.states[a], sid, k)
    decreases i
  {
    if i > a {
      FollowedStep(r, sid, k, a, i);
      ScheduleJoined(r, sid, k, a, i - 1);
      FirstPassBounds(r, sid, k, a, i - 1);
    }
  }

  /** How one step moves the first pass: only the pass that is still open can be put off. */
  lemma FirstPassStep(r: Run, sid: string, k: string, a: nat, i: nat)
    requires Followed(r, sid, k, a, i) && i > a && Followed(r, sid, k, a, i - 1)
    ensures var st, e := r.states[i - 1], r.events[i - 1];
            && (Exports(st, e, sid, k) ==> FirstPass(r, sid, k, a, i) == FirstPass(r, sid, k, a, i - 1) <= st.elapsed
                                           && NextPass(st, sid, k) == st.elapsed && NextPass(r.states[i], sid, k) == st.elapsed + 1)
            && (!Exports(st, e, sid, k) && ExportedSince(r, sid, k, a, i) ==>
                  FirstPass(r, sid, k, a, i) == FirstPass(r, sid, k, a, i - 1) && NextPass(r.states[i], sid, k) == NextPass(st, sid, k))
            && (!ExportedSince(r, sid, k, a, i) ==>
                  FirstPass(r, sid, k, a, i) == NextPass(r.states[i], sid, k) && FirstPass(r, sid, k, a, i - 1) == NextPass(st, sid, k))
  {
    FollowedStep(r, sid, k, a, i);
    ScheduleJoined(r, sid, k, a, i - 1);
    FirstPassBounds(r, sid, k, a, i - 1);
  }

  /** The last step before state i classifies the counter if it exports connection k at a multiple of the period. */
  lemma SampleStep(r: Run, sid: string, k: string, d: Direction, b: Counter, a: nat, i: nat)
    requires Steady(r, sid, k, d, b, a, i) && i > a
    requires sid in r.states[i].sessions && k in r.states[i].sessions[sid].connections
    ensures sid in r.states[i - 1].sessions && k in r.states[i - 1].sessions[sid].connections
    ensures var st, e := r.states[i - 1], r.events[i - 1];
            ActivityOf(r.states[i].sessions[sid].connections[k], d)
            == if Exports(st, e, sid, k) && st.metrics.poll then Classify(ActivityOf(st.sessions[sid].connections[k], d), b(st.elapsed))
               else ActivityOf(st.sessions[sid].connections[k], d)
  {
    var st, e := r.states[i - 1], r.events[i - 1];
    assert StepAt(r, i - 1);
    assert !Inserts(st, e, sid, k) && !Recreates(e, sid);
    ActivityStep(st, e, sid, k, d);
    SingleSample(st, e, sid, k, d, ActivityOf(st.sessions[sid].connections[k], d), b(st.elapsed));
  }

  lemma PollsAtMultiples(r: Run, sid: string, a: nat, i: nat)
    requires IsRun(r) && a <= i < |r.states| && Persists(r, sid, a, i) && r.states[a].sessions[sid].pollingStateS > 0
    ensures Visits(r.states[i].metrics, sid) ==>
              (r.states[i].metrics.poll <==> Multiple(r.states[i].elapsed, r.states[a].sessions[sid].pollingStateS))
  {
    SessionPersists(r, sid, a, i);
    VisitsAreOk(r, sid, i);
  }

  /** From state i - 1 to state i, the polls between the first pass and the next grow by the sample taken, if any. */
  lemma PollingFollows(r: Run, sid: string, k: string, b: Counter, a: nat, i: nat)
    requires Followed(r, sid, k, a, i) && i > a && Followed(r, sid, k, a, i - 1)
    requires r.states[a].sessions[sid].pollingStateS > 0
    ensures var p, st, e := r.states[a].sessions[sid].pollingStateS, r.states[i - 1], r.events[i - 1];
            var before := Polling(b, p, FirstPass(r, sid, k, a, i - 1), NextPass(st, sid, k));
            Polling(b, p, FirstPass(r, sid, k, a, i), NextPass(r.states[i], sid, k))
            == if Exports(st, e, sid, k) && st.metrics.poll then Classify(before, b(st.elapsed)) else before
  {
    var st, e := r.states[i - 1], r.events[i - 1];
    FirstPassBounds(r, sid, k, a, i - 1);
    FirstPassBounds(r, sid, k, a, i);
    FirstPassStep(r, sid, k, a, i);
    PollsAtMultiples(r, sid, a, i - 1);
    PollingStep(b, r.states[a].sessions[sid].pollingStateS, FirstPass(r, sid, k, a, i - 1), NextPass(st, sid, k),
                FirstPass(r, sid, k, a, i), NextPass(r.states[i], sid, k), Exports(st, e, sid, k));
  }

  /** The state of a connection after any passes is that of polls at the multiples of the period,
      from the first pass that exports it to the last one that has. */
  lemma {:induction false} SteadyPolls(r: Run, sid: string, k: string, d: Direction, b: Counter, a: nat, i: nat)
    requires Steady(r, sid, k, d, b, a, i) && !r.states[i].metrics.Crashed?
    requires r.states[a].sessions[sid].pollingStateS > 0
    ensures sid in r.states[i].sessions && k in r.states[i].sessions[sid].connections
    ensures ActivityOf(r.states[i].sessions[sid].connections[k], d)
            == Polling(b, r.states[a].sessions[sid].pollingStateS, FirstPass(r, sid, k, a, i), NextPass(r.states[i], sid, k))
    decreases i
  {
    FollowedExists(r, sid, k, a, i);
    if i == a {
      assert FirstPass(r, sid, k, a, i) == NextPass(r.states[i], sid, k);
    } else {
      FollowedBefore(r, sid, k, a, i);
      SteadyPolls(r, sid, k, d, b, a, i - 1);
      SampleStep(r, sid, k, d, b, a, i);
      PollingFollows(r, sid, k, b, a, i);
    }
  }

  /** In closed form: it depends only on the byte counter at the last two multiples of the period. */
  lemma SteadyActivity(r: Run, sid: string, k: string, d: Direction, b: Counter, a: nat, i: nat)
    requires Steady(r, sid, k, d, b, a, i) && !r.states[i].metrics.Crashed?
    requires r.states[a].sessions[sid].pollingStateS > 0
    ensures sid in r.states[i].sessions && k in r.states[i].sessions[sid].connections
    ensures 1 <= FirstPass(r, sid, k, a, i) <= NextPass(r.states[i], sid, k)
    ensures ActivityOf(r.states[i].sessions[sid].connections[k], d)
            == Polled(b, r.states[a].sessions[sid].pollingStateS, FirstPass(r, sid, k, a, i), NextPass(r.states[i], sid, k) - 1)
  {
    SteadyPolls(r, sid, k, d, b, a, i);
    FirstPassBounds(r, sid, k, a, i);
    CounterStartsAtOne(r, a);
    PollingInClosedForm(b, r.states[a].sessions[sid].pollingStateS, FirstPass(r, sid, k, a, i), NextPass(r.states[i], sid, k));
  }

  lemma ConnectionKept(st: State, e: Event, sid: string, k: string)
    requires Enabled(st, e) && sid in st.sessions && k in st.sessions[sid].connections && !Recreates(e, sid)
    ensures sid in Apply(st, e).sessions && k in Apply(st, e).sessions[sid].connections
  {
  }

  /** The last pass that is over for the session. */
  function LastPass(st: State, sid: string): int {
    if Visited(st.metrics, sid) then st.elapsed else st.elapsed - 1
  }

  /** Followed connection by connection, since state since[k], with counters b[k]. */
  ghost predicate AllSteady(r: Run, sid: string, d: Direction, b: map<string, Counter>, since: map<string, nat>, i: nat) {
    && IsRun(r) && i < |r.states| && sid in r.states[i].sessions
    && r.states[i].sessions[sid].pollingStateS > 0 && !r.states[i].metrics.Crashed?
    && (forall k :: k in r.states[i].sessions[sid].connections ==>
          k in b && k in since && since[k] <= i && Steady(r, sid, k, d, b[k], since[k], i))
  }

  /** The connections whose counter grew between their last two polls. */
  ghost function Grown(r: Run, sid: string, b: map<string, Counter>, since: map<string, nat>, i: nat): set<string>
    requires IsRun(r) && i < |r.states| && sid in r.states[i].sessions && r.states[i].sessions[sid].pollingStateS > 0
  {
    set k | k in r.states[i].sessions[sid].connections && k in b && k in since && since[k] <= i
            && LastPass(r.states[i], sid) >= 0
            && Grew(b[k], r.states[i].sessions[sid].pollingStateS, FirstPass(r, sid, k, since[k], i), LastPass(r.states[i], sid))
  }

  lemma ActiveIffGrown(r: Run, sid: string, d: Direction, b: map<string, Counter>, since: map<string, nat>, i: nat, k: string)
    requires AllSteady(r, sid, d, b, since, i) && !Visits(r.states[i].metrics, sid)
    requires k in r.states[i].sessions[sid].connections
    ensures ActivityOf(r.states[i].sessions[sid].connections[k], d).Active? <==> k in Grown(r, sid, b, since, i)
  {
    var a := since[k];
    SessionPersists(r, sid, a, i);
    SteadyActivity(r, sid, k, d, b[k], a, i);
    PolledActiveIffGrew(b[k], r.states[i].sessions[sid].pollingStateS, FirstPass(r, sid, k, a, i), LastPass(r.states[i], sid));
  }

  function ActiveSet(connections: map<string, Connection>, d: Direction): set<string> {
    match d case Send => Sending(connections) case Receive => Receiving(connections)
  }

  lemma ActiveAreGrown(r: Run, sid: string, d: Direction, b: map<string, Counter>, since: map<string, nat>, i: nat)
    requires AllSteady(r, sid, d, b, since, i) && !Visits(r.states[i].metrics, sid)
    ensures ActiveSet(r.states[i].sessions[sid].connections, d) == Grown(r, sid, b, since, i)
  {
    var connections := r.states[i].sessions[sid].connections;
    forall k | k in connections
      ensures k in ActiveSet(connections, d) <==> k in Grown(r, sid, b, since, i)
    {
      ActiveIffGrown(r, sid, d, b, since, i, k);
    }
  }

  lemma StatisticsMeetNoVisitInRun(r: Run, i: nat)
    requires IsRun(r) && i < |r.events| && r.events[i].StatsEnd?
    ensures ReportedSession(r, i).id in r.states[i].sessions
    ensures r.states[i].sessions[ReportedSession(r, i).id] == ReportedSession(r, i)
    ensures !Visits(r.states[i].metrics, ReportedSession(r, i).id)
  {
    RunInv(r, i);
    assert StepAt(r, i);
    assert GuardsExclude(r.states[i]) && Indexed(r.states[i]);
  }

  /** The reported numbers of active and of inactive connections in one direction. */
  function Reported(t: Tally, d: Direction): (int, int) {
    match d case Send => (t.numSending, t.numNotSending) case Receive => (t.numReceiving, t.numNotReceiving)
  }

  function Split(active: nat, total: nat): (int, int) {
    (Wrap32(active), Wrap32(total - active))
  }

  lemma TallySplits(connections: map<string, Connection>, d: Direction)
    ensures Reported(TallyOf(connections), d) == Split(|ActiveSet(connections, d)|, |connections|)
  {
  }

  /** End to end: the numbers of active and inactive connections that a statistics request
      reports are the numbers of connections whose byte counter did and did not grow between
      their last two polls, as 32-bit counters. */
  lemma ReportedActivity(r: Run, i: nat, d: Direction, b: map<string, Counter>, since: map<string, nat>)
    requires IsRun(r) && i < |r.events| && r.events[i].StatsEnd?
    requires AllSteady(r, ReportedSession(r, i).id, d, b, since, i)
    ensures Reported(ReplyAt(r, i).peerConnectionState, d)
            == Split(|Grown(r, ReportedSession(r, i).id, b, since, i)|, |ReportedSession(r, i).connections|)
  {
    var v := ReportedSession(r, i);
    StatsReplyIsSnapshot(r, i);
    StatisticsMeetNoVisitInRun(r, i);
    ActiveAreGrown(r, v.id, d, b, since, i);
    TallySplits(v.connections, d);
  }
}
