/**
 The stream an observer request returns: `select!` merges the video transceivers and the
 ICE candidates of one connection, taking from either channel whenever it is ready.
 */
module Observer {

  datatype Transceiver = Transceiver(mid: string, direction: string)

  datatype Candidate = Candidate(sdp: string, mid: string, mlineIndex: nat)

  datatype Message =
    | VideoTransceiver(direction: string, mid: string)
    | IceCandidate(sdp: string, mid: string, mlineIndex: nat)

  function TrackMessage(t: Transceiver): Message { VideoTransceiver(t.direction, t.mid) }

  function IceMessage(c: Candidate): Message { IceCandidate(c.sdp, c.mid, c.mlineIndex) }

  /** The capacity of either channel. */
  const BUFFERING: nat := 100

  /** The two channels, whether they still have a sender, and what the stream has emitted. */
  datatype Merge = Merge(tracks: seq<Transceiver>, ices: seq<Candidate>, tracksOpen: bool, icesOpen: bool, emitted: seq<Message>)

  datatype Step =
    | PushTrack(track: Transceiver)
    | PushIce(ice: Candidate)
    | CloseTracks
    | CloseIces
    | SelectTrack
    | SelectIce

  /** A receive is ready when its queue holds an item or its channel is closed. */
  predicate Enabled(m: Merge, s: Step) {
    match s
    case PushTrack(_) => m.tracksOpen && |m.tracks| < BUFFERING
    case PushIce(_) => m.icesOpen && |m.ices| < BUFFERING
    case CloseTracks => m.tracksOpen
    case CloseIces => m.icesOpen
    case SelectTrack => m.tracks != [] || !m.tracksOpen
    case SelectIce => m.ices != [] || !m.icesOpen
  }

  /** Receiving from a closed and empty channel yields nothing, and the loop goes on. */
  function Apply(m: Merge, s: Step): Merge
    requires Enabled(m, s)
  {
    match s
    case PushTrack(t) => m.(tracks := m.tracks + [t])
    case PushIce(c) => m.(ices := m.ices + [c])
    case CloseTracks => m.(tracksOpen := false)
    case CloseIces => m.(icesOpen := false)
    case SelectTrack =>
      if m.tracks == [] then m
      else m.(tracks := m.tracks[1..], emitted := m.emitted + [TrackMessage(m.tracks[0])])
    case SelectIce =>
      if m.ices == [] then m
      else m.(ices := m.ices[1..], emitted := m.emitted + [IceMessage(m.ices[0])])
  }

  /** The states a schedule goes through. */
  ghost predicate IsRun(states: seq<Merge>, schedule: seq<Step>) {
    && |states| == |schedule| + 1
    && (forall i :: 0 <= i < |schedule| ==> Follows(states[i], schedule[i], states[i + 1]))
  }

  predicate Follows(m: Merge, s: Step, next: Merge) { Enabled(m, s) && next == Apply(m, s) }

  /** The video transceiver messages among these, in order. */
  function Tracks(messages: seq<Message>): seq<Message> {
    if messages == [] then []
    else
      var last := messages[|messages| - 1];
      Tracks(messages[..|messages| - 1]) + if last.VideoTransceiver? then [last] else []
  }

  /** The ICE candidate messages among these, in order. */
  function Ices(messages: seq<Message>): seq<Message> {
    if messages == [] then []
    else
      var last := messages[|messages| - 1];
      Ices(messages[..|messages| - 1]) + if last.IceCandidate? then [last] else []
  }

  function TrackMessages(ts: seq<Transceiver>): (r: seq<Message>)
    ensures |r| == |ts| && forall i :: 0 <= i < |ts| ==> r[i] == TrackMessage(ts[i])
  {
    seq(|ts|, i requires 0 <= i < |ts| => TrackMessage(ts[i]))
  }

  function IceMessages(cs: seq<Candidate>): (r: seq<Message>)
    ensures |r| == |cs| && forall i :: 0 <= i < |cs| ==> r[i] == IceMessage(cs[i])
  {
    seq(|cs|, i requires 0 <= i < |cs| => IceMessage(cs[i]))
  }

  /** The transceivers pushed by the sender during a schedule, in order. */
  function PushedTracks(schedule: seq<Step>): seq<Transceiver> {
    if schedule == [] then []
    else
      PushedTracks(schedule[..|schedule| - 1]) + TrackBy(schedule[|schedule| - 1])
  }

  function PushedIces(schedule: seq<Step>): seq<Candidate> {
    if schedule == [] then []
    else
      PushedIces(schedule[..|schedule| - 1]) + IceBy(schedule[|schedule| - 1])
  }

  lemma Emit(messages: seq<Message>, x: Message)
    ensures Tracks(messages + [x]) == Tracks(messages) + if x.VideoTransceiver? then [x] else []
    ensures Ices(messages + [x]) == Ices(messages) + if x.IceCandidate? then [x] else []
  {
  }

  lemma {:induction false} SplitLength(messages: seq<Message>)
    ensures |Tracks(messages)| + |Ices(messages)| == |messages|
  {
    if messages != [] {
      SplitLength(messages[..|messages| - 1]);
    }
  }

  /** What has been emitted of each kind, followed by what is still queued. */
  function AllTracks(m: Merge): seq<Message> { Tracks(m.emitted) + TrackMessages(m.tracks) }

  function AllIces(m: Merge): seq<Message> { Ices(m.emitted) + IceMessages(m.ices) }

  lemma Associate(a: seq<Message>, b: seq<Message>, c: seq<Message>)
    ensures a + b + c == a + (b + c)
  {
  }

  lemma FirstTrack(tracks: seq<Transceiver>)
    requires tracks != []
    ensures TrackMessages(tracks) == [TrackMessage(tracks[0])] + TrackMessages(tracks[1..])
  {
  }

  lemma FirstIce(ices: seq<Candidate>)
    requires ices != []
    ensures IceMessages(ices) == [IceMessage(ices[0])] + IceMessages(ices[1..])
  {
  }

  lemma TrackTaken(emitted: seq<Message>, tracks: seq<Transceiver>)
    requires tracks != []
    ensures Tracks(emitted + [TrackMessage(tracks[0])]) + TrackMessages(tracks[1..]) == Tracks(emitted) + TrackMessages(tracks)
    ensures Ices(emitted + [TrackMessage(tracks[0])]) == Ices(emitted)
  {
    Emit(emitted, TrackMessage(tracks[0]));
    FirstTrack(tracks);
    Associate(Tracks(emitted), [TrackMessage(tracks[0])], TrackMessages(tracks[1..]));
  }

  lemma IceTaken(emitted: seq<Message>, ices: seq<Candidate>)
    requires ices != []
    ensures Ices(emitted + [IceMessage(ices[0])]) + IceMessages(ices[1..]) == Ices(emitted) + IceMessages(ices)
    ensures Tracks(emitted + [IceMessage(ices[0])]) == Tracks(emitted)
  {
    Emit(emitted, IceMessage(ices[0]));
    FirstIce(ices);
    Associate(Ices(emitted), [IceMessage(ices[0])], IceMessages(ices[1..]));
  }

  lemma TrackMessagesConcat(a: seq<Transceiver>, b: seq<Transceiver>)
    ensures TrackMessages(a + b) == TrackMessages(a) + TrackMessages(b)
  {
  }

  lemma IceMessagesConcat(a: seq<Candidate>, b: seq<Candidate>)
    ensures IceMessages(a + b) == IceMessages(a) + IceMessages(b)
  {
  }

  function TrackBy(s: Step): seq<Transceiver> { if s.PushTrack? then [s.track] else [] }

  function IceBy(s: Step): seq<Candidate> { if s.PushIce? then [s.ice] else [] }

  lemma TracksConserved(m: Merge, s: Step)
    requires Enabled(m, s)
    ensures AllTracks(Apply(m, s)) == AllTracks(m) + TrackMessages(TrackBy(s))
  {
    if s.PushTrack? {
      TrackMessagesConcat(m.tracks, [s.track]);
    } else if s.SelectTrack? && m.tracks != [] {
      TrackTaken(m.emitted, m.tracks);
    } else if s.SelectIce? && m.ices != [] {
      IceTaken(m.emitted, m.ices);
    }
  }

  lemma IcesConserved(m: Merge, s: Step)
    requires Enabled(m, s)
    ensures AllIces(Apply(m, s)) == AllIces(m) + IceMessages(IceBy(s))
  {
    if s.PushIce? {
      IceMessagesConcat(m.ices, [s.ice]);
    } else if s.SelectTrack? && m.tracks != [] {
      TrackTaken(m.emitted, m.tracks);
    } else if s.SelectIce? && m.ices != [] {
      IceTaken(m.emitted, m.ices);
    }
  }

  lemma PushedStep(schedule: seq<Step>, i: nat)
    requires 0 < i <= |schedule|
    ensures PushedTracks(schedule[..i]) == PushedTracks(schedule[..i - 1]) + TrackBy(schedule[i - 1])
    ensures PushedIces(schedule[..i]) == PushedIces(schedule[..i - 1]) + IceBy(schedule[i - 1])
  {
    assert schedule[..i][..i - 1] == schedule[..i - 1];
  }

  lemma AccountGrows(start: seq<Message>, pushed: seq<Message>, more: seq<Message>, before: seq<Message>, after: seq<Message>)
    requires before == start + pushed && after == before + more
    ensures after == start + (pushed + more)
  {
    Associate(start, pushed, more);
  }

  lemma {:induction false} TracksAccounted(states: seq<Merge>, schedule: seq<Step>, i: nat)
    requires IsRun(states, schedule) && i < |states|
    ensures AllTracks(states[i]) == AllTracks(states[0]) + TrackMessages(PushedTracks(schedule[..i]))
  {
    if i > 0 {
      var s, ts := schedule[i - 1], PushedTracks(schedule[..i - 1]);
      TracksAccounted(states, schedule, i - 1);
      assert Follows(states[i - 1], s, states[i]);
      TracksConserved(states[i - 1], s);
      PushedStep(schedule, i);
      TrackMessagesConcat(ts, TrackBy(s));
      AccountGrows(AllTracks(states[0]), TrackMessages(ts), TrackMessages(TrackBy(s)), AllTracks(states[i - 1]), AllTracks(states[i]));
    }
  }

  lemma {:induction false} IcesAccounted(states: seq<Merge>, schedule: seq<Step>, i: nat)
    requires IsRun(states, schedule) && i < |states|
    ensures AllIces(states[i]) == AllIces(states[0]) + IceMessages(PushedIces(schedule[..i]))
  {
    if i > 0 {
      var s, cs := schedule[i - 1], PushedIces(schedule[..i - 1]);
      IcesAccounted(states, schedule, i - 1);
      assert Follows(states[i - 1], s, states[i]);
      IcesConserved(states[i - 1], s);
      PushedStep(schedule, i);
      IceMessagesConcat(cs, IceBy(s));
      AccountGrows(AllIces(states[0]), IceMessages(cs), IceMessages(IceBy(s)), AllIces(states[i - 1]), AllIces(states[i]));
    }
  }

  /** What has been emitted is never taken back or reordered. */
  lemma {:induction false} EmissionsStand(states: seq<Merge>, schedule: seq<Step>, h: nat, i: nat)
    requires IsRun(states, schedule) && h <= i < |states|
    ensures states[h].emitted <= states[i].emitted
  {
    if h < i {
      EmissionsStand(states, schedule, h, i - 1);
      assert Follows(states[i - 1], schedule[i - 1], states[i]);
    }
  }

  /** Transceiver messages that follow the queued transceivers of an account carry their fields. */
  lemma TracksCarried(sent: seq<Message>, left: seq<Transceiver>, received: seq<Transceiver>)
    requires sent + TrackMessages(left) == TrackMessages(received)
    ensures |sent| <= |received| && received[|sent|..] == left
    ensures forall j :: 0 <= j < |sent| ==>
              sent[j].VideoTransceiver? && sent[j].direction == received[j].direction && sent[j].mid == received[j].mid
  {
    var all := TrackMessages(received);
    assert |all| == |sent| + |left|;
    forall j | 0 <= j < |sent|
      ensures sent[j].VideoTransceiver? && sent[j].direction == received[j].direction && sent[j].mid == received[j].mid
    {
      assert sent[j] == all[j];
    }
    forall j | 0 <= j < |left| ensures left[j] == received[|sent| + j] {
      assert TrackMessages(left)[j] == all[|sent| + j];
    }
  }

  lemma IcesCarried(sent: seq<Message>, left: seq<Candidate>, received: seq<Candidate>)
    requires sent + IceMessages(left) == IceMessages(received)
    ensures |sent| <= |received| && received[|sent|..] == left
    ensures forall j :: 0 <= j < |sent| ==>
              sent[j].IceCandidate? && sent[j].sdp == received[j].sdp && sent[j].mid == received[j].mid
              && sent[j].mlineIndex == received[j].mlineIndex
  {
    var all := IceMessages(received);
    assert |all| == |sent| + |left|;
    forall j | 0 <= j < |sent|
      ensures sent[j].IceCandidate? && sent[j].sdp == received[j].sdp && sent[j].mid == received[j].mid
              && sent[j].mlineIndex == received[j].mlineIndex
    {
      assert sent[j] == all[j];
    }
    forall j | 0 <= j < |left| ensures left[j] == received[|sent| + j] {
      assert IceMessages(left)[j] == all[|sent| + j];
    }
  }

  /** For every schedule, each kind of message that a fresh stream has emitted carries, field by
      field, the items received so far on its channel, and the queue holds the rest of them: in
      order, nothing lost, nothing repeated, nothing invented. */
  lemma MergeConserves(states: seq<Merge>, schedule: seq<Step>, i: nat)
    requires IsRun(states, schedule) && i < |states| && states[0].emitted == []
    ensures var sent, received := Tracks(states[i].emitted), states[0].tracks + PushedTracks(schedule[..i]);
            && |sent| <= |received| && received[|sent|..] == states[i].tracks
            && forall j :: 0 <= j < |sent| ==>
                 sent[j].VideoTransceiver? && sent[j].direction == received[j].direction && sent[j].mid == received[j].mid
    ensures var sent, received := Ices(states[i].emitted), states[0].ices + PushedIces(schedule[..i]);
            && |sent| <= |received| && received[|sent|..] == states[i].ices
            && forall j :: 0 <= j < |sent| ==>
                 sent[j].IceCandidate? && sent[j].sdp == received[j].sdp && sent[j].mid == received[j].mid
                 && sent[j].mlineIndex == received[j].mlineIndex
  {
    TracksAccounted(states, schedule, i);
    IcesAccounted(states, schedule, i);
    var w, ts, cs := states[i], PushedTracks(schedule[..i]), PushedIces(schedule[..i]);
    TrackMessagesConcat(states[0].tracks, ts);
    IceMessagesConcat(states[0].ices, cs);
    assert AllTracks(states[0]) == TrackMessages(states[0].tracks) && AllIces(states[0]) == IceMessages(states[0].ices);
    TracksCarried(Tracks(w.emitted), w.tracks, states[0].tracks + ts);
    IcesCarried(Ices(w.emitted), w.ices, states[0].ices + cs);
  }

  /** Neither channel ever holds more than 100 items, and below that an open one takes another. */
  lemma {:induction false} QueuesBounded(states: seq<Merge>, schedule: seq<Step>, i: nat, t: Transceiver, c: Candidate)
    requires IsRun(states, schedule) && i < |states| && |states[0].tracks| <= 100 && |states[0].ices| <= 100
    ensures |states[i].tracks| <= 100 && |states[i].ices| <= 100
    ensures states[i].tracksOpen ==> (Enabled(states[i], PushTrack(t)) <==> |states[i].tracks| < 100)
    ensures states[i].icesOpen ==> (Enabled(states[i], PushIce(c)) <==> |states[i].ices| < 100)
  {
    if i > 0 {
      QueuesBounded(states, schedule, i - 1, t, c);
      assert Follows(states[i - 1], schedule[i - 1], states[i]);
    }
  }

  /** Items pushed are items emitted plus items still queued. */
  lemma MergeCounts(states: seq<Merge>, schedule: seq<Step>)
    requires IsRun(states, schedule) && states[0].emitted == []
    ensures var w := states[|schedule|];
            |states[0].tracks| + |states[0].ices| + |PushedTracks(schedule)| + |PushedIces(schedule)|
            == |w.emitted| + |w.tracks| + |w.ices|
  {
    TracksAccounted(states, schedule, |schedule|);
    IcesAccounted(states, schedule, |schedule|);
    assert schedule[..|schedule|] == schedule;
    var w := states[|schedule|];
    SplitLength(w.emitted);
    assert |AllTracks(w)| == |Tracks(w.emitted)| + |w.tracks|;
    assert |AllIces(w)| == |Ices(w.emitted)| + |w.ices|;
  }

  /** Both queues as they stand, with nothing emitted. */
  function Start(tracks: seq<Transceiver>, ices: seq<Candidate>): Merge {
    Merge(tracks, ices, true, true, [])
  }

  /** A stream that keeps both queues in order and takes nothing twice. */
  ghost predicate Interleaves(messages: seq<Message>, tracks: seq<Transceiver>, ices: seq<Candidate>) {
    && |Tracks(messages)| <= |tracks| && |Ices(messages)| <= |ices|
    && (forall j :: 0 <= j < |Tracks(messages)| ==>
          var m := Tracks(messages)[j]; m.VideoTransceiver? && m.direction == tracks[j].direction && m.mid == tracks[j].mid)
    && (forall j :: 0 <= j < |Ices(messages)| ==>
          var m := Ices(messages)[j];
          m.IceCandidate? && m.sdp == ices[j].sdp && m.mid == ices[j].mid && m.mlineIndex == ices[j].mlineIndex)
  }

  /** The state from which these messages have been emitted. */
  ghost function Emitted(tracks: seq<Transceiver>, ices: seq<Candidate>, messages: seq<Message>): Merge
    requires Interleaves(messages, tracks, ices)
  {
    Merge(tracks[|Tracks(messages)|..], ices[|Ices(messages)|..], true, true, messages)
  }

  /** Some schedule of selections alone, from the two queues, emits these messages. */
  ghost predicate Emits(tracks: seq<Transceiver>, ices: seq<Candidate>, states: seq<Merge>, schedule: seq<Step>, messages: seq<Message>) {
    && IsRun(states, schedule) && states[0] == Start(tracks, ices) && states[|schedule|].emitted == messages
    && PushedTracks(schedule) == [] && PushedIces(schedule) == []
  }

  lemma InterleavesPrefix(tracks: seq<Transceiver>, ices: seq<Candidate>, messages: seq<Message>, x: Message)
    requires Interleaves(messages + [x], tracks, ices)
    ensures Interleaves(messages, tracks, ices)
  {
    Emit(messages, x);
    forall j | 0 <= j < |Tracks(messages)| ensures Tracks(messages)[j] == Tracks(messages + [x])[j] {}
    forall j | 0 <= j < |Ices(messages)| ensures Ices(messages)[j] == Ices(messages + [x])[j] {}
  }

  lemma NextItem(tracks: seq<Transceiver>, ices: seq<Candidate>, messages: seq<Message>, x: Message)
    requires Interleaves(messages + [x], tracks, ices) && Interleaves(messages, tracks, ices)
    ensures x.VideoTransceiver? ==>
              && |Tracks(messages)| < |tracks| && x == TrackMessage(tracks[|Tracks(messages)|])
              && |Tracks(messages + [x])| == |Tracks(messages)| + 1 && Ices(messages + [x]) == Ices(messages)
    ensures x.IceCandidate? ==>
              && |Ices(messages)| < |ices| && x == IceMessage(ices[|Ices(messages)|])
              && |Ices(messages + [x])| == |Ices(messages)| + 1 && Tracks(messages + [x]) == Tracks(messages)
  {
    Emit(messages, x);
    if x.VideoTransceiver? {
      assert Tracks(messages + [x])[|Tracks(messages)|] == x;
    } else {
      assert Ices(messages + [x])[|Ices(messages)|] == x;
    }
  }

  lemma NextEmission(tracks: seq<Transceiver>, ices: seq<Candidate>, messages: seq<Message>, x: Message)
    requires Interleaves(messages + [x], tracks, ices) && Interleaves(messages, tracks, ices)
    ensures Follows(Emitted(tracks, ices, messages), if x.VideoTransceiver? then SelectTrack else SelectIce,
                    Emitted(tracks, ices, messages + [x]))
  {
    NextItem(tracks, ices, messages, x);
  }

  lemma {:induction false} InterleavingEmitted(tracks: seq<Transceiver>, ices: seq<Candidate>, messages: seq<Message>)
    returns (states: seq<Merge>, schedule: seq<Step>)
    requires Interleaves(messages, tracks, ices)
    ensures Emits(tracks, ices, states, schedule, messages) && states[|schedule|] == Emitted(tracks, ices, messages)
    decreases |messages|
  {
    if messages == [] {
      states, schedule := [Start(tracks, ices)], [];
    } else {
      var prefix, x := messages[..|messages| - 1], messages[|messages| - 1];
      assert messages == prefix + [x];
      InterleavesPrefix(tracks, ices, prefix, x);
      NextEmission(tracks, ices, prefix, x);
      var states0, schedule0 := InterleavingEmitted(tracks, ices, prefix);
      var s := if x.VideoTransceiver? then SelectTrack else SelectIce;
      states, schedule := states0 + [Emitted(tracks, ices, messages)], schedule0 + [s];
      assert schedule[..|schedule| - 1] == schedule0;
    }
  }

  lemma EmittedInterleaves(tracks: seq<Transceiver>, ices: seq<Candidate>, states: seq<Merge>, schedule: seq<Step>, messages: seq<Message>)
    requires Emits(tracks, ices, states, schedule, messages)
    ensures Interleaves(messages, tracks, ices)
  {
    MergeConserves(states, schedule, |schedule|);
    assert schedule[..|schedule|] == schedule;
    assert tracks + [] == tracks && ices + [] == ices;
  }

  /** The streams that selections can emit from two queues are exactly their interleavings. */
  lemma EmittedIffInterleaving(tracks: seq<Transceiver>, ices: seq<Candidate>, messages: seq<Message>)
    ensures Interleaves(messages, tracks, ices) <==>
            exists states, schedule :: Emits(tracks, ices, states, schedule, messages)
  {
    if Interleaves(messages, tracks, ices) {
      var states, schedule := InterleavingEmitted(tracks, ices, messages);
    }
    forall states, schedule | Emits(tracks, ices, states, schedule, messages) ensures Interleaves(messages, tracks, ices) {
      EmittedInterleaves(tracks, ices, states, schedule, messages);
    }
  }

  /** The loop of the stream, for as long as it is polled: each entry of the schedule says
      which branch the `select!` prefers; a branch that is not ready is not taken. */
  method Stream(tracks: seq<Transceiver>, ices: seq<Candidate>, preferTrack: seq<bool>)
    returns (emitted: seq<Message>, tracksLeft: seq<Transceiver>, icesLeft: seq<Candidate>)
    ensures var sent := Tracks(emitted);
            && |sent| <= |tracks| && tracks[|sent|..] == tracksLeft
            && forall j :: 0 <= j < |sent| ==>
                 sent[j].VideoTransceiver? && sent[j].direction == tracks[j].direction && sent[j].mid == tracks[j].mid
    ensures var sent := Ices(emitted);
            && |sent| <= |ices| && ices[|sent|..] == icesLeft
            && forall j :: 0 <= j < |sent| ==>
                 sent[j].IceCandidate? && sent[j].sdp == ices[j].sdp && sent[j].mid == ices[j].mid
                 && sent[j].mlineIndex == ices[j].mlineIndex
    ensures |preferTrack| >= |tracks| + |ices| ==> tracksLeft == [] && icesLeft == []
  {
    emitted, tracksLeft, icesLeft := [], tracks, ices;
    for i := 0 to |preferTrack|
      invariant Tracks(emitted) + TrackMessages(tracksLeft) == TrackMessages(tracks)
      invariant Ices(emitted) + IceMessages(icesLeft) == IceMessages(ices)
      invariant |tracksLeft| + |icesLeft| + i <= |tracks| + |ices| || (tracksLeft == [] && icesLeft == [])
    {
      if tracksLeft != [] && (preferTrack[i] || icesLeft == []) {
        TrackTaken(emitted, tracksLeft);
        emitted, tracksLeft := emitted + [TrackMessage(tracksLeft[0])], tracksLeft[1..];
      } else if icesLeft != [] {
        IceTaken(emitted, icesLeft);
        emitted, icesLeft := emitted + [IceMessage(icesLeft[0])], icesLeft[1..];
      }
    }
    TracksCarried(Tracks(emitted), tracksLeft, tracks);
    IcesCarried(Ices(emitted), icesLeft, ices);
  }
}
