/** A peer connection: its send and receive classifier, its one-shot receivers, its factory lookup. */
module PeerConnections {
  import opened Wrappers

  /** Whether a byte counter was growing at its last sample, and that sample. Stands for both
      VideoSendState (Sending / NotSending) and VideoReceiveState (Receiving / NotReceiving). */
  datatype Activity = Active(bytes: nat) | Idle(bytes: nat)

  /** What a channel of a peer connection carries. */
  datatype Kind = ConnectionStates | IceCandidates | VideoTracks

  /** The receiving end of a channel fed by the peer connection's observers. The three channels
      that are made together share a number. */
  datatype Receiver = Receiver(kind: Kind, channel: nat)

  datatype Connection = Connection(
    id: string,
    name: string,
    poolId: nat,
    videoSend: Activity,
    videoReceive: Activity,
    connectionStateRx: Option<Receiver>,
    iceCandidatesRx: Option<Receiver>,
    videoTrackRx: Option<Receiver>)

  /** The byte counters of one statistics report, a sample per stream. */
  datatype Stats = Stats(bytesReceived: seq<nat>, bytesSent: seq<nat>)

  /** One export: the report (or the failure to read it) and whether this pass polls the state. */
  datatype Export = Export(report: Result<Stats, ServerError>, poll: bool)

  function Classify(last: Activity, bytes: nat): Activity {
    if bytes > last.bytes then Active(bytes) else Idle(bytes)
  }

  function ClassifyAll(last: Activity, samples: seq<nat>): Activity {
    if samples == [] then last
    else Classify(ClassifyAll(last, samples[..|samples| - 1]), samples[|samples| - 1])
  }

  function Exported(c: Connection, e: Export): Connection {
    match e.report
    case Err(_) => c
    case Ok(stats) =>
      if e.poll then
        c.(videoReceive := ClassifyAll(c.videoReceive, stats.bytesReceived),
           videoSend := ClassifyAll(c.videoSend, stats.bytesSent))
      else c
  }

  function ExportAll(c: Connection, exports: seq<Export>): Connection {
    if exports == [] then c
    else Exported(ExportAll(c, exports[..|exports| - 1]), exports[|exports| - 1])
  }

  /** A connection as it is built: idle both ways, holding the receiver of each of its three channels. */
  function NewConnection(id: string, name: string, poolId: nat, channel: nat): (c: Connection)
    ensures IsNew(c) && c.id == id && c.name == name && c.poolId == poolId
    ensures c.connectionStateRx == Some(Receiver(ConnectionStates, channel))
    ensures c.iceCandidatesRx == Some(Receiver(IceCandidates, channel))
    ensures c.videoTrackRx == Some(Receiver(VideoTracks, channel))
  {
    Connection(id, name, poolId, Idle(0), Idle(0),
               connectionStateRx := Some(Receiver(ConnectionStates, channel)),
               iceCandidatesRx := Some(Receiver(IceCandidates, channel)),
               videoTrackRx := Some(Receiver(VideoTracks, channel)))
  }

  predicate IsNew(c: Connection) {
    && c.videoSend == Idle(0) && c.videoReceive == Idle(0)
    && c.connectionStateRx.Some? && c.iceCandidatesRx.Some? && c.videoTrackRx.Some?
  }

  /** The sender samples that the polling exports among these read, in order. */
  function PolledSent(exports: seq<Export>): seq<nat> {
    if exports == [] then []
    else PolledSent(exports[..|exports| - 1]) + SentSamples(exports[|exports| - 1])
  }

  function SentSamples(e: Export): seq<nat> {
    if e.poll && e.report.Ok? then e.report.value.bytesSent else []
  }

  function PolledReceived(exports: seq<Export>): seq<nat> {
    if exports == [] then []
    else PolledReceived(exports[..|exports| - 1]) + ReceivedSamples(exports[|exports| - 1])
  }

  function ReceivedSamples(e: Export): seq<nat> {
    if e.poll && e.report.Ok? then e.report.value.bytesReceived else []
  }

  /** What the samples taken so far say: a counter is active when its latest sample exceeds
      the one before, with 0 standing for the sample before the first. */
  function Verdict(samples: seq<nat>): Activity {
    if samples == [] then Idle(0)
    else
      var latest := samples[|samples| - 1];
      var previous := if |samples| > 1 then samples[|samples| - 2] else 0;
      if latest > previous then Active(latest) else Idle(latest)
  }

  /** Classifying further samples continues the verdict on all samples so far. */
  lemma VerdictExtends(samples: seq<nat>, more: seq<nat>)
    ensures ClassifyAll(Verdict(samples), more) == Verdict(samples + more)
  {
  }

  /** After any exports of a new connection, failed, unpolled or polled with any number of
      streams, each direction is the verdict on its own polled samples, and nothing else moved. */
  lemma {:induction false} ExportsAreVerdicts(c: Connection, exports: seq<Export>)
    requires IsNew(c)
    ensures ExportAll(c, exports) ==
            c.(videoSend := Verdict(PolledSent(exports)), videoReceive := Verdict(PolledReceived(exports)))
  {
    if exports != [] {
      var prefix, e := exports[..|exports| - 1], exports[|exports| - 1];
      ExportsAreVerdicts(c, prefix);
      VerdictExtends(PolledSent(prefix), SentSamples(e));
      VerdictExtends(PolledReceived(prefix), ReceivedSamples(e));
      assert PolledSent(prefix) + [] == PolledSent(prefix);
      assert PolledReceived(prefix) + [] == PolledReceived(prefix);
    }
  }

  /** The factory that add_track and add_transceiver create their track with, out of a pool
      that holds the ids 0..factories-1. */
  function TrackFactory(poolId: nat, factories: nat): (r: Result<nat, ServerError>)
    ensures r.Ok? <==> poolId < factories
    ensures r.Ok? ==> r.value == poolId
    ensures r.Err? ==> r.error.WebRTCError?
  {
    if poolId < factories then Ok(poolId) else Err(WebRTCError("unknown factory id"))
  }

  class PeerConnectionManager {
    const id: string
    const name: string
    const poolId: nat
    var videoSend: Activity
    var videoReceive: Activity
    var connectionStateRx: Option<Receiver>
    var iceCandidatesRx: Option<Receiver>
    var videoTrackRx: Option<Receiver>

    constructor (poolId: nat, id: string, name: string, channel: nat)
      ensures View() == NewConnection(id, name, poolId, channel)
    {
      this.id, this.name, this.poolId := id, name, poolId;
      videoSend, videoReceive := Idle(0), Idle(0);
      connectionStateRx := Some(Receiver(ConnectionStates, channel));
      iceCandidatesRx := Some(Receiver(IceCandidates, channel));
      videoTrackRx := Some(Receiver(VideoTracks, channel));
    }

    function View(): Connection
      reads this
    {
      Connection(id, name, poolId, videoSend, videoReceive, connectionStateRx, iceCandidatesRx, videoTrackRx)
    }

    method SetSendState(bytesSent: nat)
      modifies this`videoSend
      ensures videoSend == Classify(old(videoSend), bytesSent)
    {
      videoSend := if IsSending(bytesSent) then Active(bytesSent) else Idle(bytesSent);
    }

    predicate IsSending(bytesSent: nat)
      reads this
    {
      var lastBytesSent := match videoSend case Active(bytes) => bytes case Idle(bytes) => bytes;
      bytesSent > lastBytesSent
    }

    method SetReceiveState(bytesReceived: nat)
      modifies this`videoReceive
      ensures videoReceive == Classify(old(videoReceive), bytesReceived)
    {
      videoReceive := if IsReceiving(bytesReceived) then Active(bytesReceived) else Idle(bytesReceived);
    }

    predicate IsReceiving(bytesReceived: nat)
      reads this
    {
      var lastBytesReceived := match videoReceive case Active(bytes) => bytes case Idle(bytes) => bytes;
      bytesReceived > lastBytesReceived
    }

    method ExportStats(report: Result<Stats, ServerError>, shouldPollState: bool) returns (r: Result<(), ServerError>)
      modifies this`videoSend, this`videoReceive
      ensures r.Ok? <==> report.Ok?
      ensures View() == Exported(old(View()), Export(report, shouldPollState))
    {
      if report.Err? {
        return Err(report.error);
      }
      var stats := report.value;
      for i := 0 to |stats.bytesReceived|
        invariant videoSend == old(videoSend)
        invariant videoReceive == if shouldPollState then ClassifyAll(old(videoReceive), stats.bytesReceived[..i]) else old(videoReceive)
      {
        if shouldPollState {
          SetReceiveState(stats.bytesReceived[i]);
        }
        assert stats.bytesReceived[..i + 1][..i] == stats.bytesReceived[..i];
      }
      assert stats.bytesReceived[..|stats.bytesReceived|] == stats.bytesReceived;
      ghost var received := videoReceive;
      for i := 0 to |stats.bytesSent|
        invariant videoReceive == received
        invariant videoSend == if shouldPollState then ClassifyAll(old(videoSend), stats.bytesSent[..i]) else old(videoSend)
      {
        if shouldPollState {
          SetSendState(stats.bytesSent[i]);
        }
        assert stats.bytesSent[..i + 1][..i] == stats.bytesSent[..i];
      }
      assert stats.bytesSent[..|stats.bytesSent|] == stats.bytesSent;
      return Ok(());
    }

    /** Hands the receiver out once; a second request is an error and changes nothing. */
    method TakeIceCandidatesRx() returns (r: Result<Receiver, ServerError>)
      modifies this`iceCandidatesRx
      ensures iceCandidatesRx == None
      ensures match old(iceCandidatesRx) case Some(rx) => r == Ok(rx) case None => r.Err? && r.error.InternalError?
    {
      r := match iceCandidatesRx
        case Some(rx) => Ok(rx)
        case None => Err(InternalError("ice_candidates_rx already taken"));
      iceCandidatesRx := None;
    }

    method TakeVideoTrackRx() returns (r: Result<Receiver, ServerError>)
      modifies this`videoTrackRx
      ensures videoTrackRx == None
      ensures match old(videoTrackRx) case Some(rx) => r == Ok(rx) case None => r.Err? && r.error.InternalError?
    {
      r := match videoTrackRx
        case Some(rx) => Ok(rx)
        case None => Err(InternalError("video_track_rx already taken"));
      videoTrackRx := None;
    }
  }
}
