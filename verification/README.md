# Verification of the load test server

The server keeps a table of sessions. Each session owns a pool of peer connection factories
and a map of peer connections. gRPC requests create sessions and connections, start and stop
sessions, take statistics and hand out observer streams, all at the same time; a background
task wakes up once a second and samples the connections. This project models that logic in
Dafny and proves what it keeps over every run.

Check everything with `dafny verify dfyconfig.toml`.

## How the model is laid out

| file | contents |
|---|---|
| `Wrappers.dfy` | options, results, errors |
| `Counts.dfy` | load vectors: totals, peaks, squares, even spread |
| `PoolProtocol.dfy` | concurrent calls on one pool, one atomic step per load and per increment |
| `WebRtcPools.dfy` | the pool as a class, used by one call at a time, and runs of such calls |
| `PeerConnections.dfy` | the connection class: classifier, export, one-shot receivers |
| `Helpers.dfy` | time differences |
| `Sessions.dfy` | the session class: start, stop, tally, snapshot, export |
| `Lifecycle.dfy` | any sequence of start, stop and statistics calls on one session |
| `Data.dfy`, `Handlers.dfy` | the session table, one turn of the metrics loop, the handlers run alone |
| `Observer.dfy` | the merge of two channels behind an observer stream |
| `Server.dfy` | the whole server as a transition system with guards |
| `ServerInvariants.dfy` | the invariant of every reachable state |
| `ServerPool.dfy`, `ServerRuns.dfy`, `ServerActivity.dfy` | balance, accounting, isolation, lifecycle, statistics, observers, schedule and activity over every run |
| `ServerProvenance.dfy` | where the connections of every reachable state, and the receivers handed out, come from |
| `ServerSequential.dfy`, `ServerPass.dfy` | the handlers and a turn of the metrics loop, run undisturbed, are runs of the transition system |

The classes mutate their fields as the Rust structs do, and each method is tied to a function
on values (`AfterStart`, `Exported`, `TallyOf`, `AfterCreate`, ...). The transition system
takes its steps with the same functions, so the theorems about runs are about what the
methods do.

Modelling decisions:

- Memory is sequentially consistent: each load and each increment of a count is one step, and
  steps of different calls interleave freely. `min_by` reloads both counts at every comparison;
  the model does too, in an iteration order of each call's own.
- A guard on a map entry is modelled per key. The map really locks whole shards, which allows
  fewer interleavings than the model does.
- Building a connection or a factory and reading statistics may fail or return any samples.
- An `i32` counter wraps, as in release builds; a debug build would panic instead.
- Clock readings are integers in nanoseconds and may go backwards unless a lemma says not.
- The remainder by a zero polling period panics, which ends the metrics task for good. The
  documentation's own example request leaves the period at its default of 0, so the code
  does not do what the documentation suggests there. `ZeroPeriodKills` exhibits such a run;
  `PassDiesIff` says exactly when a pass dies, by the periods of the sessions present when it
  begins; `PositivePeriodsKeepAlive` says what clients can do to prevent it.
- A clock that is set back can take reported elapsed times back, which a reader of the
  interface would not expect. `ClockSetBack` exhibits it, and `ElapsedGoesBackIff` and
  `RepliesGoBackIff` say exactly when.
- The documentation says that stopping a session cleans up its resources. The code only
  records the state and the time, and so does the model.

## Model

| member | source | states |
|---|---|---|
| PoolProtocol.BalanceBound | src/webrtc_pool.rs:75-87 | With at most t calls in flight, under every interleaving of their loads and increments, each scanning in its own order, the count of any factory plus the increments settled on it but not yet made exceeds the count of any other by at most t |
| PoolProtocol.BoundIsReached | src/webrtc_pool.rs:75-87 | For every t and every pool of two or more factories some run with t calls in flight ends with two counts exactly t apart, so the bound is the best possible |
| PoolProtocol.IncrementKeepsBudget | src/webrtc_pool.rs:85-87 | Raising a factory to a new level retires the call that did it, so the calls that can still push past a level shrink as levels rise |
| WebRtcPools.WebRtcPool.New | src/webrtc_pool.rs:43-68 | Succeeds exactly when the encoder pool and every factory can be built, and then holds as many factories as asked for, below 2^32, all with count 0; a larger number loses its high bits |
| WebRtcPools.WebRtcPool.CreatePeerConnectionManager | src/webrtc_pool.rs:70-88 | Picks the first least loaded factory in iteration order and counts it whether or not the connection can then be built; an empty pool is an error that changes nothing |
| WebRtcPools.GreedyDistribution | src/webrtc_pool.rs:77-86 | After k = n * q + r calls, one after another and with r < n, exactly r of the n factories hold q + 1 and the rest hold q |
| WebRtcPools.TieBreakingIrrelevant | src/webrtc_pool.rs:77-86 | The multiset of counts after k calls does not depend on the map's iteration order |
| WebRtcPools.GreedyOptimal | src/webrtc_pool.rs:46-86 | No way of spreading k creations over the factories has a lower maximum or a lower sum of squares |
| PeerConnections.ExportsAreVerdicts | src/peer_connection.rs:221-245 | After any failed, unpolled or polled exports of a new connection each direction is the verdict on its own polled samples, and nothing else changed |
| PeerConnections.PeerConnectionManager.ExportStats | src/peer_connection.rs:221-245 | A failed read is an error that changes nothing; otherwise every sample of a polling export is classified in order, receivers and senders apart |
| PeerConnections.PeerConnectionManager.TakeIceCandidatesRx | src/peer_connection.rs:253-257 | Hands the receiver out once; afterwards it is gone and asking again is an internal error |
| PeerConnections.PeerConnectionManager.TakeVideoTrackRx | src/peer_connection.rs:259-263 | The same for the video receiver |
| Helpers.Elapsed | src/helpers.rs:6-19 | The whole seconds, of 1 000 000 000 ns, between two readings, rounded down, and nothing if one is missing or they are out of order |
| Sessions.Session.Start | src/session.rs:104-119 | Only a created session starts; it records the time, and a refused call changes nothing |
| Sessions.Session.Stop | src/session.rs:121-140 | Only a started session stops; it records the time, and a refused call changes nothing |
| Sessions.Session.PeerConnectionStates | src/session.rs:153-168 | Counting the connections one by one in any order yields, for each direction, the number of active ones and of the others, in 32-bit counters |
| Sessions.Session.ExportPeerConnectionStats | src/session.rs:142-150 | Every connection is exported once; a failed export leaves its connection alone and the others proceed |
| Sessions.Session.AddPeerConnection | src/session.rs:180-196 | Stores the connection under its own id, replacing any that had it, and touches nothing else |
| Sessions.Session.GetPeerConnection | src/session.rs:198-211 | Finds a connection under its id, or reports that there is none |
| Sessions.Session.GetStats | src/stats.rs:23-35 | The reply is the snapshot of the session: its number of connections, tally, state, times and elapsed time |
| Sessions.CountOneExtends | src/session.rs:156-165 | Counting one more connection extends the tally of those counted so far, wrap-around included |
| Sessions.TallyAddsUpIff | src/session.rs:153-168 | The counters of each direction add up to the number of connections if and only if every one of the four groups fits an i32 |
| Sessions.TallyExact | src/session.rs:153-168 | And then each counter is the size of its group |
| Lifecycle.PhasesExist | src/session.rs:104-140 | Every sequence of calls has exactly one first start and first stop after it, or their absence, so the laws below cover every history |
| Lifecycle.LifecycleOfHistory | src/session.rs:104-140 | After any calls, the state and both times are those of the first start and the first stop after it |
| Lifecycle.AcceptedCalls | src/session.rs:104-129 | A start is accepted if and only if it is the first, a stop if and only if it is the first after that start; refused calls change nothing |
| Lifecycle.HistoryIsForward | src/session.rs:104-140 | The states a session goes through are a prefix of created, started, stopped |
| Lifecycle.ElapsedNeverDecreases | src/session.rs:231-237 | Under a clock that does not go back, of two statistics calls the later never reports less elapsed time, whatever calls lie between |
| Lifecycle.ElapsedOfHistory | src/session.rs:231-237 | Under any clock the reported time is 0 before the start, the whole seconds since it while running, and fixed from the stop on |
| Lifecycle.ElapsedGoesBackIff | src/session.rs:231-237 | Under any clock, a later statistics call reports less than an earlier one if and only if the session was running at the earlier and, at the later or at the stop before it, the clock showed fewer whole seconds since the start |
| Lifecycle.ClockSetBack | src/helpers.rs:6-19 | A history in which that happens: started at 0, read at 5 and then at 2 seconds |
| Data.Data.AddSession | src/data.rs:40-46 | Stores the session under its own id, replacing any that had it; the table stays well formed |
| Data.Data.GetSession | src/data.rs:48-55 | Finds the session or reports the unknown id |
| Data.MetricsTask.Pass | src/data.rs:68-87 | One turn visits every session once, polling those whose period divides the counter, and counts on if there is a session and restarts otherwise; at a zero period it dies with the earlier sessions visited and the rest untouched |
| Data.MetricsTask.PassOver | src/data.rs:68-87 | The same turn over the session table in any iteration order of it, which leaves the table well formed |
| Handlers.CreateSession | src/handlers.rs:96-112 | A created session is stored under its id with the name, the polling period and the number of factories asked for, not started, without connections; a failure stores nothing |
| Handlers.CreatePeerConnection | src/handlers.rs:171-188 | The count of the picked factory is taken even if the connection fails; on success the new connection is stored with the id and name asked for, that factory's id, and the receivers of three channels of its own, each under its kind; an unknown session is an error |
| Handlers.Observe | src/handlers.rs:330-345 | Hands out both receivers once and leaves neither behind; later requests, unknown sessions and unknown connections are errors |
| Observer.MergeConserves | src/handlers.rs:346-392 | For every schedule of arrivals, closings and selections, the i-th emitted message of each kind carries, field by field, the i-th item received on its channel, and the queue holds exactly the items not yet emitted |
| Observer.EmissionsStand | src/handlers.rs:346-392 | What the stream has emitted is never taken back or reordered |
| Observer.QueuesBounded | src/peer_connection.rs:40-42 | Neither channel ever holds more than 100 items, and an open one takes another exactly while it holds fewer |
| Observer.MergeCounts | src/handlers.rs:346-392 | Items received are items emitted plus items still queued |
| Observer.EmittedIffInterleaving | src/handlers.rs:348-390 | A stream can be emitted from two queues if and only if, field by field, it is an interleaving of prefixes of them |
| Observer.Stream | src/handlers.rs:346-392 | The loop emits from both channels in order, field by field and without loss, and has emptied them after as many rounds as there are items |
| ServerInvariants.RunInv | src/session.rs:267-288 | In every reachable state exclusive guards exclude all others, every request in flight fits its session, every connection refers to its session's own pool, and receivers are paired |
| ServerInvariants.GuardedSessionStays | src/session.rs:267-276 | While a statistics request holds its exclusive guard no step of anyone changes the session |
| ServerPool.ServerBalance | src/handlers.rs:171-188 | In every state of every run with at most t scans in flight on a session, factory loads, increments to come included, differ by at most t |
| ServerPool.SequentialCreationsSpreadEvenly | src/webrtc_pool.rs:70-88 | If a session's scans never overlap, k = n * q + r increments with r < n leave exactly r of the n factories with q + 1 and the rest with q |
| ServerPool.ExactLedger | src/handlers.rs:171-188 | In every state of every run the count of a factory is the number of increments that picked it, which is its living connections plus those between increment and insert plus failed builds plus replaced connections |
| ServerPool.PoolAccounting | src/webrtc_pool.rs:85-87 | So the connections living on a factory and those between increment and insert number at most its count |
| ServerPool.CountsAreIncrements | src/webrtc_pool.rs:86 | The counts of a pool add up to the increments performed since the session was created |
| ServerPool.LookupNeverMisses | src/peer_connection.rs:153-155 | In every reachable state the factory lookup of add_track and add_transceiver gives the connection's own pool id for every session and connection that exist |
| ServerProvenance.Provenance | src/handlers.rs:171-188 | Every connection of every reachable state goes back to one call in the life of its session: it has the id and name that call asked for, lives on the factory whose count that call raised, and holds only receivers of the channels made for it, each under its kind |
| ServerProvenance.LookupFindsMaker | src/peer_connection.rs:153-159 | The factory that the lookup finds is the one whose count the connection's own call raised |
| ServerProvenance.ObserverGetsItsOwn | src/handlers.rs:344-345 | An observer request that succeeds is handed the video and the ICE receiver that were made together for its connection |
| ServerRuns.Isolation | src/handlers.rs:96-188 | Over any stretch of a run in which no step works on a session, that session stays exactly as it was, or absent |
| ServerRuns.IndexAgreement | src/data.rs:40-46 | In every reachable state sessions and connections are stored under their own ids |
| ServerRuns.SessionAsRequested | src/session.rs:75-99 | Until it is replaced, a session has the name, the polling period and the number of factories that the request that created it asked for |
| ServerRuns.LifecycleInRun | src/session.rs:104-140 | Whatever else the server does, the state and times of a session are those of its first start since it was created and its first stop after that |
| ServerRuns.StatsReplyIsSnapshot | src/handlers.rs:136-147 | Every statistics reply, though gathered connection by connection, is the snapshot of the session at one instant |
| ServerRuns.StatsReplyAddsUp | src/stats.rs:23-34 | The counters of a reply add up to its number of connections if and only if each fits an i32, in every interleaving |
| ServerRuns.ReplyFields | src/stats.rs:23-35 | Every reply gives the id, name, state, both times and the number of connections of its session, and an elapsed time in whole seconds of a nanosecond clock |
| ServerRuns.ReplySeconds | src/helpers.rs:6-19 | A reply's elapsed time is 0 before the session's first start, from then the whole seconds since it, and from the first stop on those between the two |
| ServerRuns.RepliesNeverGoBack | src/stats.rs:33 | Successive replies on one incarnation of a session never report less elapsed time while its clock readings do not decrease |
| ServerRuns.RepliesGoBackIff | src/stats.rs:33 | Under any clock, exactly when a later reply on one incarnation of a session reports less than an earlier one |
| ServerRuns.SingleObserver | src/handlers.rs:338-345 | Per inserted connection at most one observer request succeeds, and one has exactly when the receivers are gone |
| ServerRuns.ReceiversTogether | src/peer_connection.rs:253-263 | Outside a hand-over both receivers of a connection are present or both are taken |
| ServerRuns.HandOverCompletes | src/handlers.rs:344-345 | An observer that got the video receiver always gets the ICE receiver, so no receiver is lost to a failed request |
| ServerRuns.CounterGrows | src/data.rs:78-84 | Once any session exists, the tick counter grows by exactly one on every pass and never restarts |
| ServerRuns.CounterStartsAtOne | src/data.rs:64-84 | While no session has existed the counter reads 1 at every pass |
| ServerRuns.PassDiesIff | src/data.rs:68-70 | A pass that is over, with no session created meanwhile, has killed the metrics task if and only if some session present at its beginning had polling period 0 |
| ServerRuns.ZeroPeriodKills | src/data.rs:70 | Creating one session with period 0 and letting one tick pass kills the task |
| ServerRuns.PositivePeriodsKeepAlive | src/data.rs:70 | While every session was created with a positive period the task is alive |
| ServerRuns.ZeroPeriodBlocks | src/data.rs:68-78 | A session of period 0 that is not replaced lets no pass end that has it still to visit |
| ServerRuns.MetricsDieIff | src/data.rs:70 | In every run the task is dead if and only if it has begun to visit a session with period 0 |
| ServerRuns.PollingFrequency | src/data.rs:64-87 | Over n passes from counter e a session created with period p is polled exactly (e + n - 1) / p - (e - 1) / p times |
| ServerRuns.OnePollPerPeriod | src/data.rs:68-87 | Any p consecutive passes poll a session created with period p exactly once |
| ServerActivity.ActivityIsVerdict | src/peer_connection.rs:221-307 | In every run a connection's state is the verdict on the samples polled since it was inserted, whatever failed or interleaved |
| ServerActivity.ReportedVerdicts | src/session.rs:153-168 | The numbers a reply reports are those of the connections whose latest polled sample exceeded the one before, with no assumption on the reports |
| ServerActivity.FirstPassBounds | src/data.rs:68-76 | A connection followed from any moment is first exported in the pass then under way or coming, or in the one after it; which of the two is certain unless its session or it came in the middle of that pass |
| ServerActivity.SteadyActivity | src/data.rs:68-87 | With one stream per connection and no failed read, the state at any moment after insertion is given in closed form by the byte counter at the last two multiples of the period since the first export |
| ServerActivity.ReportedActivity | src/handlers.rs:136-147 | End to end, a reply's numbers of sending and not sending (receiving and not receiving) connections are the numbers whose byte counter did and did not grow between the last two polls |
| ServerSequential.SoloSessionRequests | src/handlers.rs:96-134 | On a session nobody works on, requests to create, start and stop it are served at once and do what the sequential methods do |
| ServerSequential.SoloCreate | src/handlers.rs:171-188 | Run alone, creating a connection in the concurrent model does exactly what the sequential handler does, whether the build succeeds or fails, first minimum included |
| ServerSequential.SoloObserve | src/handlers.rs:338-345 | Run alone, an observer request leaves the connection exactly as the sequential handler does |
| ServerSequential.SoloStats | src/handlers.rs:136-147 | Run alone, a statistics request changes nothing and replies with the snapshot the sequential method takes |
| ServerPass.SoloVisit | src/data.rs:69-76 | Run alone, a visit of the metrics task in the concurrent model does exactly what the loop body does |
| ServerPass.SoloPass | src/data.rs:68-87 | Run alone, a turn of the metrics loop in the concurrent model does exactly what the sequential turn does, up to the first session with period 0 if there is one |

## Left out

- BalanceBound: assumes interleaved atomic loads; the weaker ordering that `Relaxed` permits between different counters is not modelled.
- CounterGrows: the counter is unbounded, where the code's is 64 bits wide and would take longer than any run to wrap; the same holds of the factory counts.
- libwebrtc itself: offers, answers, descriptions, tracks, transceivers, encoder pools and the frame producer are foreign code; only whether a call succeeds and what samples it returns appear, as inputs.
- The sending side of the observer channels, other than as arbitrary arrivals within their capacity.
- Termination of an observer stream: its loop has no exit, so only what it emits is stated.
- gRPC and server start-up, configuration, logging and the global log level, and the statsd gauges: input, output or settings.
- Conversions between enums and from errors to status codes, and `get_transceivers`: each is settled by reading one match or loop.
- Release of load: the code never lowers a count, so nothing is claimed about connections that are currently active.
- Shard locking in the session and connection maps, and deadlock among guards.
