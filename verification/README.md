# Verified model of tcp_monitor

tcp_monitor keeps a heartbeat session open to every configured peer, answers the
sessions that peers open to it, and reports both in counters and gauges. This
project models its protocol, its session loops, its manager and its metrics in Dafny
and proves what they promise over every run: every segmentation of the byte streams,
every delay, every interleaving, every failure and every cancellation.

`dafny verify dfyconfig.toml` checks the whole project.

## How the model is built

**Scripts.** Code that awaits is a method run against a script of events
(`Transport.Event`): bytes that arrive, writes that are taken, clocks that are read,
timers that fire, a token that is cancelled, errors. A method stops when its script
does, so a claim about every script is a claim about every prefix of every execution.
Time is an integer in nanoseconds. The only things assumed of it are that it does not
run backwards and that timers are never early; they may be late, and a write may block
for any length of time.

**A loop and its steps.** `run_session` is the method `ClientSession.RunSession`, with
the variables of the code in nested loops over an open connection. It is proved to do,
event by event, what the transition system `Session.Step` does: same output bytes,
same metrics, same end. `drive_session` and `handle_connection` are related in the same
way to `Echo.Step`. The properties are then proved of the steps, which is also where
client, server, manager and channels are composed:

| module | what it holds |
|---|---|
| `Wire`, `Utf8`, `Handshake` | packets, text, names and labels |
| `Transport`, `Reader` | scripts, open connections, the cancellation-safe reader |
| `Metrics` | families as maps from labels, the capped name set |
| `Session`, `ClientSession` | the client session as steps and as a loop |
| `Schedule`, `Plan`, `Timeouts`, `Catchup` | when sends start, misses and timeouts; exactly when each send is due; sessions that do time out; catching up on late echoes |
| `Echo`, `ServerSession` | a server connection as steps and as a loop |
| `EndToEnd` | client, server and two FIFO byte channels |
| `ServerMachine` | all handlers of a server, each with its `Echo` connection, over shared metrics, names and permits |
| `Admission` | who gets into a server, and that every handler can get out of it |
| `Config`, `Limits` | validation, and what it buys |
| `Reconcile`, `ManagerMachine` | the manager's pass; the manager, its watch channel, its peer tasks and their sessions together |
| `Stopping`, `Headway` | when a cancelled peer task can end; that peer tasks can connect again, and that the manager can apply what was sent and can leave |
| `Composition`, `Settings` | what holds of one session or connection, proved of those inside the compositions |

**Assumptions.** Byte channels deliver in order what was sent; a read takes at least one
byte unless the peer closed, and a pending read takes none. `char::is_alphanumeric` is
a parameter, of which it is only assumed where needed that the letters of "unknown" are
alphanumeric. Whether a `bind` string is an IP address is a parameter too. A heartbeat
timestamp is its 64-bit pattern. Text is UTF-8 as in section 3 of RFC 3629. The set
that `ServerPeers` keeps is behind a lock, so its operations are single steps; so are
single updates of a metric.

All inductions are written out: every lemma has Dafny's automatic induction turned off.

## What the code does where its documentation says otherwise

- README.md:284-286 speaks of detecting a dead connection in `max_misses` times
  `heartbeat_interval`. After a missed round the code waits a further full interval
  before it sends again, so a run of M misses takes at least (2M - 1) intervals from the
  first of their sends, and exactly that with exact timers (`Schedule.TimeoutBound`,
  `Schedule.ExactTimeout`). With exact timers the documented figure is right exactly when
  `max_misses` is 1 or the interval is 0 (`Schedule.DocumentedTimeout`); with any timers no
  other session times out that early (`Schedule.DocumentedTimeoutIsRare`), and for every other
  setting there is a session that it is wrong for (`Timeouts.DocumentedTimeoutFails`).
  `max_misses` is not validated, and 0 acts like 1.
- README.md:63 says that `tcp_monitor_server_session_active` is 1 while a session with
  the peer is live. The gauge is set to 1 and 0 rather than counted, so this fails when
  one of two sessions of the same name ends first: `ServerMachine.OverlapHidesSession`
  is such a run, `ServerMachine.GaugeTruth` says of every run when it holds throughout, and
  `ServerMachine.GaugeAtEveryMove` says of every moment whether it does.

## Model

| member | source | states |
|---|---|---|
| Wire.DecodeEncode | src/protocol.rs:31-41 | every number and every 64-bit timestamp pattern come back from their packet |
| Wire.EncodeDecode | src/protocol.rs:198-206 | every 16 bytes are the encoding of what they decode to |
| Wire.EncodeIsBigEndian | src/protocol.rs:10-11 | byte by byte, both fields are big-endian |
| Wire.EncodePacket | src/protocol.rs:31-41 | the loop over the fields fills the array with the encoding |
| Wire.CutIsUnique | src/protocol.rs:178-196 | a stream has only one cut into whole packets and fewer than 16 bytes over |
| Utf8.DecodeEncodeText | src/protocol.rs:53 | decoding inverts encoding for every text |
| Utf8.EncodeDecodeText | src/protocol.rs:93 | bytes that decode at all are the encoding of their text: no overlong forms, surrogates or stray bytes pass |
| Utf8.CutText | src/protocol.rs:53-54 | text cut at any byte decodes to a prefix if the cut is on a character boundary, and not at all otherwise |
| Utf8.OctetsOfChar | src/protocol.rs:53 | for each range of characters, how many bytes it takes, which marks they bear and how their bits make up the character |
| Utf8.OctetsOfText | src/protocol.rs:53 | the bytes of a text are those of its characters, in order |
| Handshake.SanitizeMakesLabels | src/protocol.rs:97-112 | the result has 1 to 64 characters, all allowed ones |
| Handshake.SanitizeKeepsLabels | src/protocol.rs:101-112 | what is a label already is not changed |
| Handshake.SanitizeIsIdempotent | src/protocol.rs:101-112 | sanitising twice is sanitising once |
| Handshake.SanitizeKeepsInOrder | src/protocol.rs:101-106 | an allowed character stays, right after the allowed ones before it, unless those are 64 already |
| Handshake.SanitizeIsFilter | src/protocol.rs:101-112 | the result is the first 64 of exactly the characters of the name that are alphanumeric, '-', '_' or '.', in order, and "unknown" exactly when there are none |
| Handshake.AnnouncesLiterally | src/protocol.rs:83-90 | the announced length is the big-endian number in the first four bytes, and 1 to 256 are the good ones |
| Handshake.LabelOfBytes | src/protocol.rs:91-94 | name bytes that encode a text get that text's label, any others get "unknown" |
| Handshake.HelloAnnounces | src/protocol.rs:44-60 | the prefix is the length, in 4 big-endian bytes, of exactly the name bytes that follow |
| Handshake.LabelOfName | src/protocol.rs:53-54 | up to 256 bytes the label is the sanitised name; past that it is the sanitised 256-byte prefix if the cut is on a character boundary, and "unknown" otherwise |
| Handshake.ShortNamesArriveWhole | src/protocol.rs:13-17 | every name of 1 to 64 characters fits and gets its own sanitised label |
| Handshake.SendHandshake | src/protocol.rs:49-60 | appends length and cut name, and nothing else |
| Handshake.ReadHandshake | src/protocol.rs:79-95 | accepts exactly complete handshakes of length 1 to 256, consumes exactly 4 + length bytes, and says which error otherwise |
| Handshake.RoundTrip | src/protocol.rs:49-95 | what one end sends the other reads as the name's label, with the bytes that follow still in place; only the empty name is refused |
| Transport.Connection.Read | src/protocol.rs:184 | a read fills only the free part of the buffer, and takes nothing while pending |
| Reader.HeartbeatReader.Recv | src/protocol.rs:178-196 | what one call made of the reads it saw, for each way it can end: a packet, an error, or the call dropped part way |
| Reader.HeartbeatReader.ReadMore | src/protocol.rs:182-191 | one read goes to the unfilled part and never past the packet |
| Reader.RecvAbsorbs | src/protocol.rs:169-196 | one call, however it ends, is the reads it used: nothing is kept back or read twice |
| Reader.NothingLost | src/protocol.rs:144-151 | the bytes read are the encodings of the packets out, then the bytes held, and these are the cut of the stream |
| Reader.AnyCallsCutTheStream | src/protocol.rs:144-196 | the same over any sequence of finished, failed and dropped calls on one reader |
| Session.StepEffect | src/client.rs:213-226 | a session counts once when it starts, clears its gauge once when it ends, and is counted under one of four reasons unless cancelled; a failed handshake leaves no trace |
| Session.RttOnlyOnMatch | src/client.rs:279-286 | an RTT is taken exactly when the echo of the current heartbeat ends the wait, and for that heartbeat; a late echo leaves the last one alone |
| Session.ReasonTellsCause | src/client.rs:374-380 | which failure, end of file, timer or cancellation each reason stands for, both ways |
| Session.WhatMayHappen | src/client.rs:214-271 | at any instant from now on each kind of event is possible at exactly the await points that see it: no failure, delay, segmentation or cancellation is ruled out |
| Session.WhatEnds | src/client.rs:214-303 | a session ends exactly on a cancellation, a failure, an end of file, or an echo wait that is one miss too many |
| Session.WhatIsRecorded | src/client.rs:232-306 | the history that the schedule results speak of is what happened: when it opened, when each send started, when each wait began and ended |
| ClientSession.RunSession | src/client.rs:205-332 | for every script the loop's output, metrics and end are those of the steps, and no other label's metrics change |
| ClientSession.SendHello | src/client.rs:213-217 | the handshake goes out in any number of writes, and a write that fails ends the attempt without a session |
| ClientSession.RunRounds | src/client.rs:228-307 | rounds go on until the session ends, with output, metrics and end those of the steps |
| ClientSession.PlayRound | src/client.rs:237-306 | one round leaves number, misses, schedule, partial packet and metrics those of the steps |
| ClientSession.AwaitEcho | src/client.rs:260-287 | the inner loop ends with the matching echo, the deadline, an error or cancellation, and keeps a partly received packet across them |
| ClientSession.RecvRuns | src/client.rs:268-287 | one read of the echo wait, whole or dropped, is a run of steps |
| ClientSession.SendHeartbeat | src/client.rs:248-256 | the packet goes out in any number of writes, or stops part way on error or cancellation |
| ClientSession.WaitForSlot | src/client.rs:237-246 | waits only if the send is not yet due, then moves the schedule on |
| ClientSession.CloseRound | src/client.rs:289-306 | only an echo-free round counts as a miss, ends the session at the limit, or restarts the schedule |
| ClientSession.RecordSessionStart | src/client.rs:335-347 | what a started session changes, for its label only |
| ClientSession.RecordEcho | src/client.rs:350-371 | what an echo changes; the RTT only for the matching one |
| ClientSession.RecordSessionEnd | src/client.rs:309-326 | what an ended session changes; a cancelled one counts no disconnect |
| Schedule.SendSchedule | src/client.rs:228-246 | with m misses before round k, send k starts no earlier than k + m intervals after the start; hence never more than one send per interval |
| Schedule.TimeoutBound | src/client.rs:289-306 | a timeout happens exactly when max(1, max_misses) rounds in a row had no echo, and at least 2 * max(1, max_misses) - 1 intervals after the first of their sends |
| Schedule.ExactTimeout | src/client.rs:228-306 | with exact timers and instant sends every send is on the grid, one or two intervals after the one before, and the timeout bound is an equality |
| Schedule.DocumentedTimeout | README.md:284-286 | with exact timers a timeout takes max_misses intervals exactly when max_misses is 1 or the interval is 0 |
| Schedule.DocumentedTimeoutIsRare | README.md:284-286 | in any run, a session that times out by the documented time has max_misses 1 or interval 0 |
| Timeouts.BoundIsAttained | src/client.rs:289-306 | for every setting some session times out, after just max(1, max_misses) rounds and in exactly the time of the bound |
| Timeouts.DocumentedTimeoutFails | README.md:284-286 | for every setting but max_misses 1 some session times out at another time than the documented one |
| Schedule.MissAccounting | src/client.rs:230-302 | at every loop head the gauge is the length of the current run of echo-free rounds, below the limit; sends are missed rounds, answered rounds and at most one more |
| Schedule.TrailingIsMaximalRun | src/client.rs:289-302 | the run counted is echo-free and cannot be longer |
| Schedule.InstantsInRange | src/client.rs:246-305 | every instant computed is at most one interval ahead |
| Plan.SendsKeepPlan | src/client.rs:232-306 | however late timers fire and however long sends block: the next send is due one interval after the one before was due, or one interval after the end of a missed round; none starts early, an overdue one starts without a wait, and each echo wait ends a full interval after its heartbeat was out |
| Plan.PlannedOnGrid | src/client.rs:246-305 | so between misses sends are due on the grid that starts with the session, or one interval after the last missed round |
| Plan.SendsApart | src/client.rs:246-305 | two sends are at least an interval apart if the first was on time, at least two after a missed round, and otherwise an interval less the lateness of the first |
| Plan.LateSendsBunch | src/client.rs:239-246 | and for every lateness and setting there is a session in which they are just that close, or with no time between them once a whole interval late |
| Catchup.NoPermanentLag | src/client.rs:260-287 | whatever backlog a round starts with, if all of it is read before the deadline the wait ends in a match, with the RTT taken for that very heartbeat |
| Catchup.FirstEchoNeverMatches | src/client.rs:260-264 | the same session with a wait that stops at the first echo would, once one behind at the head of a round, never take an RTT again and never catch up, in any run of at most 2^64 heartbeats with echoes in order |
| Catchup.SomeSessionLags | src/client.rs:260-264 | and it does fall one behind, for any max_misses of 2 or more, after a single late echo |
| Echo.EchoIsPrefix | src/server.rs:303-351 | at all times the bytes echoed are a prefix of the heartbeat bytes received, and what was heard is their cut into packets |
| Echo.FaithfulStep | src/server.rs:310-348 | every read, write, part of a write, error and timeout keeps that |
| Echo.HandshakeOutcome | src/protocol.rs:79-95 | however a name's handshake is segmented, the server waits while it is incomplete and then accepts it under the name's label, unless the name is empty |
| Echo.GreetingExactly | src/protocol.rs:79-95 | what any read does to a greeting: bytes are taken up to the four of the length and no further; with a length outside 1 to 256 it is over at that step, and otherwise it goes on to the end of the name and no further |
| Echo.ReasonTellsCause | src/server.rs:317-345 | which failure each reason stands for; a broken pipe counts differently when reading and when writing |
| Echo.WhatMayHappen | src/server.rs:310-348 | each kind of event is possible at exactly the await points that see it |
| Echo.WhatEnds | src/server.rs:310-348 | a session ends exactly when a read times out, fails or finds the end of the stream, or a write fails |
| ServerSession.RecvHandshake | src/protocol.rs:69-95 | the handshake read over any segmentation, with its timeout |
| ServerSession.RecvRuns | src/protocol.rs:137-142 | one packet with a fresh reader is a run of steps, and a whole packet leaves nothing behind |
| ServerSession.EchoOne | src/server.rs:310-348 | each heartbeat is counted once and its own packet is written back |
| ServerSession.DriveSession | src/server.rs:303-351 | the echo loop is the steps, and counts exactly the heartbeats heard |
| ServerSession.HandleConnection | src/server.rs:234-300 | refused connections leave no trace in any family; any other is counted once at its start, once for each heartbeat, and once under one reason at its end, and on the client side only has its entries pre-created |
| Metrics.ServerPeers.TryRegister | src/metrics.rs:112-123 | a known name is always admitted, a new one just below the cap, and the set never exceeds it |
| Metrics.Families.InitDisconnectLabels | src/metrics.rs:233-250 | every reason of both sides gets an entry for the one peer, and no count changes |
| EndToEnd.EchoesAreHeartbeats | src/client.rs:237-287 | in every run the k-th echo read is heartbeat k, with its number and timestamp bits, and never comes before it; the server's label is the sanitised name |
| EndToEnd.MatchLeavesNothing | src/client.rs:279-285 | a wait that ends in a match leaves no echo outstanding |
| EndToEnd.ClientCatchesUp | src/client.rs:260-287 | in every run, if the server has echoed everything and it is read before the deadline, the wait ends in a match and nothing is outstanding |
| EndToEnd.ServerKeeps | src/server.rs:234-348 | every server step keeps the joint invariant, and its handshake read stops exactly where the heartbeats start |
| EndToEnd.ClientKeeps | src/client.rs:205-287 | every client step keeps the joint invariant |
| EndToEnd.FirstRoundMatches | src/client.rs:213-287 | for every node name and setting there is a run in which the server accepts the session under the name's label, echoes the first heartbeat, and its RTT is taken |
| ServerMachine.LabelsAndPermits | src/server.rs:202-222 | handlers in flight and free permits are always 128; at most 512 names, all labels; only they have gauges, session and heartbeat counters; a disconnect entry under another name is one that a client task pre-created; a session's disconnect entries exist before it starts |
| ServerMachine.NoLateLabels | src/server.rs:287-294 | an ending session creates no entry |
| ServerMachine.AdmittedForGood | src/metrics.rs:112-123 | in every interleaving a name once admitted is admitted again |
| ServerMachine.SessionsConserved | src/server.rs:264-294 | for each name, sessions started are those running or still ending, and those counted under the four reasons |
| ServerMachine.LogIsCounted | src/server.rs:264-337 | for each name the session counter is the number of its sessions, the heartbeat counter the sum of what they heard, ended ones included, and each disconnect counter the number of those that ended for its reason |
| ServerMachine.GaugeTruth | src/server.rs:265-282 | gauge 1 always means a live session; the gauge is right throughout a run exactly when no session of the name ends while another is live |
| ServerMachine.GaugeAtEveryMove | src/server.rs:265-282 | after every move the gauge is 1 just when its last write was a start, and right just when that is so or no session is live: it says when a wrong gauge heals |
| ServerMachine.GaugeTrueWithoutOverlap | src/server.rs:265-282 | in particular when sessions of the name never overlap |
| ServerMachine.OverlapHidesSession | README.md:63 | two sessions of one name, the first of which ends: the second is live and the gauge is 0 |
| ServerMachine.OpensAlone | src/server.rs:246-270 | taken one after another, the steps of an opening session do what the code run alone does |
| ServerMachine.HearsAlone | src/server.rs:328-330 | so does each event of the session |
| ServerMachine.ClosesAlone | src/server.rs:281-294 | and so do those of a closing one |
| Admission.AcceptsBelowLimit | src/server.rs:202-208 | in every reachable state a connection is accepted while fewer than 128 handlers are in flight, and dropped just when 128 are |
| Admission.RegistersBelowCap | src/server.rs:248-256 | an announced name goes on to its session if it is known or fewer than 512 are; otherwise the handler is gone, its permit is back and nothing else has changed |
| Admission.HandlerCanFinish | src/server.rs:234-300 | from every reachable state each handler can end in at most ten moves that wait for nothing its peer does, which give its permit back and leave every other handler alone |
| Config.Validate | src/config.rs:136-198 | accepts exactly the configs that meet the whole rule set, and otherwise names the first violation |
| Config.ValidSpelledOut | src/config.rs:136-198 | the whole rule set with every bound written out |
| Config.NoneLost | src/client.rs:94-98 | collecting peers by name loses none exactly when their names are distinct |
| Config.LastRecordWins | src/client.rs:94-98 | and of several records with one name it keeps the last |
| Config.ValidKeepsPeers | src/config.rs:184-195 | so a validated config keeps all of them, each with its own record |
| Limits.ValidConfigsStayInRange | src/config.rs:91-94 | with a valid config every instant a session computes is at most a day ahead, and its miss counter stays within an i64 |
| Reconcile.Manager.ApplyConfig | src/client.rs:51-138 | after a pass the map holds exactly the wanted peers and records; unchanged ones keep their task, all others are new; the stops are exactly those of the unwanted tasks, each once, and come before the starts, which are exactly those missing |
| Reconcile.Manager.Drain | src/client.rs:54-60 | stops everything |
| Reconcile.Manager.RemoveStale | src/client.rs:100-111 | stops exactly those whose record is gone or changed, each once |
| Reconcile.Manager.SpawnMissing | src/client.rs:113-138 | starts exactly what is missing, each once, with the config's settings and node name |
| Reconcile.Manager.RunManager | src/client.rs:43-146 | every pass reconciles what the one before it left, and nothing is left running at the end |
| Reconcile.OrderDoesNotMatter | src/client.rs:101-114 | passes that visit the maps in different orders agree on names, records and which tasks are kept |
| ManagerMachine.ClientGaugeTruth | src/client.rs:100-332 | in every reachable state there is at most one live task for a peer name, and a gauge is 1 exactly when a task started under that node name has a session on |
| ManagerMachine.OwnedManager | src/client.rs:100-138 | every move of the manager keeps each live task in one place: the map, the drain queue, or being awaited |
| ManagerMachine.BalancedStep | src/client.rs:150-202 | every move of a peer task, down to each event of its session, keeps the books of its label |
| ManagerMachine.ClientConservation | src/client.rs:159-200 | sessions started are the one that is on, those ended under four reasons and those cancelled; finished connects are connect failures, failed handshakes and sessions |
| ManagerMachine.Convergence | src/client.rs:51-138 | whenever the manager waits, exactly the peers of the config it last read have a running task; with none unseen that is the last one sent |
| ManagerMachine.LiveSettings | src/client.rs:114-123 | in every reachable state each live task runs with the settings and node name of one config sent, which asked for exactly its peer; with valid configs its interval is within a day |
| ManagerMachine.NoLateClientLabels | src/client.rs:157-171 | once a peer task is past pre-creating its entries all five are there, and none of its moves adds one: no connect failure and no end of a session |
| ManagerMachine.LeavesOnlyWhenDue | src/client.rs:62-67 | the manager leaves only when it is shut down, or when the channel has hung up with no config unseen |
| Headway.TaskConnectsAgain | src/client.rs:159-202 | from every world, a task with no session on is at most two of its own moves from one more finished connect, of either outcome; a successful one starts a new session from the metrics as they are |
| Headway.WaitsOutDelay | src/client.rs:170-200 | after a failed connect, a failed handshake or a disconnect a peer task stays, and all it can do is to connect again once `reconnect_delay` seconds are over, or to see its cancellation |
| Headway.SessionsRunFreely | src/client.rs:237-287 | a task sees every event that its session may see, a cancellation only once it is cancelled |
| Headway.ReloadIsApplied | src/client.rs:51-138 | from every reachable world, at whatever step of a pass, the manager can come to wait with the last config sent read and applied, by its own moves and those with which the tasks that it stops end |
| Headway.ManagerCanLeave | src/client.rs:62-67 | from every reachable world that is shut down or hung up it can leave in the same way, with no task left; if it is due to leave as it waits, it reads no further config |
| Stopping.StopFinishes | src/client.rs:29-37 | a cancelled task that the manager awaits can end in at most three moves that wait for neither network nor timer, exactly when it is not sending the handshake |
| Stopping.HelloGivesWay | src/client.rs:213-217 | the handshake send is outside any select: each of its events takes it further or to where it can end as above |
| Composition.JointSchedule | src/client.rs:228-306 | every client joined to a server keeps the schedule, the miss counts and the timeout bound |
| Composition.WorldSchedule | src/client.rs:150-202 | so does every session of every reachable world of the manager, and after whatever event it sees next; its counts are what the metrics of its label gained since it connected |
| Composition.WorldStaysInRange | src/config.rs:91-94 | if every config sent is valid, the instants of every such session are at most a day ahead and its miss counter fits |
| Settings.SessionsRunAsSent | src/client.rs:205-306 | every session of every reachable world keeps to the `heartbeat_interval` of a config that was sent, opens with the handshake of its node name, and counts a timeout exactly when max(1, `max_misses`) rounds in a row had no echo, 2 * max(1, `max_misses`) - 1 such intervals or more after the first of their sends |
| Composition.ServerSessions | src/server.rs:234-351 | in every interleaving each session that a server counted echoes a prefix of what it received, heard exactly its packets, and if it ended, ended by the cause that its reason stands for |
| ManagerMachine.NothingOutlivesManager | src/client.rs:140-145 | on every way out no task is left running |

## Left out

- The probe port (`probe_accept_loop`) and its banner: it would only add a second permit pool.
- src/main.rs: arguments, signals and the metrics HTTP handler.
- TOML parsing and defaults, `bind_addr` parsing, DNS, and log lines, including the warnings that `last_client_cfg` drives.
- Prometheus text encoding and the registry; families are maps.
- Durations, start times and RTT values, which are differences of wall-clock floats: the model records which heartbeat an RTT is measured against.
- The length of the server's timeouts and their reload by `watch_config`: a server timer may fire at any time in the model.
- Fairness and progress of the runtime and the network; panics in tasks; server sessions that outlive shutdown. That a cancelled peer task can end is shown; that it is scheduled to is not.
- Overflow of the u64 counters and of a label's total; the sequence number does wrap at 64 bits.
- EndToEnd.MatchLeavesNothing: says that what is outstanding is a multiple of 2^64, and nothing if fewer than 2^64 heartbeats are, because the number wraps.
- Echo.EchoIsPrefix: bytes are as offered to and taken by the socket; what the peer's kernel does with them is not modelled.
- Catchup.FirstEchoNeverMatches: assumes at most 2^64 heartbeats, as the numbers of more of them repeat.
- ServerMachine.LabelsAndPermits: names stand for labels under the server's own node name, which is fixed when it starts; a client task pre-creates entries for any name at any time.
- ManagerMachine.ClientGaugeTruth: a session's start and its end each update the metrics of its label in one step, as no other task writes them; entries that the server side pre-creates at zero for the same label are not shown.
- Handshake.SendHandshake: its stream takes every write whole and never fails; partial and failed writes of the handshake are in `ClientSession.SendHello`.
- ClientSession.RecordSessionStart: leaves out the start timestamp gauge, a wall-clock float.
- ClientSession.RecordEcho: leaves out the last-heartbeat and duration gauges and the RTT value, wall-clock floats.
- ClientSession.RecordSessionEnd: leaves out the duration gauge, a wall-clock float.
