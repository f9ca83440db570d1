# Verified models of the ZeroMQ patterns

A Dafny model of the four stateful programs of the repository, with proofs about whole runs.

* **Binary Star** (`BinaryStar.dfy`, `BinaryStarPair.dfy`, `BinaryStarFailover.dfy`): the two server
  programs as classes, and the pair as a timed transition system with crashes, restarts, client requests and a network
  described by two numbers: how often a live node publishes (`period`) and how long a message
  travels (`delay`). The split-brain guarantee holds exactly when `period + delay <= 3 * HEARTBEAT`,
  and does without in-order delivery exactly when also `delay < period`.
* **Titanic**, the store-and-forward service of ZeroMQ RFC 9/TSP (`TitanicCodec.dfy`,
  `TitanicQueue.dfy`, `TitanicProtocol.dfy`, `TitanicClient.dfy`): the line codec of the message
  files, the queue file scanned in place byte by byte, and the four concurrent actors with their
  file accesses interleaved.
* **Freelance**, the client agent of ZeroMQ RFC 10/FLP (`FreelanceAgent.dfy`, `FreelanceSystem.dfy`,
  `FreelanceHistory.dfy`): the agent as a class, caller, agent and servers as a timed system, and the
  agent's state read off a ledger of what has happened.
* **Paranoid Pirate**, ZeroMQ RFC 6/PPP (`PirateQueue.dfy`, `PirateWorker.dfy`,
  `PirateBroker.dfy`, `PirateLiveness.dfy`): the worker queue as a class refining an order-free
  specification, the broker loop, the worker's backoff, broker, workers and clients together, and how
  long a live worker stays queued.

Sockets and threads are replaced by explicit steps and channels, the clock by an integer number of
milliseconds, the file system by maps from uuid to text and one array of bytes. Services behind the
Majordomo broker are an oracle that may answer anything or nothing.

## What the environment is assumed to do

* Binary Star: there is one primary side and one backup side. A node that is up publishes at least
  every `period`; a message arrives in order within `delay`; no message crosses a restart. A crash
  may or may not lose what is under way. For server2 `period` is one heartbeat; for server1 it is
  two, because its send guard is strict (`BinaryStar.ExactTimerPublishesEverySecondTick`). The
  runs shown to split or to settle publish on schedule, exactly every `period`, as the timers do.
  `NeverBothPassive` assumes none of the timing, order or loss promises.
* Titanic: uuids are fresh, no process dies, one access to a file is atomic, and a request is closed
  only after some poll for it was answered 200, which is what the client program does.
* Freelance: the agent turns its loop at least every INTERVAL, and a run ends with the agent's
  death. Servers may send anything at any time; only those in `prompt` promise to answer a ping in
  time.
* Paranoid Pirate: no message is lost, no worker reconnects, and a client's message holds its address
  and at least one frame more. In `PirateLiveness` the worker turns its loop at least every
  HEARTBEAT_INTERVAL and its heartbeats arrive in order within `delay`.

## Where the code differs from what it says

* server2 logs "dual actives, aborting" and "dual passives, aborting" but `recv_state` drops the
  verdict: nothing aborts (`BinaryStarPair.SplitIsForever`). server1 does end the process
  (`BinaryStarFailover.DiesExactly`, `BinaryStarFailover.SplitEnds`).
* The callback for becoming active does not run when a Passive node takes over from a restarting
  peer (`BinaryStar.ActiveHandlerSkipped`).
* server1's heartbeat timer publishes only every second time it fires. The Paranoid Pirate worker has
  the same strict guard, so its heartbeats may be two intervals apart
  (`PirateLiveness.LiveWorkerStaysExactly`).
* The queue file's stride presumes a two-byte line end, and the scan is right for exactly those
  (`TitanicQueue.ScansAgreeExactly`). With a one-byte line end every look falls one byte further into
  its line: only every 39th request is ever performed, and once ten requests are queued a hyphen
  inside a uuid passes for a pending flag and the dispatcher throws (`TitanicQueue.UnixScanDies`).
* A reply file removed between the two halves of a poll makes a 200 without the service's frames
  (`TitanicProtocol.PollsReadInOrder`).
* A message with a line end inside a part does not survive Titanic's files (`TitanicCodec.LoadSave`).
* The Freelance agent reads a reply's number only if a frame follows it
  (`FreelanceAgent.Agent.RouteMessage`), and the example server sends a request without a body back as
  its number alone; such a request is never answered OK.
* The Freelance agent takes a reply for current by its number alone, without asking whether a request
  is under way, and it sends each request again on every turn. A late second reply therefore reaches
  the caller as the answer to its next request and then kills the agent
  (`FreelanceSystem.StrayReplyKills`); `FreelanceSystem.AlternatesExactlyWithoutStrays` shows that
  nothing else can.

## Model

| member | source | states |
|---|---|---|
| BinaryStar.Bstar.Start | BSP-Binary Star Pattern/server2/bstar.cpp:12-16 | a started node is in its start state and grants its peer three heartbeats |
| BinaryStar.Bstar.SendState | BSP-Binary Star Pattern/server2/bstar.cpp:44-50 | the number published is the one the receiver casts back to this node's state |
| BinaryStar.Bstar.RecvState | BSP-Binary Star Pattern/server2/bstar.cpp:52-62 | the whole new state after a peer's message, and after an empty one, which re-runs the old event |
| BinaryStar.Bstar.OnClientRequest | BSP-Binary Star Pattern/server2/bstar.cpp:71-84 | a request reaches the callback exactly when the node is Active afterwards |
| BinaryStar.Bstar.Execute | BSP-Binary Star Pattern/server2/bstar.cpp:113-212 | the nested branches implement the decision table: new state, verdict, callback |
| BinaryStar.BinaryStarServer1.UpdateState | BSP-Binary Star Pattern/server1/binary_star_server1.cpp:156-236 | the nested switch implements the decision table of server1 |
| BinaryStar.BinaryStarServer1.SubscriberCallback | BSP-Binary Star Pattern/server1/binary_star_server1.cpp:72-83 | the event runs first, the expiry moves only if it did not throw |
| BinaryStar.BinaryStarServer1.FrontendCallback | BSP-Binary Star Pattern/server1/binary_star_server1.cpp:60-70 | which requests server1 echoes, and the state after |
| BinaryStar.BinaryStarServer1.TimerCallback | BSP-Binary Star Pattern/server1/binary_star_server1.cpp:49-58 | publishes the current state only strictly past the send time |
| BinaryStar.OnlyClimbs | BSP-Binary Star Pattern/server2/bstar.cpp:113-212 | over any inputs a node only climbs from its start state to Passive to Active, with at most two changes |
| BinaryStar.HandlersFireAtMostOnce | BSP-Binary Star Pattern/server2/bstar.cpp:117-207 | each callback runs at most once per incarnation |
| BinaryStar.HandlersFireExactly | BSP-Binary Star Pattern/server2/bstar.cpp:117-207 | over any inputs, the passive callback runs exactly if the node becomes Passive, the active one exactly if it becomes Active other than by a peer's restart |
| BinaryStar.ActiveHandlerSkipped | BSP-Binary Star Pattern/server2/bstar.cpp:177-207 | a node became Active without its callback exactly when a restarting peer pushed it there |
| BinaryStar.PublishesWithinTwoPeriods | BSP-Binary Star Pattern/server1/binary_star_server1.cpp:49-58 | a timer firing at least every heartbeat publishes at least every two |
| BinaryStar.ExactTimerPublishesEverySecondTick | BSP-Binary Star Pattern/server1/binary_star_server1.cpp:49-58 | a timer firing exactly every heartbeat publishes exactly every second time |
| BinaryStarPair.NeverBothPassive | BSP-Binary Star Pattern/server2/bstar.cpp:113-212 | with any delays, reordering and losses the nodes are never both Passive |
| BinaryStarPair.InvStep | BSP-Binary Star Pattern/server2/bstar.cpp:113-212 | every step of a prompt network keeps the joint invariant of states, channel contents and deadlines |
| BinaryStarPair.NeverBothActive | BSP-Binary Star Pattern/server2/bstar.cpp:113-212 | no run of a prompt network shows two Active nodes, under any crashes, restarts and requests |
| BinaryStarPair.SplitsExactlyWhenNotPrompt | BSP-Binary Star Pattern/server2/bstar.cpp:98-101 | some run that publishes on schedule splits if and only if period + delay exceeds the three heartbeats of the expiry |
| BinaryStarPair.Server2Tolerates | BSP-Binary Star Pattern/server2/bstar.cpp:33-40 | server2 can split if and only if messages may take more than two heartbeats, or, out of order, one or more |
| BinaryStarPair.Server1Tolerates | BSP-Binary Star Pattern/server1/binary_star_server1.cpp:49-58 | server1 can split if and only if messages may take more than one heartbeat, in order or not |
| BinaryStarPair.OneSwapSplits | BSP-Binary Star Pattern/server2/bstar.cpp:173-186 | where a message may take a whole period, one overtaking, with nothing lost or late, makes both Active in the second round |
| BinaryStarPair.ReorderingSplitsExactly | BSP-Binary Star Pattern/server2/bstar.cpp:52-62 | with messages in time but in any order, some run splits if and only if delay >= period or the network is not prompt |
| BinaryStarPair.AtMostOneAnswers | BSP-Binary Star Pattern/server2/bstar.cpp:71-84 | at no moment would both server2 nodes answer a client |
| BinaryStarPair.BothAnswerOnlyWhilePrimaryWaits | BSP-Binary Star Pattern/server1/binary_star_server1.cpp:163-175 | exactly when both server1 nodes would answer |
| BinaryStarPair.DoubleAnswersEnd | BSP-Binary Star Pattern/server1/binary_star_server1.cpp:60-83 | answering twice while one is Primary and the other Active lasts at most period + delay |
| BinaryStarPair.DoubleAnswersNeverReturn | BSP-Binary Star Pattern/server1/binary_star_server1.cpp:60-83 | without further crashes, after 2 * (period + delay) exactly one of the two nodes would answer a client |
| BinaryStarPair.EveryDeliveryIsAccepted | BSP-Binary Star Pattern/server1/binary_star_server1.cpp:77-80 | the dual-active and dual-passive branches are never met on a prompt network |
| BinaryStarPair.SettlesInTime | BSP-Binary Star Pattern/server2/bstar.cpp:33-62 | the timed potential bounds when an unsettled pair has settled |
| BinaryStarPair.Converges | BSP-Binary Star Pattern/server2/bstar.cpp:33-62 | from any reachable state, without further crashes, one is Active and the other Passive after 2 * (period + delay) |
| BinaryStarPair.SettledForGood | BSP-Binary Star Pattern/server2/bstar.cpp:113-212 | once settled, the same node stays Active |
| BinaryStarPair.CanSettle | BSP-Binary Star Pattern/server2/bstar.cpp:33-62 | time can always pass, so every reachable state with both nodes up has a run, publishing on schedule, that settles |
| BinaryStarPair.SplitIsForever | BSP-Binary Star Pattern/server2/bstar.cpp:166-172 | two Active server2 nodes never notice: both stay Active |
| BinaryStarFailover.TakesOverExactly | BSP-Binary Star Pattern/server2/bstar.cpp:134-143 | in every reachable state, when a client request leaves a node Active and when it is answered: for server2 from Primary and Passive once the peer was silent for three heartbeats, for server1 from Passive then, and answered from Primary always |
| BinaryStarFailover.FailsOver | BSP-Binary Star Pattern/server2/bstar.cpp:187-205 | a node whose peer stays down answers after three heartbeats, and its first request makes it Active, unless it is still Backup and never answers |
| BinaryStarFailover.DiesExactly | BSP-Binary Star Pattern/server1/binary_star_server1.cpp:77-80 | server1 ends its process exactly on hearing Active when Active or Passive when Passive; server2 never |
| BinaryStarFailover.SplitEnds | BSP-Binary Star Pattern/server1/binary_star_server1.cpp:190-197 | two Active server1 nodes do not both survive period + delay, on any network that keeps its promises |
| TitanicCodec.SaveMessage | utils/zmqutil.cpp:37-43 | the loop writes one line per part |
| TitanicCodec.LoadMessage | utils/zmqutil.cpp:45-53 | the loop reads one part per line |
| TitanicCodec.LoadSave | utils/zmqutil.cpp:37-53 | a message survives saving and loading if and only if no part holds a line end |
| TitanicCodec.SaveLoad | utils/zmqutil.cpp:37-53 | a text survives loading and saving if and only if it is empty or ends in a line end |
| TitanicQueue.Titanic.RequestWorker | 9.TSP-Titanic Service Protocol/titanic/request_worker.cpp:29-46 | saves the request, enqueues its uuid, answers 200 and the uuid |
| TitanicQueue.Titanic.ReplyWorker | 9.TSP-Titanic Service Protocol/titanic/reply_worker.cpp:28-47 | the 200, 300 or 400 decision and the frames of a 200 |
| TitanicQueue.Titanic.CloseWorker | 9.TSP-Titanic Service Protocol/titanic/close_worker.cpp:28-37 | removes both files, after which a poll gets 400 |
| TitanicQueue.Titanic.ServiceSuccess | 9.TSP-Titanic Service Protocol/titanic/titanic.cpp:103-127 | succeeds exactly if the request has parts, the lookup is answered 200 and the service answers; saves the reply exactly then, and sends the frames behind the service name |
| TitanicQueue.Titanic.Append | 9.TSP-Titanic Service Protocol/titanic/titanic.cpp:74-76 | the file grows by one pending record and keeps its bytes |
| TitanicQueue.Titanic.Scan | 9.TSP-Titanic Service Protocol/titanic/titanic.cpp:79-97 | the in-place loop computes the byte-level scan, on any file, a cut-off last record included |
| TitanicQueue.Titanic.Turn | 9.TSP-Titanic Service Protocol/titanic/titanic.cpp:63-100 | one turn of the dispatcher, read as a list: take one uuid from the pipe, then scan the list |
| TitanicQueue.ParseRender | 9.TSP-Titanic Service Protocol/titanic/titanic.cpp:70-96 | parsing a rendered list gives the list back |
| TitanicQueue.RenderParse | 9.TSP-Titanic Service Protocol/titanic/titanic.cpp:70-96 | rendering a parsed well-formed file gives its bytes back |
| TitanicQueue.RenderAt | 9.TSP-Titanic Service Protocol/titanic/titanic.cpp:87-96 | with any two-byte line end record k sits k strides into the file, and writing '+' there flags exactly it |
| TitanicQueue.ScanRefines | 9.TSP-Titanic Service Protocol/titanic/titanic.cpp:79-97 | with any two-byte line end, scanning the bytes of a list is scanning the list |
| TitanicQueue.ScanFlags | 9.TSP-Titanic Service Protocol/titanic/titanic.cpp:86-97 | a record is done afterwards exactly if it was, or the scan reached it and its call succeeded |
| TitanicQueue.ScanSavesReplies | 9.TSP-Titanic Service Protocol/titanic/titanic.cpp:118-124 | a completed record's reply is on disk after the scan |
| TitanicQueue.ScanKeepsOtherReplies | 9.TSP-Titanic Service Protocol/titanic/titanic.cpp:118-124 | no reply but those of completed records is written |
| TitanicQueue.ScanTouchesOnlyFlags | 9.TSP-Titanic Service Protocol/titanic/titanic.cpp:86-97 | length and all bytes off the flag positions stay; a flag only turns from '-' to '+' |
| TitanicQueue.ScansAgreeExactly | 9.TSP-Titanic Service Protocol/titanic/titanic.cpp:95 | of the line ends of one or two bytes, the byte scan agrees with the list scan for every list, files and answers if and only if it has two |
| TitanicQueue.UnixScanDrifts | 9.TSP-Titanic Service Protocol/titanic/titanic.cpp:86-97 | what the byte scan does to any list kept with one-byte line ends: which record each look falls into, and what it does there |
| TitanicQueue.UnixReachesEvery39th | 9.TSP-Titanic Service Protocol/titanic/titanic.cpp:95-96 | then only every 39th record can be flagged as performed |
| TitanicQueue.UnixRepliesToEvery39th | 9.TSP-Titanic Service Protocol/titanic/titanic.cpp:118-124 | then a reply is saved under no uuid but those of every 39th record |
| TitanicQueue.UnixScanDies | 9.TSP-Titanic Service Protocol/titanic/titanic.cpp:87-96 | then, with uuids in their text form, the first request is performed and no other, and the dispatcher throws if and only if ten or more are queued |
| TitanicQueue.FramesSurvive | 9.TSP-Titanic Service Protocol/titanic/reply_worker.cpp:33-36 | service and client see unchanged frames if and only if no frame holds a line end |
| TitanicProtocol.InvStep | 9.TSP-Titanic Service Protocol/titanic/titanic.cpp:22-40 | every interleaved step of the four actors keeps the invariant of files, pipe, queue file and answers |
| TitanicProtocol.AcknowledgedOnce | 9.TSP-Titanic Service Protocol/titanic/request_worker.cpp:33-46 | in every run an acknowledged uuid is in the pipe or the queue file, exactly once over both |
| TitanicProtocol.DispatcherNeverThrows | 9.TSP-Titanic Service Protocol/titanic/titanic.cpp:105-108 | in every run each pending record has its non-empty request on disk |
| TitanicProtocol.PerformedAtMostOnce | 9.TSP-Titanic Service Protocol/titanic/titanic.cpp:86-97 | each request succeeds at most once, on the submitted frames, and '+' marks exactly those with a saved reply |
| TitanicProtocol.RepliesComeFromServices | 9.TSP-Titanic Service Protocol/titanic/titanic.cpp:114-124 | in every run a request succeeds only on a call whose lookup was answered 200, and what is saved is what the service returned to it |
| TitanicProtocol.PollsReadInOrder | 9.TSP-Titanic Service Protocol/titanic/reply_worker.cpp:28-46 | answers to polls read 300s, 200s, 400s; 400 only after close; a 200 carries the service's frames if and only if it was made before the request was closed, and the first always was |
| TitanicProtocol.DispatcherAlone | 9.TSP-Titanic Service Protocol/titanic/titanic.cpp:79-97 | undisturbed, the interleaved protocol does to the list what one scan does |
| TitanicProtocol.UndisturbedWorkers | 9.TSP-Titanic Service Protocol/titanic/reply_worker.cpp:28-46 | undisturbed, the workers' steps add up to the workers' methods |
| TitanicProtocol.EveryRequestCanBePerformed | 9.TSP-Titanic Service Protocol/titanic/titanic.cpp:63-98 | nothing gets stuck: from every reachable state an answering broker lets every submitted request be performed, those on the pipe or only just saved included |
| TitanicClient.Submit | 9.TSP-Titanic Service Protocol/client/ticlient.cpp:12-25 | what is sent; an answer yields a uuid exactly if it is a 200 with a second frame |
| TitanicClient.Receive | 9.TSP-Titanic Service Protocol/client/ticlient.cpp:27-65 | closes exactly if some answer is a 200, and returns the first that is |
| TitanicClient.ClosableExactly | 9.TSP-Titanic Service Protocol/client/ticlient.cpp:35-47 | in every run the protocol lets a request be closed exactly when some poll for it was answered 200 |
| TitanicClient.ClientConforms | 9.TSP-Titanic Service Protocol/client/ticlient.cpp:33-48 | so a client that closes on its first 200 keeps to the protocol's assumption |
| FreelanceAgent.Agent.ControlMessage | 10.FLP-Freelance Protocol/client/flcliapi.cpp:43-65 | the whole new state after CONNECT and REQUEST, and when the contract on `request_` is violated |
| FreelanceAgent.Agent.RouteMessage | 10.FLP-Freelance Protocol/client/flcliapi.cpp:67-97 | the whole new state after a server's message, and which one is passed to the caller: one with the current number and a frame behind it |
| FreelanceAgent.Agent.Poll | 10.FLP-Freelance Protocol/client/flcliapi.cpp:114-140 | giving up, or dispatching and sending a copy of the request, with the clock read anew for every look |
| FreelanceAgent.Agent.PingServers | 10.FLP-Freelance Protocol/client/flcliapi.cpp:142-145 | exactly the servers whose turn it is are pinged and rescheduled, each by its own look at the clock |
| FreelanceAgent.DispatchPopsExpiredPrefix | 10.FLP-Freelance Protocol/client/flcliapi.cpp:122-138 | pops exactly the longest expired prefix, declares those dead, keeps the rest, picks the first live entry or nobody |
| FreelanceSystem.QueueIsBounded | 10.FLP-Freelance Protocol/client/flcliapi.cpp:50-56 | in every run entries are known servers, alive ones are queued, and multiplicities and length are bounded by the connects |
| FreelanceSystem.AlternatesExactlyWithoutStrays | 10.FLP-Freelance Protocol/client/flcliapi.cpp:83-91 | caller and agent alternate throughout a run if and only if no reply with the current number arrives without a request |
| FreelanceSystem.HandshakeHolds | 10.FLP-Freelance Protocol/client/flcliapi.cpp:57-62 | then requests never overlap, and a waiting OK answers the caller's latest request |
| FreelanceSystem.StrayReplyKills | 10.FLP-Freelance Protocol/client/flcliapi.cpp:83-91 | one late second reply is what the caller receives as the answer to its next request, and the request after that kills the agent |
| FreelanceSystem.AnsweredInTime | 10.FLP-Freelance Protocol/client/flcliapi.cpp:111-120 | in every run, strays included, an accepted request is answered, by its own reply with a body or FAILED, within GLOBAL_TIMEOUT + INTERVAL, and FAILED only after GLOBAL_TIMEOUT |
| FreelanceSystem.PromptServersStay | 10.FLP-Freelance Protocol/client/flcliapi.cpp:18-33 | a server answering pings in time is never expired, in any run |
| FreelanceSystem.KeptExactlyWhenPrompt | 10.FLP-Freelance Protocol/flp_constant.hpp:7-10 | some run drops a prompt server if and only if answers may take more than SERVER_TTL - PING_INTERVAL - INTERVAL |
| FreelanceHistory.QueueIsHistory | 10.FLP-Freelance Protocol/client/flcliapi.cpp:50-81 | in every run the queue is those who joined and were not popped, in order; a server is alive exactly if heard of since last popped, and then queued; it expires SERVER_TTL after it was last heard of |
| FreelanceHistory.RevivedAtTheBack | 10.FLP-Freelance Protocol/client/flcliapi.cpp:76-81 | a message of a popped or new server makes it alive and queues it behind all others; one of any other server changes no place |
| FreelanceHistory.TurnSendsExactly | 10.FLP-Freelance Protocol/client/flcliapi.cpp:122-138 | a turn sends the request under way to the first queued server not silent for SERVER_TTL, and to nobody only if all are; a server heard of lately is always found |
| FreelanceHistory.TurnPingsExactly | 10.FLP-Freelance Protocol/client/flcliapi.cpp:18-33 | a turn pings exactly the servers neither heard of nor pinged for more than PING_INTERVAL |
| FreelanceHistory.RequestsAreSentAsAsked | 10.FLP-Freelance Protocol/client/flcliapi.cpp:57-62 | whatever is sent under number n has the body of the caller's n-th request |
| FreelanceHistory.RepliesAreGivenExactly | 10.FLP-Freelance Protocol/client/flcliapi.cpp:83-92 | a message is given to the caller exactly if it bears the number of the latest accepted request and a body, and ends that request exactly then |
| PirateQueue.WorkerQueue.Push | 6.PPP-Paranoid Pirate Protocol/broker/worker_queue.cpp:23-34 | appends an absent worker; a present one keeps place and expiry |
| PirateQueue.WorkerQueue.Erase | 6.PPP-Paranoid Pirate Protocol/broker/worker_queue.cpp:36-41 | removes the worker's entries, keeping the order |
| PirateQueue.WorkerQueue.Refresh | 6.PPP-Paranoid Pirate Protocol/broker/worker_queue.cpp:43-51 | restamps the first entry of the worker in place |
| PirateQueue.WorkerQueue.Pop | 6.PPP-Paranoid Pirate Protocol/broker/worker_queue.cpp:53-59 | yields and removes the front |
| PirateQueue.WorkerQueue.Purge | 6.PPP-Paranoid Pirate Protocol/broker/worker_queue.cpp:61-69 | removes the expired entries, keeping the order |
| PirateQueue.PopRefines | 6.PPP-Paranoid Pirate Protocol/broker/worker_queue.cpp:53-59 | a pop takes the member that joined before all others |
| PirateQueue.StepRefines | 6.PPP-Paranoid Pirate Protocol/broker/worker_queue.cpp:23-69 | every operation on the vector is the specified change of an order-free roll of members |
| PirateQueue.QueueRefinesRoll | 6.PPP-Paranoid Pirate Protocol/broker/ppbroker.cpp:74-95 | over any event sequence the queue lists exactly the members, each once, in the order of last joining |
| PirateWorker.PpWorker.Turn | 6.PPP-Paranoid Pirate Protocol/worker/ppworker.cpp:56-106 | one turn of the worker: echo, liveness, backoff, heartbeat |
| PirateWorker.BackoffDuringOutage | 6.PPP-Paranoid Pirate Protocol/worker/ppworker.cpp:90-99 | closed form of an outage of any length: a reconnect every fifth poll, waits doubling up to the maximum |
| PirateWorker.ReconnectsExactly | 6.PPP-Paranoid Pirate Protocol/worker/ppworker.cpp:66-99 | over any polls, the worker reconnects exactly at a silent poll that is, since the broker last proved alive, the fifth, or the fifth since it last reconnected |
| PirateWorker.HeartbeatsKeepConnected | 6.PPP-Paranoid Pirate Protocol/worker/ppworker.cpp:75-88 | a worker that hears a heartbeat or a request in every five polls never reconnects |
| PirateWorker.WaitsDouble | 6.PPP-Paranoid Pirate Protocol/worker/ppworker.cpp:67-96 | over any polls, the wait doubles with each reconnect since any message came, up to the maximum |
| PirateBroker.Broker.Turn | 6.PPP-Paranoid Pirate Protocol/broker/ppbroker.cpp:56-124 | one turn of the broker, with the clock read anew for message, heartbeats and purge; the "no worker available" branch is never taken |
| PirateBroker.Broker.OnBackend | 6.PPP-Paranoid Pirate Protocol/broker/ppbroker.cpp:68-97 | control messages, heartbeats and replies from a worker |
| PirateBroker.BackendRefines | 6.PPP-Paranoid Pirate Protocol/broker/ppbroker.cpp:73-96 | by its frames: READY joins anew, HEARTBEAT prolongs, any other control frame changes nothing, a reply joins if absent |
| PirateBroker.BeatsGoToAll | 6.PPP-Paranoid Pirate Protocol/broker/ppbroker.cpp:115-120 | each queued worker gets one heartbeat |
| PirateBroker.TurnIsARun | 6.PPP-Paranoid Pirate Protocol/broker/ppbroker.cpp:62-123 | one turn is a run of the system's steps, in which the frontend, polled only if a worker is queued, is read only while one is |
| PirateBroker.WorkersAreInOnePlace | 6.PPP-Paranoid Pirate Protocol/broker/ppbroker.cpp:68-111 | in every run a worker is queued, announcing itself, or busy with exactly one request, never two of these |
| PirateBroker.RequestsAreConserved | 6.PPP-Paranoid Pirate Protocol/broker/ppbroker.cpp:90-107 | in every run the requests read are exactly those answered, frames and address intact, plus those under way |
| PirateLiveness.LiveWorkerStays | 6.PPP-Paranoid Pirate Protocol/worker/ppworker.cpp:102-105 | in no run is a live worker whose heartbeats travel fast enough purged |
| PirateLiveness.LiveWorkerStaysExactly | 6.PPP-Paranoid Pirate Protocol/broker/worker_queue.cpp:43-69 | some run purges a live queued worker if and only if 2 * HEARTBEAT_INTERVAL + delay exceeds the lifetime of an entry |

## Left out

- ZeroMQ sockets, pollers, threads, loggers, the admin STOP channel and the configuration parser: plumbing, replaced by steps and channels.
- Majordomo broker and client (`mdbroker.hpp`, `mdcliapi.hpp`): their implementations are not part of this model; a call through them is an oracle.
- Majordomo worker API and the worker subclasses around it: fixed framing and a liveness counter.
- Clustered Hashmap (`kvmsg`, `clonesrv`): the server's run is empty and the properties go through an archive format that is not part of this model.
- The example clients and `flserver`: retry and echo loops, present only as steps of the environment.
- Binary Star messages that outlive a restart, and network partitions longer than `delay`: excluded by assumption.
- Titanic crashes (a torn record, a pipe lost with the process) and clients that close before a 200: excluded by assumption.
- Text mode's treatment of a lone control-Z, of carriage returns inside a part, and of two-byte line ends that a look at a malformed queue file runs into: files are modelled as the characters they hold.
- Readings of the clock that one handler takes one right after the other for the same server or peer: they are one reading.
- Time within one turn of the Freelance agent: `FreelanceSystem` takes all its readings at one moment, while the methods of `FreelanceAgent.Agent` are given a reading for each look.
- Number and text frames of a Freelance reply: the sequence number is read off the frame as given; a frame that is no number is not modelled, nor is the wrap-around of the 32-bit counter.
- Paranoid Pirate workers that reconnect while busy: excluded by assumption in the run theorems; the worker's reconnecting itself is modelled.
