/**
  The Paranoid Pirate broker: one turn of its loop, and the broker together with its workers and
  clients.
 */
module PirateBroker {
  import opened Wrappers
  import opened PirateQueue
  import opened PirateWorker

  /** What the broker does with a message from the backend; its first frame names the worker. */
  function AfterBackend(q: Queue, msg: Message, now: int): Queue
    requires msg != []
  {
    if |msg| == 2 then
      if msg[1] == READY then Next(q, Ready(msg[0], now))
      else if msg[1] == HEARTBEAT then Next(q, Heartbeat(msg[0], now))
      else q
    else Next(q, Reply(msg[0], now))
  }

  function ToClient(msg: Message): seq<Message>
    requires msg != []
  {
    if |msg| == 2 then [] else [msg[1..]]
  }

  function Beats(q: Queue): seq<Message> {
    if q == [] then [] else [[q[0].identity, HEARTBEAT]] + Beats(q[1..])
  }

  lemma {:induction false} BeatsAppend(q: Queue, w: Worker)
    ensures Beats(q + [w]) == Beats(q) + [[w.identity, HEARTBEAT]]
  {
    if q == [] {
      assert Beats([w]) == [[w.identity, HEARTBEAT]] + Beats([]);
    } else {
      assert (q + [w])[1..] == q[1..] + [w];
      BeatsAppend(q[1..], w);
    }
  }

  /** What a message from the backend means for the queue, frame by frame. */
  ghost predicate Means(r: Roll, msg: Message, now: int, r': Roll)
    requires msg != []
  {
    && (|msg| == 2 && msg[1] == "READY" ==> RollNext(r, Ready(msg[0], now), r'))
    && (|msg| == 2 && msg[1] == "HEARTBEAT" ==> RollNext(r, Heartbeat(msg[0], now), r'))
    && (|msg| == 2 && msg[1] != "READY" && msg[1] != "HEARTBEAT" ==> r' == r)
    && (|msg| != 2 ==> RollNext(r, Reply(msg[0], now), r'))
  }

  /**
    A READY makes its worker join anew, a heartbeat prolongs it, a reply makes it join if it is
    absent, and any other control frame changes nothing.
   */
  lemma BackendRefines(q: Queue, r: Roll, msg: Message, now: int) returns (r': Roll)
    requires Refines(q, r) && msg != []
    ensures Means(r, msg, now, r') && Refines(AfterBackend(q, msg, now), r')
  {
    if |msg| == 2 && msg[1] == READY {
      r' := StepRefines(q, r, Ready(msg[0], now));
    } else if |msg| == 2 && msg[1] == HEARTBEAT {
      r' := StepRefines(q, r, Heartbeat(msg[0], now));
    } else if |msg| == 2 {
      r' := r;
    } else {
      r' := StepRefines(q, r, Reply(msg[0], now));
    }
  }

  /** The heartbeats of a turn go to every queued worker, one each, in the order of the queue. */
  lemma {:induction false} BeatsGoToAll(q: Queue)
    ensures |Beats(q)| == |q|
    ensures forall i :: 0 <= i < |q| ==> Beats(q)[i] == [q[i].identity, "HEARTBEAT"]
  {
    if q == [] {
    } else {
      BeatsGoToAll(q[1..]);
    }
  }

  /** A worker's message never empties the queue: a request read in the same turn finds a worker. */
  lemma BackendNeverEmpties(q: Queue, msg: Message, now: int)
    requires msg != []
    ensures q != [] ==> AfterBackend(q, msg, now) != []
  {
    if |msg| == 2 && msg[1] == HEARTBEAT {
      RefreshedMembers(q, msg[0], now);
    }
  }

  lemma {:induction false} BeatsNonEmpty(q: Queue)
    ensures forall i :: 0 <= i < |Beats(q)| ==> Beats(q)[i] != []
  {
    if q == [] {
    } else {
      BeatsNonEmpty(q[1..]);
    }
  }

  /** The queue after the worker's message, if the poll found one, and what it sends to a client. */
  function Received(q: Queue, backend: Option<Message>, now: int): (r: Queue)
    requires backend.Some? ==> backend.value != []
    ensures q != [] ==> r != []
  {
    if backend.Some? then BackendNeverEmpties(q, backend.value, now); AfterBackend(q, backend.value, now) else q
  }

  function Forwarded(backend: Option<Message>): seq<Message>
    requires backend.Some? ==> backend.value != []
  {
    if backend.Some? then ToClient(backend.value) else []
  }

  /** The queue after the client's message, if the poll found one, and what it sends to a worker. */
  function Served(q: Queue, frontend: Option<Message>): Queue
    requires frontend.Some? ==> q != []
  {
    if frontend.Some? then Next(q, Pop) else q
  }

  function Assigned(q: Queue, frontend: Option<Message>): (r: seq<Message>)
    requires frontend.Some? ==> q != []
    ensures forall i :: 0 <= i < |r| ==> r[i] != []
  {
    if frontend.Some? then [[q[0].identity] + frontend.value] else []
  }

  function Beating(q: Queue, beat: bool): (r: seq<Message>)
    ensures forall i :: 0 <= i < |r| ==> r[i] != []
  {
    BeatsNonEmpty(q);
    if beat then Beats(q) else []
  }

  /** What a turn leaves in the queue and sends to the two sides. */
  datatype Turned = Turned(queue: Queue, toFrontend: seq<Message>, toBackend: seq<Message>)

  /**
    A turn: the worker's message first, then the client's, then the heartbeats, then the purge.
    `received` and `purged` are the readings of the clock for the first and the last.
   */
  function TurnOf(q: Queue, backend: Option<Message>, frontend: Option<Message>, beat: bool,
                  received: int, purged: int): (r: Turned)
    requires frontend.Some? ==> q != []
    requires backend.Some? ==> backend.value != []
    ensures forall i :: 0 <= i < |r.toBackend| ==> r.toBackend[i] != []
  {
    var q1 := Received(q, backend, received);
    var q2 := Served(q1, frontend);
    Turned(Purged(q2, purged), Forwarded(backend), Assigned(q1, frontend) + Beating(q2, beat))
  }

  class Broker {
    const workers: WorkerQueue
    var heartbeatAt: int

    constructor (now: int)
      ensures fresh(workers) && workers.queue == [] && heartbeatAt == now + HEARTBEAT_INTERVAL
    {
      workers := new WorkerQueue();
      heartbeatAt := now + HEARTBEAT_INTERVAL;
    }

    /**
      One turn, given what the poll found.  The frontend is polled only while workers are queued,
      so the request, if there is one, always finds a worker: it is never `dropped`.  The clock is read
      anew for the message (`received`), for the heartbeats (`beating`) and for the purge (`purged`).
     */
    method Turn(backend: Option<Message>, frontend: Option<Message>, received: int, beating: int, purged: int)
      returns (toFrontend: seq<Message>, toBackend: seq<Message>, dropped: bool)
      requires frontend.Some? ==> workers.queue != []
      requires backend.Some? ==> backend.value != []
      modifies this, workers
      ensures !dropped
      ensures Turned(workers.queue, toFrontend, toBackend) ==
              TurnOf(old(workers.queue), backend, frontend, beating > old(heartbeatAt), received, purged)
      ensures heartbeatAt == if beating > old(heartbeatAt) then beating + HEARTBEAT_INTERVAL else old(heartbeatAt)
    {
      toFrontend, toBackend, dropped := [], [], false;
      if backend.Some? {
        var msg := backend.value;
        BackendNeverEmpties(workers.queue, msg, received);
        toFrontend := OnBackend(msg, received);
      }
      if frontend.Some? {
        var n := workers.Size();
        if n > 0 {
          var id := workers.Pop();
          toBackend := [[id] + frontend.value];
        } else {
          dropped := true;
        }
      }
      if beating > heartbeatAt {
        ghost var sent, q2 := toBackend, workers.queue;
        for i := 0 to |workers.queue|
          invariant workers.queue == q2
          invariant toBackend == sent + Beats(workers.queue[..i])
        {
          assert workers.queue[..i + 1] == workers.queue[..i] + [workers.queue[i]];
          BeatsAppend(workers.queue[..i], workers.queue[i]);
          toBackend := toBackend + [[workers.queue[i].identity, HEARTBEAT]];
        }
        assert workers.queue[..|workers.queue|] == workers.queue;
        heartbeatAt := beating + HEARTBEAT_INTERVAL;
      }
      workers.Purge(purged);
    }

    method OnBackend(msg: Message, now: int) returns (toFrontend: seq<Message>)
      requires msg != []
      modifies workers
      ensures workers.queue == AfterBackend(old(workers.queue), msg, now)
      ensures toFrontend == ToClient(msg)
    {
      toFrontend := [];
      var id := msg[0];
      if |msg| == 2 {
        if msg[1] == READY {
          workers.Erase(id);
          workers.Push(id, now);
        } else if msg[1] == HEARTBEAT {
          workers.Refresh(id, now);
        }
      } else {
        toFrontend := [msg[1..]];
        workers.Push(id, now);
      }
    }
  }

  // ------------------------------------------------------------------ broker, workers and clients

  /** Frames under way to or from `worker`. */
  datatype Envelope = Envelope(worker: string, frames: Message)

  /**
    `requests` collects what was read from clients and `replies` what was sent to them, each with
    the client's address in front.
   */
  datatype System = System(now: int, queue: Queue, started: set<string>,
                           toWorkers: seq<Envelope>, toBroker: seq<Envelope>,
                           requests: multiset<Message>, replies: multiset<Message>)

  datatype Step =
    | Start(w: string) | WorkerBeat(w: string) | WorkerReceive(i: nat)
    | BackendReceive(i: nat) | FrontendReceive(msg: Message)
    | BrokerBeat | PurgeWorkers | Tick(d: nat)

  /** The oldest message under way for its worker: order is kept per worker only. */
  predicate Oldest(q: seq<Envelope>, i: nat) {
    i < |q| && forall j :: 0 <= j < i ==> q[j].worker != q[i].worker
  }

  /**
    Nothing is lost and no worker reconnects.  A client's message holds its address and at least
    one frame more.
   */
  predicate Enabled(s: System, step: Step) {
    match step
    case Start(w) => w !in s.started
    case WorkerBeat(w) => w in s.started
    case WorkerReceive(i) => Oldest(s.toWorkers, i)
    case BackendReceive(i) => Oldest(s.toBroker, i)
    case FrontendReceive(msg) => s.queue != [] && |msg| >= 2
    case _ => true
  }

  function Addressed(msgs: seq<Message>): seq<Envelope>
    requires forall i :: 0 <= i < |msgs| ==> msgs[i] != []
  {
    if msgs == [] then [] else [Envelope(msgs[0][0], msgs[0][1..])] + Addressed(msgs[1..])
  }

  function BeatEnvelopes(q: Queue): seq<Envelope> {
    BeatsNonEmpty(q);
    Addressed(Beats(q))
  }

  function Echoes(e: Envelope): seq<Envelope> {
    if Echo(e.frames) == [] then [] else [Envelope(e.worker, Echo(e.frames)[0])]
  }

  function Apply(s: System, step: Step): System
    requires Enabled(s, step)
  {
    match step
    case Start(w) => s.(started := s.started + {w}, toBroker := s.toBroker + [Envelope(w, [READY])])
    case WorkerBeat(w) => s.(toBroker := s.toBroker + [Envelope(w, [HEARTBEAT])])
    case WorkerReceive(i) =>
      s.(toWorkers := Without(s.toWorkers, i), toBroker := s.toBroker + Echoes(s.toWorkers[i]))
    case BackendReceive(i) =>
      var msg := [s.toBroker[i].worker] + s.toBroker[i].frames;
      s.(toBroker := Without(s.toBroker, i), queue := AfterBackend(s.queue, msg, s.now),
         replies := s.replies + multiset(ToClient(msg)))
    case FrontendReceive(msg) =>
      s.(queue := Next(s.queue, Pop), requests := s.requests + multiset{msg},
         toWorkers := s.toWorkers + [Envelope(s.queue[0].identity, msg)])
    case BrokerBeat => s.(toWorkers := s.toWorkers + BeatEnvelopes(s.queue))
    case PurgeWorkers => s.(queue := Purged(s.queue, s.now))
    case Tick(d) => s.(now := s.now + d)
  }

  predicate Run(s: System, steps: seq<Step>)
    decreases |steps|
  {
    steps == [] || (Enabled(s, steps[0]) && Run(Apply(s, steps[0]), steps[1..]))
  }

  function Final(s: System, steps: seq<Step>): System
    requires Run(s, steps)
    decreases |steps|
  {
    if steps == [] then s else Final(Apply(s, steps[0]), steps[1..])
  }

  /** The state after a step that is taken or not. */
  function ApplyIf(s: System, taken: bool, step: Step): System
    requires taken ==> Enabled(s, step)
  {
    if taken then Apply(s, step) else s
  }

  lemma RunIf(s: System, taken: bool, step: Step, rest: seq<Step>)
    requires taken ==> Enabled(s, step)
    requires Run(ApplyIf(s, taken, step), rest)
    ensures var steps := (if taken then [step] else []) + rest;
            Run(s, steps) && Final(s, steps) == Final(ApplyIf(s, taken, step), rest)
  {
    if taken {
      assert ([step] + rest)[1..] == rest;
    } else {
      assert [] + rest == rest;
    }
  }

  /** The worker's message that the poll found: the `i`-th under way, if there is one. */
  function BackendMessage(s: System, i: Option<nat>): Option<Message>
    requires i.Some? ==> i.value < |s.toBroker|
  {
    if i.Some? then Some([s.toBroker[i.value].worker] + s.toBroker[i.value].frames) else None
  }

  /** The state after one turn of the broker's loop, with `d` milliseconds gone before the purge. */
  function AfterTurn(s: System, i: Option<nat>, frontend: Option<Message>, beat: bool, d: nat): System
    requires i.Some? ==> i.value < |s.toBroker|
    requires frontend.Some? ==> s.queue != []
  {
    var r := TurnOf(s.queue, BackendMessage(s, i), frontend, beat, s.now, s.now + d);
    s.(now := s.now + d,
       queue := r.queue,
       toBroker := if i.Some? then Without(s.toBroker, i.value) else s.toBroker,
       toWorkers := s.toWorkers + Addressed(r.toBackend),
       requests := s.requests + multiset(if frontend.Some? then [frontend.value] else []),
       replies := s.replies + multiset(r.toFrontend))
  }

  function TurnSteps(i: Option<nat>, frontend: Option<Message>, beat: bool, d: nat): seq<Step> {
    (if i.Some? then [BackendReceive(i.value)] else []) +
    ((if frontend.Some? then [FrontendReceive(frontend.value)] else []) +
     ((if beat then [BrokerBeat] else []) + [Tick(d), PurgeWorkers]))
  }

  lemma BackendPart(s: System, i: Option<nat>) returns (step: Step, t: System)
    requires i.Some? ==> Enabled(s, BackendReceive(i.value))
    ensures i.Some? ==> step == BackendReceive(i.value)
    ensures t == ApplyIf(s, i.Some?, step)
    ensures t == s.(queue := Received(s.queue, BackendMessage(s, i), s.now),
                    toBroker := if i.Some? then Without(s.toBroker, i.value) else s.toBroker,
                    replies := s.replies + multiset(Forwarded(BackendMessage(s, i))))
  {
    step := if i.Some? then BackendReceive(i.value) else PurgeWorkers;
    t := ApplyIf(s, i.Some?, step);
  }

  lemma FrontendPart(s: System, frontend: Option<Message>) returns (step: Step, t: System)
    requires frontend.Some? ==> Enabled(s, FrontendReceive(frontend.value))
    ensures frontend.Some? ==> step == FrontendReceive(frontend.value)
    ensures t == ApplyIf(s, frontend.Some?, step)
    ensures t == s.(queue := Served(s.queue, frontend),
                    requests := s.requests + multiset(if frontend.Some? then [frontend.value] else []),
                    toWorkers := s.toWorkers + Addressed(Assigned(s.queue, frontend)))
  {
    step := if frontend.Some? then FrontendReceive(frontend.value) else PurgeWorkers;
    t := ApplyIf(s, frontend.Some?, step);
    if frontend.Some? {
      AddressedOne(s.queue[0].identity, frontend.value);
    }
  }

  lemma AddressedOne(id: string, msg: Message)
    ensures Addressed([[id] + msg]) == [Envelope(id, msg)]
  {
    assert ([id] + msg)[1..] == msg;
    assert Addressed([[id] + msg]) == [Envelope(([id] + msg)[0], ([id] + msg)[1..])] + Addressed([]);
  }

  lemma BeatPart(s: System, beat: bool) returns (t: System)
    ensures t == ApplyIf(s, beat, BrokerBeat)
    ensures t == s.(toWorkers := s.toWorkers + Addressed(Beating(s.queue, beat)))
  {
    t := ApplyIf(s, beat, BrokerBeat);
  }

  lemma {:induction false} AddressedConcat(a: seq<Message>, b: seq<Message>)
    requires forall i :: 0 <= i < |a| ==> a[i] != []
    requires forall i :: 0 <= i < |b| ==> b[i] != []
    ensures Addressed(a + b) == Addressed(a) + Addressed(b)
  {
    if a == [] {
      assert a + b == b;
    } else {
      AddressedConcat(a[1..], b);
      assert (a + b)[0] == a[0] && (a + b)[1..] == a[1..] + b;
      ConcatAssoc([Envelope(a[0][0], a[0][1..])], Addressed(a[1..]), Addressed(b));
    }
  }

  lemma RunThree(s: System, a: bool, x: Step, b: bool, y: Step, c: bool, z: Step, last: seq<Step>)
    requires a ==> Enabled(s, x)
    requires var s1 := ApplyIf(s, a, x);
             && (b ==> Enabled(s1, y))
             && var s2 := ApplyIf(s1, b, y);
                (c ==> Enabled(s2, z)) && Run(ApplyIf(s2, c, z), last)
    ensures var steps := (if a then [x] else []) + ((if b then [y] else []) + ((if c then [z] else []) + last));
            && Run(s, steps)
            && Final(s, steps) == Final(ApplyIf(ApplyIf(ApplyIf(s, a, x), b, y), c, z), last)
  {
    var s1 := ApplyIf(s, a, x);
    var s2 := ApplyIf(s1, b, y);
    RunIf(s2, c, z, last);
    RunIf(s1, b, y, (if c then [z] else []) + last);
    RunIf(s, a, x, (if b then [y] else []) + ((if c then [z] else []) + last));
  }

  /** The parts of a turn add up. */
  lemma PartsAdd(s: System, s1: System, s2: System, s3: System, t: System, i: Option<nat>, frontend: Option<Message>,
                 beat: bool, d: nat)
    requires i.Some? ==> i.value < |s.toBroker|
    requires frontend.Some? ==> s.queue != [] && s1.queue != []
    requires s1 == s.(queue := Received(s.queue, BackendMessage(s, i), s.now),
                      toBroker := if i.Some? then Without(s.toBroker, i.value) else s.toBroker,
                      replies := s.replies + multiset(Forwarded(BackendMessage(s, i))))
    requires s2 == s1.(queue := Served(s1.queue, frontend),
                       requests := s1.requests + multiset(if frontend.Some? then [frontend.value] else []),
                       toWorkers := s1.toWorkers + Addressed(Assigned(s1.queue, frontend)))
    requires s3 == s2.(toWorkers := s2.toWorkers + Addressed(Beating(s2.queue, beat)))
    requires t == s3.(now := s3.now + d, queue := Purged(s3.queue, s3.now + d))
    ensures t == AfterTurn(s, i, frontend, beat, d)
  {
    AddressedConcat(Assigned(s1.queue, frontend), Beating(s2.queue, beat));
    ConcatAssoc(s.toWorkers, Addressed(Assigned(s1.queue, frontend)), Addressed(Beating(s2.queue, beat)));
  }

  /**
    One turn of the loop is a run of the steps of the system, and reading the frontend is among them
    only if the queue held a worker when the poll began; so no request is read that must be dropped.
   */
  lemma TurnIsARun(s: System, i: Option<nat>, frontend: Option<Message>, beat: bool, d: nat)
    requires i.Some? ==> Enabled(s, BackendReceive(i.value))
    requires frontend.Some? ==> s.queue != [] && |frontend.value| >= 2
    ensures var steps := TurnSteps(i, frontend, beat, d);
            Run(s, steps) && Final(s, steps) == AfterTurn(s, i, frontend, beat, d)
  {
    var receive, s1 := BackendPart(s, i);
    var read, s2 := FrontendPart(s1, frontend);
    var s3 := BeatPart(s2, beat);
    var t := PurgePart(s3, d);
    RunThree(s, i.Some?, receive, frontend.Some?, read, beat, BrokerBeat, [Tick(d), PurgeWorkers]);
    PartsAdd(s, s1, s2, s3, t, i, frontend, beat, d);
  }

  lemma PurgePart(s: System, d: nat) returns (t: System)
    ensures Run(s, [Tick(d), PurgeWorkers]) && Final(s, [Tick(d), PurgeWorkers]) == t
    ensures t == s.(now := s.now + d, queue := Purged(s.queue, s.now + d))
  {
    t := s.(now := s.now + d, queue := Purged(s.queue, s.now + d));
    var steps := [Tick(d), PurgeWorkers];
    assert steps[1..] == [PurgeWorkers] && [PurgeWorkers][1..] == [];
    assert Final(s, steps) == Final(Apply(Apply(s, Tick(d)), PurgeWorkers), []);
  }

  predicate Initial(s: System) {
    s.queue == [] && s.started == {} && s.toWorkers == [] && s.toBroker == [] &&
    s.requests == multiset{} && s.replies == multiset{}
  }

  // ------------------------------------------------------------------ where a worker's token is

  predicate Carries(e: Envelope) {
    |e.frames| >= 2
  }

  /** Frames that stand for the worker's availability: a request or its echo, or the READY. */
  predicate Token(e: Envelope, w: string) {
    e.worker == w && (Carries(e) || e.frames == [READY])
  }

  function Tokens(q: seq<Envelope>, w: string): nat {
    if q == [] then 0 else (if Token(q[0], w) then 1 else 0) + Tokens(q[1..], w)
  }

  /** The client messages among the frames under way. */
  function Cargo(q: seq<Envelope>): multiset<Message> {
    if q == [] then multiset{} else (if Carries(q[0]) then multiset{q[0].frames} else multiset{}) + Cargo(q[1..])
  }

  function Queued(q: Queue, w: string): nat {
    if Has(q, w) then 1 else 0
  }

  lemma {:induction false} TokensConcat(a: seq<Envelope>, b: seq<Envelope>, w: string)
    ensures Tokens(a + b, w) == Tokens(a, w) + Tokens(b, w)
  {
    if a == [] {
      assert a + b == b;
    } else {
      TokensConcat(a[1..], b, w);
      assert (a + b)[1..] == a[1..] + b;
    }
  }

  lemma {:induction false} CargoConcat(a: seq<Envelope>, b: seq<Envelope>)
    ensures Cargo(a + b) == Cargo(a) + Cargo(b)
  {
    if a == [] {
      assert a + b == b;
    } else {
      CargoConcat(a[1..], b);
      assert (a + b)[0] == a[0] && (a + b)[1..] == a[1..] + b;
      var head := if Carries(a[0]) then multiset{a[0].frames} else multiset{};
      assert Cargo(a) == head + Cargo(a[1..]);
      assert Cargo(a + b) == head + (Cargo(a[1..]) + Cargo(b));
    }
  }

  lemma One(e: Envelope, w: string)
    ensures Tokens([e], w) == if Token(e, w) then 1 else 0
    ensures Cargo([e]) == if Carries(e) then multiset{e.frames} else multiset{}
  {
    assert Tokens([e], w) == (if Token(e, w) then 1 else 0) + Tokens([], w);
    assert Cargo([e]) == (if Carries(e) then multiset{e.frames} else multiset{}) + Cargo([]);
  }

  lemma Appended(q: seq<Envelope>, e: Envelope, w: string)
    ensures Tokens(q + [e], w) == Tokens(q, w) + if Token(e, w) then 1 else 0
    ensures Cargo(q + [e]) == Cargo(q) + if Carries(e) then multiset{e.frames} else multiset{}
  {
    TokensConcat(q, [e], w);
    CargoConcat(q, [e]);
    One(e, w);
  }

  lemma Removed(q: seq<Envelope>, i: nat, w: string)
    requires i < |q|
    ensures Tokens(q, w) == Tokens(Without(q, i), w) + if Token(q[i], w) then 1 else 0
    ensures Cargo(q) == Cargo(Without(q, i)) + if Carries(q[i]) then multiset{q[i].frames} else multiset{}
  {
    assert q == q[..i] + [q[i]] + q[i + 1..];
    TokensConcat(q[..i] + [q[i]], q[i + 1..], w);
    CargoConcat(q[..i] + [q[i]], q[i + 1..]);
    Appended(q[..i], q[i], w);
    TokensConcat(q[..i], q[i + 1..], w);
    CargoConcat(q[..i], q[i + 1..]);
  }

  lemma {:induction false} BeatsCarryNothing(q: Queue, w: string)
    ensures Tokens(BeatEnvelopes(q), w) == 0 && Cargo(BeatEnvelopes(q)) == multiset{}
    ensures forall i :: 0 <= i < |BeatEnvelopes(q)| ==> BeatEnvelopes(q)[i].frames == [HEARTBEAT]
  {
    if q == [] {
    } else {
      BeatsCarryNothing(q[1..], w);
      BeatsNonEmpty(q);
      assert Beats(q)[0] == [q[0].identity, HEARTBEAT] && Beats(q)[1..] == Beats(q[1..]);
      assert [q[0].identity, HEARTBEAT][1..] == [HEARTBEAT];
      assert BeatEnvelopes(q)[1..] == BeatEnvelopes(q[1..]);
    }
  }

  // ------------------------------------------------------------------ the queue's members

  lemma FilterDistinct(q: Queue, keep: Worker -> bool)
    requires PirateQueue.Distinct(q)
    ensures PirateQueue.Distinct(Filter(q, keep))
    ensures forall w :: Has(Filter(q, keep), w) ==> Has(q, w)
  {
    var f := Filter(q, keep);
    forall i, j | 0 <= i < j < |f| ensures f[i].identity != f[j].identity {
      OriginGrows(q, keep, i, j);
      assert q[Origin(q, keep, i)].identity != q[Origin(q, keep, j)].identity;
    }
    forall w | Has(f, w) ensures Has(q, w) {
      var i :| 0 <= i < |f| && f[i].identity == w;
      assert q[Origin(q, keep, i)].identity == w;
    }
  }

  lemma PushedMembers(q: Queue, id: string, now: int)
    requires PirateQueue.Distinct(q)
    ensures PirateQueue.Distinct(Pushed(q, id, now))
    ensures forall w :: Has(Pushed(q, id, now), w) <==> Has(q, w) || w == id
  {
    var p := Pushed(q, id, now);
    if !Has(q, id) {
      assert p[|q|].identity == id;
    }
    forall w ensures Has(p, w) <==> Has(q, w) || w == id {
      if Has(q, w) {
        var i :| 0 <= i < |q| && q[i].identity == w;
        assert p[i].identity == w;
      }
      if Has(p, w) && w != id {
        var i :| 0 <= i < |p| && p[i].identity == w;
        assert q[i].identity == w;
      }
    }
  }

  lemma ReadyMembers(q: Queue, id: string, now: int)
    requires PirateQueue.Distinct(q)
    ensures PirateQueue.Distinct(Next(q, Ready(id, now)))
    ensures forall w :: Has(Next(q, Ready(id, now)), w) <==> Has(q, w) || w == id
  {
    FilterDistinct(q, Other(id));
    PushedMembers(Erased(q, id), id, now);
    forall w | Has(q, w) && w != id ensures Has(Erased(q, id), w) {
      var i :| 0 <= i < |q| && q[i].identity == w;
      FilterHas(q, Other(id), i);
    }
  }

  lemma {:induction false} RefreshedMembers(q: Queue, id: string, now: int)
    ensures |Refreshed(q, id, now)| == |q|
    ensures forall i :: 0 <= i < |q| ==> Refreshed(q, id, now)[i].identity == q[i].identity
  {
    if q == [] {
    } else {
      RefreshedMembers(q[1..], id, now);
    }
  }

  /** A backend message keeps the queue free of duplicates and adds at most its sender. */
  lemma BackendMembers(q: Queue, e: Envelope, now: int)
    requires PirateQueue.Distinct(q) && (Carries(e) || e.frames == [READY] || e.frames == [HEARTBEAT])
    ensures var q' := AfterBackend(q, [e.worker] + e.frames, now);
            && PirateQueue.Distinct(q')
            && forall w :: Has(q', w) <==> Has(q, w) || Token(e, w)
  {
    var msg := [e.worker] + e.frames;
    var q' := AfterBackend(q, msg, now);
    if Carries(e) {
      PushedMembers(q, e.worker, now);
    } else if e.frames == [READY] {
      ReadyMembers(q, e.worker, now);
    } else {
      RefreshedMembers(q, e.worker, now);
      SameIdentities(q, q');
    }
  }

  // ------------------------------------------------------------------ the invariant

  predicate WellFormed(s: System) {
    && (forall i :: 0 <= i < |s.toBroker| ==>
      Carries(s.toBroker[i]) || s.toBroker[i].frames == [READY] || s.toBroker[i].frames == [HEARTBEAT])
    && (forall i :: 0 <= i < |s.toWorkers| ==> Carries(s.toWorkers[i]) || s.toWorkers[i].frames == [HEARTBEAT])
    && PirateQueue.Distinct(s.queue)
  }

  /** The number of places where worker `w` is: queued, announcing itself, or at work. */
  function Places(s: System, w: string): nat {
    Queued(s.queue, w) + Tokens(s.toBroker, w) + Tokens(s.toWorkers, w)
  }

  ghost predicate OnePlace(s: System) {
    forall w :: Places(s, w) <= if w in s.started then 1 else 0
  }

  /** Every request read is under way or answered, and nothing else is. */
  predicate Conserved(s: System) {
    s.requests == s.replies + Cargo(s.toWorkers) + Cargo(s.toBroker)
  }

  ghost predicate Inv(s: System) {
    WellFormed(s) && OnePlace(s) && Conserved(s)
  }

  /** A token that reaches the broker puts its worker into the queue. */
  lemma PlacesAfterBackend(s: System, i: nat, w: string)
    requires WellFormed(s) && Enabled(s, BackendReceive(i))
    ensures var t := Apply(s, BackendReceive(i));
            Places(s, w) <= 1 ==> Places(t, w) == Places(s, w)
  {
    BackendMembers(s.queue, s.toBroker[i], s.now);
    Removed(s.toBroker, i, w);
  }

  /** What a backend message gives to a client is its cargo. */
  lemma ForwardedCargo(e: Envelope)
    requires e.frames != []
    ensures multiset(ToClient([e.worker] + e.frames)) == if Carries(e) then multiset{e.frames} else multiset{}
  {
    assert ([e.worker] + e.frames)[1..] == e.frames;
  }

  lemma ConservedByBackend(s: System, i: nat)
    requires Conserved(s) && Enabled(s, BackendReceive(i)) && s.toBroker[i].frames != []
    ensures Conserved(Apply(s, BackendReceive(i)))
  {
    ForwardedCargo(s.toBroker[i]);
    Removed(s.toBroker, i, "");
  }

  lemma BackendStep(s: System, i: nat)
    requires Inv(s) && Enabled(s, BackendReceive(i))
    ensures Inv(Apply(s, BackendReceive(i)))
  {
    var t := Apply(s, BackendReceive(i));
    BackendMembers(s.queue, s.toBroker[i], s.now);
    forall w ensures Places(t, w) <= if w in t.started then 1 else 0 {
      assert Places(s, w) <= if w in s.started then 1 else 0;
      PlacesAfterBackend(s, i, w);
    }
    ConservedByBackend(s, i);
  }

  /** An echo moves a request from one channel to the other; anything else carried no token. */
  lemma EchoMoves(e: Envelope, q: seq<Envelope>, w: string)
    requires Carries(e) || e.frames == [HEARTBEAT]
    ensures Tokens(q + Echoes(e), w) == Tokens(q, w) + if Token(e, w) then 1 else 0
    ensures Cargo(q + Echoes(e)) == Cargo(q) + if Carries(e) then multiset{e.frames} else multiset{}
  {
    if Carries(e) {
      assert Echoes(e) == [e];
      Appended(q, e, w);
    } else {
      assert q + Echoes(e) == q;
    }
  }

  lemma PlacesAfterWorker(s: System, i: nat, w: string)
    requires WellFormed(s) && Enabled(s, WorkerReceive(i))
    ensures Places(Apply(s, WorkerReceive(i)), w) == Places(s, w)
  {
    Removed(s.toWorkers, i, w);
    EchoMoves(s.toWorkers[i], s.toBroker, w);
  }

  lemma ConservedByWorker(s: System, i: nat)
    requires WellFormed(s) && Conserved(s) && Enabled(s, WorkerReceive(i))
    ensures Conserved(Apply(s, WorkerReceive(i)))
  {
    Removed(s.toWorkers, i, "");
    EchoMoves(s.toWorkers[i], s.toBroker, "");
  }

  lemma WellFormedByWorker(s: System, i: nat)
    requires WellFormed(s) && Enabled(s, WorkerReceive(i))
    ensures WellFormed(Apply(s, WorkerReceive(i)))
  {
  }

  lemma WorkerStep(s: System, i: nat)
    requires Inv(s) && Enabled(s, WorkerReceive(i))
    ensures Inv(Apply(s, WorkerReceive(i)))
  {
    var t := Apply(s, WorkerReceive(i));
    forall w ensures Places(t, w) <= if w in t.started then 1 else 0 {
      PlacesAfterWorker(s, i, w);
      assert Places(s, w) <= if w in s.started then 1 else 0;
    }
    ConservedByWorker(s, i);
    WellFormedByWorker(s, i);
  }

  lemma FrontendStep(s: System, msg: Message)
    requires Inv(s) && Enabled(s, FrontendReceive(msg))
    ensures Inv(Apply(s, FrontendReceive(msg)))
  {
    var t := Apply(s, FrontendReceive(msg));
    var id := s.queue[0].identity;
    forall w ensures Places(t, w) <= if w in t.started then 1 else 0 {
      Appended(s.toWorkers, Envelope(id, msg), w);
      assert Places(s, w) <= if w in s.started then 1 else 0;
      if Has(t.queue, w) {
        var i :| 0 <= i < |t.queue| && t.queue[i].identity == w;
        assert s.queue[i + 1].identity == w;
      }
    }
    Appended(s.toWorkers, Envelope(id, msg), "");
  }

  lemma SendStep(s: System, step: Step)
    requires Inv(s) && Enabled(s, step) && (step.Start? || step.WorkerBeat?)
    ensures Inv(Apply(s, step))
  {
    var t := Apply(s, step);
    var e := Envelope(step.w, if step.Start? then [READY] else [HEARTBEAT]);
    forall w ensures Places(t, w) <= if w in t.started then 1 else 0 {
      Appended(s.toBroker, e, w);
      assert Places(s, w) <= if w in s.started then 1 else 0;
    }
    Appended(s.toBroker, e, "");
  }

  lemma BeatStep(s: System)
    requires Inv(s)
    ensures Inv(Apply(s, BrokerBeat))
  {
    var t := Apply(s, BrokerBeat);
    var beats := BeatEnvelopes(s.queue);
    forall w ensures Places(t, w) <= if w in t.started then 1 else 0 {
      BeatsCarryNothing(s.queue, w);
      TokensConcat(s.toWorkers, beats, w);
      assert Places(s, w) <= if w in s.started then 1 else 0;
    }
    BeatsCarryNothing(s.queue, "");
    CargoConcat(s.toWorkers, beats);
  }

  lemma PurgeStep(s: System)
    requires Inv(s)
    ensures Inv(Apply(s, PurgeWorkers))
  {
    var t := Apply(s, PurgeWorkers);
    FilterDistinct(s.queue, Unexpired(s.now));
    forall w ensures Places(t, w) <= if w in t.started then 1 else 0 {
      assert Places(s, w) <= if w in s.started then 1 else 0;
    }
  }

  lemma InvStep(s: System, step: Step)
    requires Inv(s) && Enabled(s, step)
    ensures Inv(Apply(s, step))
  {
    match step
    case Start(_) => SendStep(s, step);
    case WorkerBeat(_) => SendStep(s, step);
    case WorkerReceive(i) => WorkerStep(s, i);
    case BackendReceive(i) => BackendStep(s, i);
    case FrontendReceive(msg) => FrontendStep(s, msg);
    case BrokerBeat => BeatStep(s);
    case PurgeWorkers => PurgeStep(s);
    case Tick(d) =>
      forall w ensures Places(Apply(s, step), w) <= if w in s.started then 1 else 0 {
        assert Places(s, w) <= if w in s.started then 1 else 0;
      }
  }

  lemma {:induction false} InvRun(s: System, steps: seq<Step>)
    requires Inv(s) && Run(s, steps)
    ensures Inv(Final(s, steps))
    decreases |steps|
  {
    if steps == [] {
    } else {
      InvStep(s, steps[0]);
      InvRun(Apply(s, steps[0]), steps[1..]);
    }
  }

  /**
    In every run, a worker is in at most one place: queued, or announcing itself, or holding
    exactly one outstanding request; and no queued worker is busy.
   */
  lemma WorkersAreInOnePlace(s: System, steps: seq<Step>, w: string)
    requires Initial(s) && Run(s, steps)
    ensures var t := Final(s, steps);
            && Queued(t.queue, w) + Tokens(t.toBroker, w) + Tokens(t.toWorkers, w) <= 1
            && PirateQueue.Distinct(t.queue)
  {
    InvRun(s, steps);
    assert Places(Final(s, steps), w) <= 1;
  }

  /**
    In every run, the requests read are exactly those answered and those under way, address and
    frames included: none is lost, doubled, altered, misrouted or taken for a control message.
   */
  lemma RequestsAreConserved(s: System, steps: seq<Step>)
    requires Initial(s) && Run(s, steps)
    ensures var t := Final(s, steps);
            && t.requests == t.replies + Cargo(t.toWorkers) + Cargo(t.toBroker)
            && (t.toWorkers == [] && t.toBroker == [] ==> t.replies == t.requests)
  {
    InvRun(s, steps);
  }
}
