/**
  What the Freelance agent's state means in terms of what has happened.

  A `Ledger` is kept beside a run by an observer who sees connects, messages and turns but not the
  agent's table: the order in which servers joined the queue, how many have left it, when each server
  was last heard of.  The agent's queue, its `alive` flags, its expiries and what it sends are then
  shown to be what the ledger says, in every run.
 */
module FreelanceHistory {
  import opened Wrappers
  import opened FreelanceAgent
  import opened FreelanceSystem

  /**
    `joined` lists the servers in the order they were queued, `popped` of which have left again;
    `heard` holds those that have sent a message since they were last popped; `lastHeard` is when a
    server was first connected or last sent a message, `lastPinged` the same with pings included;
    `asked` are the bodies of the caller's requests and `sent` what went out to servers.
   */
  datatype Ledger = Ledger(joined: seq<string>, popped: nat, heard: set<string>, lastHeard: map<string, int>,
                           lastPinged: map<string, int>, asked: seq<Message>, sent: seq<Sending>) {
    predicate Valid() {
      && popped <= |joined| && heard <= lastHeard.Keys == lastPinged.Keys
      && forall i :: 0 <= i < |joined| ==> joined[i] in lastHeard
    }

    /** Who is queued now. */
    function Queue(): (q: seq<string>)
      requires Valid()
      ensures forall i :: 0 <= i < |q| ==> q[i] in lastHeard
    {
      joined[popped..]
    }
  }

  const BLANK := Ledger([], 0, {}, map[], map[], [], [])

  /** The server has been silent for longer than its time to live. */
  predicate Silent(lastHeard: map<string, int>, ep: string, now: int)
    requires ep in lastHeard
  {
    now > lastHeard[ep] + SERVER_TTL
  }

  /** How many servers at the front of `q` have been silent too long. */
  function SilentPrefix(q: seq<string>, lastHeard: map<string, int>, now: int): (k: nat)
    requires forall i :: 0 <= i < |q| ==> q[i] in lastHeard
    ensures k <= |q|
    ensures forall i :: 0 <= i < k ==> Silent(lastHeard, q[i], now)
    ensures k < |q| ==> !Silent(lastHeard, q[k], now)
  {
    if q == [] || !Silent(lastHeard, q[0], now) then 0
    else
      var k' := SilentPrefix(q[1..], lastHeard, now);
      assert forall i :: 0 < i <= k' && i < |q| ==> q[i] == q[1..][i - 1];
      k' + 1
  }

  function Members(q: seq<string>): set<string> {
    set ep | ep in q
  }

  /** A request is under way and its time is not over. */
  predicate Working(s: System) {
    s.agent.request.Some? && s.now <= s.agent.expiry
  }

  /** Who has been quiet for a whole interval: neither heard of nor pinged. */
  function Quiet(lastPinged: map<string, int>, now: int): set<string> {
    set ep | ep in lastPinged && now > lastPinged[ep] + PING_INTERVAL
  }

  function NowPinged(lastPinged: map<string, int>, now: int): (r: map<string, int>)
    ensures r.Keys == lastPinged.Keys
  {
    map ep | ep in lastPinged :: if ep in Quiet(lastPinged, now) then now else lastPinged[ep]
  }

  /** What the observer writes down. */
  function Note(s: System, step: Step, l: Ledger): Ledger
    requires Enabled(s, step) && l.Valid()
  {
    match step
    case CallerRequest(body) => l.(asked := l.asked + [body])
    case Control =>
      (match s.toAgent[0]
       case Connect(ep) =>
         l.(joined := l.joined + [ep],
            lastHeard := if ep in l.lastHeard then l.lastHeard else l.lastHeard[ep := s.now],
            lastPinged := if ep in l.lastHeard then l.lastPinged else l.lastPinged[ep := s.now])
       case Send(_) => l)
    case Route(m) =>
      l.(joined := if m.from in l.heard then l.joined else l.joined + [m.from],
         heard := l.heard + {m.from}, lastHeard := l.lastHeard[m.from := s.now],
         lastPinged := l.lastPinged[m.from := s.now])
    case Turn =>
      var pinged := NowPinged(l.lastPinged, s.now);
      if Working(s) then
        var k := SilentPrefix(l.Queue(), l.lastHeard, s.now);
        var sending := s.agent.Sends(s.now, _ => s.now);
        l.(popped := l.popped + k, heard := l.heard - Members(l.Queue()[..k]), lastPinged := pinged,
           sent := if sending.Some? then l.sent + [sending.value] else l.sent)
      else l.(lastPinged := pinged)
    case _ => l
  }

  lemma NoteValid(s: System, step: Step, l: Ledger)
    requires Enabled(s, step) && l.Valid()
    ensures Note(s, step, l).Valid()
  {
  }

  function Ledgered(env: Env, s: System, steps: seq<Step>, l: Ledger): Ledger
    requires Run(env, s, steps) && l.Valid()
    decreases |steps|
  {
    if steps == [] then l
    else
      NoteValid(s, steps[0], l);
      Ledgered(env, Apply(env, s, steps[0]), steps[1..], Note(s, steps[0], l))
  }

  // ------------------------------------------------------------------ the queue and the table

  /** The table: who is known, who is alive, and until when. */
  predicate TableOk(a: AgentState, l: Ledger) {
    && a.servers.Keys == l.lastHeard.Keys == l.lastPinged.Keys
    && forall ep :: ep in a.servers ==>
         ep in l.lastHeard && a.servers[ep].expiry == l.lastHeard[ep] + SERVER_TTL &&
         ep in l.lastPinged && a.servers[ep].pingAt == l.lastPinged[ep] + PING_INTERVAL &&
         (a.servers[ep].alive <==> ep in l.heard)
  }

  predicate QueueAsNoted(a: AgentState, l: Ledger) {
    l.Valid() && a.actives == l.Queue() && forall ep :: ep in l.heard ==> ep in l.Queue()
  }

  predicate StateOk(a: AgentState, l: Ledger) {
    TableOk(a, l) && QueueAsNoted(a, l)
  }

  lemma StateConnect(s: System, l: Ledger, ep: string)
    requires StateOk(s.agent, l) && Enabled(s, Control) && s.toAgent[0] == Connect(ep)
    ensures StateOk(s.agent.OnConnect(ep, s.now), Note(s, Control, l))
  {
    var l' := Note(s, Control, l);
    assert l'.Queue() == l.Queue() + [ep];
  }

  lemma StateRoute(s: System, l: Ledger, m: Incoming)
    requires StateOk(s.agent, l) && Enabled(s, Route(m))
    ensures StateOk(s.agent.OnIncoming(m, s.now), Note(s, Route(m), l))
  {
    var l' := Note(s, Route(m), l);
    assert l'.Queue() == if m.from in l.heard then l.Queue() else l.Queue() + [m.from];
  }

  lemma {:induction false} PrefixesAgree(servers: Servers, lastHeard: map<string, int>, q: seq<string>,
                                         now: int, i: nat)
    requires Listed(servers, q) && servers.Keys == lastHeard.Keys
    requires forall ep :: ep in servers ==> ep in lastHeard && servers[ep].expiry == lastHeard[ep] + SERVER_TTL
    ensures ExpiredPrefix(servers, q, _ => now, i) == SilentPrefix(q, lastHeard, now)
  {
    if q == [] {
    } else {
      PrefixesAgree(servers, lastHeard, q[1..], now, i + 1);
    }
  }

  /** A turn with a request under way leaves what the ledger says, and picks the first server not silent. */
  lemma DispatchAsNoted(s: System, l: Ledger)
    requires StateOk(s.agent, l) && Enabled(s, Turn)
    ensures var k := SilentPrefix(l.Queue(), l.lastHeard, s.now);
            var d := Dispatch(s.agent.servers, s.agent.actives, _ => s.now, 0);
            d == Popped(s.agent.servers, l.Queue(), k)
  {
    DispatchPopsExpiredPrefix(s.agent.servers, s.agent.actives, _ => s.now, 0);
    PrefixesAgree(s.agent.servers, l.lastHeard, l.Queue(), s.now, 0);
  }

  lemma TablePopped(a: AgentState, l: Ledger, k: nat, now: int)
    requires TableOk(a, l) && l.Valid() && k <= |l.Queue()|
    ensures var popped := a.(servers := AllDead(a.servers, l.Queue()[..k])).OnPing(_ => now);
            TableOk(popped, l.(popped := l.popped + k, heard := l.heard - Members(l.Queue()[..k]),
                               lastPinged := NowPinged(l.lastPinged, now)))
  {
    var dead := AllDead(a.servers, l.Queue()[..k]);
    assert dead.Keys == a.servers.Keys;
    assert PingAll(dead, _ => now).Keys == dead.Keys;
  }

  lemma StillQueued(l: Ledger, k: nat)
    requires l.Valid() && k <= |l.Queue()| && forall ep :: ep in l.heard ==> ep in l.Queue()
    ensures forall ep :: ep in l.heard - Members(l.Queue()[..k]) ==> ep in l.Queue()[k..]
  {
    assert l.Queue() == l.Queue()[..k] + l.Queue()[k..];
  }

  lemma StateIdle(s: System, l: Ledger)
    requires StateOk(s.agent, l) && Enabled(s, Turn) && !Working(s)
    ensures StateOk(s.agent.OnPoll(s.now, _ => s.now).OnPing(_ => s.now), Note(s, Turn, l))
  {
    assert PingAll(s.agent.servers, _ => s.now).Keys == s.agent.servers.Keys;
  }

  /** The agent after a turn with a request under way, and the ledger. */
  lemma WorkingShape(s: System, l: Ledger)
    requires StateOk(s.agent, l) && Enabled(s, Turn) && Working(s)
    ensures var k := SilentPrefix(l.Queue(), l.lastHeard, s.now);
            var l' := Note(s, Turn, l);
            && l'.joined == l.joined && l'.popped == l.popped + k && l'.heard == l.heard - Members(l.Queue()[..k])
            && l'.lastHeard == l.lastHeard && l'.lastPinged == NowPinged(l.lastPinged, s.now)
            && s.agent.OnPoll(s.now, _ => s.now) ==
               s.agent.(servers := AllDead(s.agent.servers, l.Queue()[..k]), actives := l.Queue()[k..])
  {
    DispatchAsNoted(s, l);
  }

  lemma TableSame(a: AgentState, l: Ledger, b: AgentState, m: Ledger)
    requires TableOk(a, l) && b.servers == a.servers
    requires m.heard == l.heard && m.lastHeard == l.lastHeard && m.lastPinged == l.lastPinged
    ensures TableOk(b, m)
  {
  }

  lemma WorkingTable(s: System, l: Ledger)
    requires StateOk(s.agent, l) && Enabled(s, Turn) && Working(s)
    ensures TableOk(s.agent.OnPoll(s.now, _ => s.now).OnPing(_ => s.now), Note(s, Turn, l))
  {
    var k := SilentPrefix(l.Queue(), l.lastHeard, s.now);
    WorkingShape(s, l);
    TablePopped(s.agent, l, k, s.now);
    TableSame(s.agent.(servers := AllDead(s.agent.servers, l.Queue()[..k])).OnPing(_ => s.now),
              l.(popped := l.popped + k, heard := l.heard - Members(l.Queue()[..k]),
                 lastPinged := NowPinged(l.lastPinged, s.now)),
              s.agent.OnPoll(s.now, _ => s.now).OnPing(_ => s.now), Note(s, Turn, l));
  }

  lemma WorkingQueue(s: System, l: Ledger)
    requires StateOk(s.agent, l) && Enabled(s, Turn) && Working(s)
    ensures QueueAsNoted(s.agent.OnPoll(s.now, _ => s.now), Note(s, Turn, l))
  {
    var k := SilentPrefix(l.Queue(), l.lastHeard, s.now);
    NoteValid(s, Turn, l);
    WorkingShape(s, l);
    StillQueued(l, k);
    assert Note(s, Turn, l).Queue() == l.Queue()[k..];
  }

  lemma StateStep(env: Env, s: System, step: Step, l: Ledger)
    requires StateOk(s.agent, l) && Enabled(s, step)
    ensures StateOk(Apply(env, s, step).agent, Note(s, step, l))
  {
    match step
    case Control =>
      if s.toAgent[0].Connect? {
        StateConnect(s, l, s.toAgent[0].endpoint);
      }
    case Route(m) => StateRoute(s, l, m);
    case Turn =>
      if Working(s) {
        WorkingTable(s, l);
        WorkingQueue(s, l);
      } else {
        StateIdle(s, l);
      }
    case _ =>
  }

  lemma {:induction false} StateRun(env: Env, s: System, steps: seq<Step>, l: Ledger)
    requires StateOk(s.agent, l) && Run(env, s, steps)
    ensures StateOk(Final(env, s, steps).agent, Ledgered(env, s, steps, l))
    decreases |steps|
  {
    if steps == [] {
    } else {
      StateStep(env, s, steps[0], l);
      StateRun(env, Apply(env, s, steps[0]), steps[1..], Note(s, steps[0], l));
    }
  }

  /**
    In every run the queue holds exactly those that joined it and were not popped, in that order; a
    server is alive exactly if it has sent a message since it was last popped, and then it is queued;
    and it expires SERVER_TTL after it was last heard of.
   */
  lemma QueueIsHistory(env: Env, s: System, steps: seq<Step>)
    requires Initial(s) && Run(env, s, steps)
    ensures var a, l := Final(env, s, steps).agent, Ledgered(env, s, steps, BLANK);
            && l.Valid() && a.actives == l.Queue() && a.servers.Keys == l.lastHeard.Keys
            && (forall ep :: ep in l.heard ==> ep in l.Queue())
            && forall ep :: ep in a.servers ==>
                 (a.servers[ep].alive <==> ep in l.heard) && a.servers[ep].expiry == l.lastHeard[ep] + SERVER_TTL
  {
    StateRun(env, s, steps, BLANK);
  }

  /** A message of a server that has been popped, or was never heard of, queues it behind all others. */
  lemma RevivedAtTheBack(env: Env, s: System, steps: seq<Step>, m: Incoming)
    requires Initial(s) && Run(env, s, steps) && Enabled(Final(env, s, steps), Route(m))
    ensures var t, l := Final(env, s, steps), Ledgered(env, s, steps, BLANK);
            && Apply(env, t, Route(m)).agent.actives ==
               t.agent.actives + (if m.from in l.heard then [] else [m.from])
            && Apply(env, t, Route(m)).agent.servers[m.from].alive
  {
    StateRun(env, s, steps, BLANK);
  }

  lemma SendsAsNoted(s: System, l: Ledger)
    requires StateOk(s.agent, l) && Enabled(s, Turn)
    ensures var k := SilentPrefix(l.Queue(), l.lastHeard, s.now);
            s.agent.Sends(s.now, _ => s.now) ==
            if Working(s) && k < |l.Queue()| then Some(Sending(l.Queue()[k], s.agent.request.value)) else None
  {
    DispatchAsNoted(s, l);
  }

  /** A queued server that has not been silent too long stops the search. */
  lemma SearchStops(q: seq<string>, lastHeard: map<string, int>, now: int, ep: string)
    requires forall i :: 0 <= i < |q| ==> q[i] in lastHeard
    requires ep in q && !Silent(lastHeard, ep, now)
    ensures SilentPrefix(q, lastHeard, now) < |q|
  {
    var i :| 0 <= i < |q| && q[i] == ep;
  }

  /**
    A turn with a request under way sends it to the first queued server that has not been silent for
    SERVER_TTL, and to nobody only if all have; so it finds any server heard of lately.
   */
  lemma TurnSendsExactly(env: Env, s: System, steps: seq<Step>)
    requires Initial(s) && Run(env, s, steps) && Enabled(Final(env, s, steps), Turn)
    ensures var t, l := Final(env, s, steps), Ledgered(env, s, steps, BLANK);
            && l.Valid()
            && var k := SilentPrefix(l.Queue(), l.lastHeard, t.now);
               && t.agent.Sends(t.now, _ => t.now) ==
                  (if Working(t) && k < |l.Queue()| then Some(Sending(l.Queue()[k], t.agent.request.value)) else None)
               && forall ep :: ep in l.heard && t.now <= l.lastHeard[ep] + SERVER_TTL ==> k < |l.Queue()|
  {
    StateRun(env, s, steps, BLANK);
    var t, l := Final(env, s, steps), Ledgered(env, s, steps, BLANK);
    SendsAsNoted(t, l);
    forall ep | ep in l.heard && t.now <= l.lastHeard[ep] + SERVER_TTL
      ensures SilentPrefix(l.Queue(), l.lastHeard, t.now) < |l.Queue()|
    {
      SearchStops(l.Queue(), l.lastHeard, t.now, ep);
    }
  }

  /**
    A turn pings exactly the servers that were neither heard of nor pinged for more than PING_INTERVAL,
    whether a request is under way or not.
   */
  lemma TurnPingsExactly(env: Env, s: System, steps: seq<Step>)
    requires Initial(s) && Run(env, s, steps) && Enabled(Final(env, s, steps), Turn)
    ensures var t, l := Final(env, s, steps), Ledgered(env, s, steps, BLANK);
            PingsDue(t.agent.OnPoll(t.now, _ => t.now).servers, _ => t.now) ==
            set ep | ep in l.lastPinged && t.now > l.lastPinged[ep] + PING_INTERVAL
  {
    StateRun(env, s, steps, BLANK);
    var t := Final(env, s, steps);
    PollKeepsServers(t.agent, t.now, _ => t.now);
  }

  // ------------------------------------------------------------------ what is sent

  /** The bodies of the requests on their way to the agent. */
  function Bodies(q: seq<Command>): seq<Message> {
    if q == [] then [] else (if q[0].Send? then [q[0].body] else []) + Bodies(q[1..])
  }

  lemma {:induction false} BodiesAppend(q: seq<Command>, c: Command)
    ensures Bodies(q + [c]) == Bodies(q) + if c.Send? then [c.body] else []
  {
    if q == [] {
      assert Bodies([c]) == (if c.Send? then [c.body] else []) + Bodies([]);
    } else {
      assert (q + [c])[0] == q[0] && (q + [c])[1..] == q[1..] + [c];
      BodiesAppend(q[1..], c);
      ConcatAssoc(if q[0].Send? then [q[0].body] else [], Bodies(q[1..]), if c.Send? then [c.body] else []);
    }
  }

  /** Request number `n` is the caller's `n`-th. */
  predicate AsAsked(r: Request, asked: seq<Message>) {
    1 <= r.seqNo <= |asked| && r.body == asked[r.seqNo - 1]
  }

  predicate SentOk(s: System, l: Ledger) {
    && (!s.violated ==> 0 <= s.agent.seqNo <= |l.asked| && Bodies(s.toAgent) == l.asked[s.agent.seqNo..])
    && (s.agent.request.Some? ==>
          AsAsked(s.agent.request.value, l.asked) && s.agent.request.value.seqNo == s.agent.seqNo)
    && forall i :: 0 <= i < |l.sent| ==> AsAsked(l.sent[i].request, l.asked)
  }

  lemma SentControl(env: Env, s: System, l: Ledger)
    requires SentOk(s, l) && l.Valid() && Enabled(s, Control)
    ensures SentOk(Apply(env, s, Control), Note(s, Control, l))
  {
    var c := s.toAgent[0];
    assert Bodies(s.toAgent) == (if c.Send? then [c.body] else []) + Bodies(s.toAgent[1..]);
    if c.Send? && s.agent.request.None? {
      assert l.asked[s.agent.seqNo..][0] == l.asked[s.agent.seqNo];
      assert l.asked[s.agent.seqNo..][1..] == l.asked[s.agent.seqNo + 1..];
    }
  }

  lemma SentAsked(env: Env, s: System, l: Ledger, body: Message)
    requires SentOk(s, l) && l.Valid() && Enabled(s, CallerRequest(body))
    ensures SentOk(Apply(env, s, CallerRequest(body)), Note(s, CallerRequest(body), l))
  {
    BodiesAppend(s.toAgent, Send(body));
    assert (l.asked + [body])[s.agent.seqNo..] == l.asked[s.agent.seqNo..] + [body];
  }

  lemma SentStep(env: Env, s: System, step: Step, l: Ledger)
    requires SentOk(s, l) && l.Valid() && Enabled(s, step)
    ensures SentOk(Apply(env, s, step), Note(s, step, l))
  {
    match step
    case CallerConnect(ep) => BodiesAppend(s.toAgent, Connect(ep));
    case CallerRequest(body) => SentAsked(env, s, l, body);
    case Control => SentControl(env, s, l);
    case Turn => PollKeepsRequest(s.agent, s.now, _ => s.now, _ => s.now);
    case _ =>
  }

  lemma {:induction false} SentRun(env: Env, s: System, steps: seq<Step>, l: Ledger)
    requires SentOk(s, l) && l.Valid() && Run(env, s, steps)
    ensures SentOk(Final(env, s, steps), Ledgered(env, s, steps, l))
    decreases |steps|
  {
    if steps == [] {
    } else {
      SentStep(env, s, steps[0], l);
      NoteValid(s, steps[0], l);
      SentRun(env, Apply(env, s, steps[0]), steps[1..], Note(s, steps[0], l));
    }
  }

  /** Whatever is sent to a server, under number `n`, has the body of the caller's `n`-th request. */
  lemma RequestsAreSentAsAsked(env: Env, s: System, steps: seq<Step>, i: nat)
    requires Initial(s) && Run(env, s, steps) && i < |Ledgered(env, s, steps, BLANK).sent|
    ensures var l := Ledgered(env, s, steps, BLANK);
            var r := l.sent[i].request;
            1 <= r.seqNo <= |l.asked| && r.body == l.asked[r.seqNo - 1]
  {
    SentRun(env, s, steps, BLANK);
  }

  /**
    A server's message is given to the caller exactly if its number is that of the latest request
    accepted and a frame follows it, and is then all that is given; a request under way is over then,
    and only then.
   */
  lemma RepliesAreGivenExactly(env: Env, s: System, steps: seq<Step>, m: Incoming)
    requires Initial(s) && Run(env, s, steps) && Enabled(Final(env, s, steps), Route(m))
    ensures var t := Final(env, s, steps);
            var u := Apply(env, t, Route(m));
            var accepted := |Ledgered(env, s, steps, BLANK).asked| - |Bodies(t.toAgent)|;
            var current := m.seqNo == Some(accepted) && m.body != [];
            && u.given == t.given + (if current then [Ok(accepted, m.body)] else [])
            && u.toCaller == t.toCaller + (if current then [Ok(accepted, m.body)] else [])
            && u.agent.request == if current then None else t.agent.request
  {
    SentRun(env, s, steps, BLANK);
  }
}
