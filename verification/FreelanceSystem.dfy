/**
  A caller, the Freelance agent and its servers as one timed transition system.

  The caller and the agent talk over two first-in-first-out pipes.  Servers send what they like,
  when they like; only those in `env.prompt` are promised to answer a ping within `env.within`.
  The agent turns its loop at least every INTERVAL.
 */
module FreelanceSystem {
  import opened Wrappers
  import opened FreelanceAgent

  datatype Env = Env(prompt: set<string>, within: nat)

  /** The caller is in `request`, waiting for the answer to its `n`-th request, or it is not. */
  datatype Caller = Free | Blocked(n: int)

  /**
    `pollBy` is the latest time of the agent's next turn.  `owed` holds, for each prompt server
    pinged since it was last heard of, when it answers at the latest.
    `made` and `connects` count what has happened and `given` holds every answer put on the pipe to
    the caller, the latest last; `violated` says that the agent died of a request that came in while
    another was under way, which ends the run.
   */
  datatype System = System(
    now: int, pollBy: int, agent: AgentState,
    toAgent: seq<Command>, toCaller: seq<Answer>, caller: Caller, violated: bool,
    owed: map<string, int>, made: int, given: seq<Answer>, connects: multiset<string>)

  /** Nothing connected, nothing asked, the agent about to begin its first turn. */
  predicate Initial(s: System) {
    && s.pollBy == s.now + INTERVAL
    && s.agent.servers == map[] && s.agent.actives == [] && s.agent.seqNo == 0 && s.agent.request.None?
    && s.toAgent == [] && s.toCaller == [] && s.caller.Free? && !s.violated
    && s.owed == map[] && s.made == 0 && s.given == [] && s.connects == multiset{}
  }

  datatype Step =
    | CallerConnect(ep: string) | CallerRequest(body: Message) | CallerReceive
    | Control | Route(m: Incoming) | Turn | Tick(d: nat)

  predicate Enabled(s: System, step: Step) {
    !s.violated &&
    match step
    case CallerConnect(_) => s.caller.Free?
    case CallerRequest(_) => s.caller.Free?
    case CallerReceive => s.caller.Blocked? && s.toCaller != []
    case Control => s.toAgent != []
    case Route(m) => m.from in s.agent.servers
    case Turn => Listed(s.agent.servers, s.agent.actives)
    case Tick(d) => s.now + d <= s.pollBy && forall ep :: ep in s.owed ==> s.now + d <= s.owed[ep]
  }

  /** Prompt servers pinged now owe an answer, unless they owe one already. */
  function NowOwed(env: Env, s: System): map<string, int>
    requires Listed(s.agent.servers, s.agent.actives)
  {
    var due := PingsDue(s.agent.OnPoll(s.now, _ => s.now).servers, _ => s.now) * env.prompt;
    map ep | ep in due + s.owed.Keys :: if ep in s.owed then s.owed[ep] else s.now + env.within
  }

  function Give(s: System, a: Answer): System {
    s.(toCaller := s.toCaller + [a], given := s.given + [a])
  }

  function Apply(env: Env, s: System, step: Step): System
    requires Enabled(s, step)
  {
    match step
    case CallerConnect(ep) => s.(toAgent := s.toAgent + [Connect(ep)])
    case CallerRequest(body) =>
      s.(toAgent := s.toAgent + [Send(body)], caller := Blocked(s.made + 1), made := s.made + 1)
    case CallerReceive => s.(toCaller := s.toCaller[1..], caller := Free)
    case Control =>
      var t := s.(toAgent := s.toAgent[1..]);
      (match s.toAgent[0]
       case Connect(ep) => t.(agent := s.agent.OnConnect(ep, s.now), connects := s.connects + multiset{ep})
       case Send(body) =>
         if s.agent.request.Some? then t.(violated := true) else t.(agent := s.agent.OnSend(body, s.now)))
    case Route(m) =>
      var t := s.(agent := s.agent.OnIncoming(m, s.now), owed := s.owed - {m.from});
      if s.agent.Matches(m) then Give(t, Ok(s.agent.seqNo, m.body)) else t
    case Turn =>
      var t := s.(agent := s.agent.OnPoll(s.now, _ => s.now).OnPing(_ => s.now), pollBy := s.now + INTERVAL,
                  owed := NowOwed(env, s));
      if s.agent.Expires(s.now) then Give(t, Failed) else t
    case Tick(d) => s.(now := s.now + d)
  }

  predicate Run(env: Env, s: System, steps: seq<Step>)
    decreases |steps|
  {
    steps == [] || (Enabled(s, steps[0]) && Run(env, Apply(env, s, steps[0]), steps[1..]))
  }

  function Final(env: Env, s: System, steps: seq<Step>): System
    requires Run(env, s, steps)
    decreases |steps|
  {
    if steps == [] then s else Final(env, Apply(env, s, steps[0]), steps[1..])
  }

  // ------------------------------------------------------------------ the queue of active servers

  function AliveSet(servers: Servers): set<string> {
    set ep | ep in servers && servers[ep].alive
  }

  predicate CountOk(queued: nat, connects: nat, alive: bool) {
    if alive then 1 <= queued <= connects + 1 else queued <= connects
  }

  /**
    Queue entries are known servers; an alive server is queued; an endpoint is queued at most once
    per connect, and once more if it is alive; and the same holds for the queue as a whole.
   */
  ghost predicate QueueOk(a: AgentState, connects: multiset<string>) {
    && Known(a.servers, a.actives, connects)
    && Counted(a.servers, a.actives, connects)
    && |a.actives| <= |connects| + |AliveSet(a.servers)|
    && |a.servers| <= |connects|
  }

  predicate Known(servers: Servers, actives: seq<string>, connects: multiset<string>) {
    && Listed(servers, actives)
    && forall ep :: ep in servers ==> servers[ep].endpoint == ep && ep in connects
  }

  predicate Counted(servers: Servers, actives: seq<string>, connects: multiset<string>) {
    forall ep :: ep in servers ==> CountOk(multiset(actives)[ep], connects[ep], servers[ep].alive)
  }

  lemma PushCounts(a: seq<string>, x: string, ep: string)
    ensures multiset(a + [x])[ep] == multiset(a)[ep] + if ep == x then 1 else 0
  {
  }

  lemma PopCounts(a: seq<string>, ep: string)
    requires a != []
    ensures multiset(a)[ep] == multiset(a[1..])[ep] + if ep == a[0] then 1 else 0
  {
    assert a == [a[0]] + a[1..];
  }

  lemma CountedConnect(servers: Servers, actives: seq<string>, connects: multiset<string>, ep: string, srv: Server)
    requires Known(servers, actives, connects) && Counted(servers, actives, connects) && !srv.alive
    ensures Counted(if ep in servers then servers else servers[ep := srv], actives + [ep], connects + multiset{ep})
  {
    var t := if ep in servers then servers else servers[ep := srv];
    forall e | e in t ensures CountOk(multiset(actives + [ep])[e], (connects + multiset{ep})[e], t[e].alive) {
      PushCounts(actives, ep, e);
      if e !in servers {
        assert e !in actives;
      }
    }
  }

  lemma QueueConnect(a: AgentState, connects: multiset<string>, ep: string, now: int)
    requires QueueOk(a, connects)
    ensures QueueOk(a.OnConnect(ep, now), connects + multiset{ep})
  {
    CountedConnect(a.servers, a.actives, connects, ep, NewServer(ep, now));
    if ep !in a.servers {
      NewCounts(a.servers, ep, NewServer(ep, now));
    }
  }

  lemma NewCounts(servers: Servers, ep: string, srv: Server)
    requires ep !in servers && !srv.alive
    ensures |servers[ep := srv]| == |servers| + 1
    ensures AliveSet(servers[ep := srv]) == AliveSet(servers)
  {
    var t := servers[ep := srv];
    assert t.Keys == servers.Keys + {ep};
    assert |t| == |t.Keys| && |servers| == |servers.Keys|;
  }

  lemma AliveCounts(servers: Servers, ep: string, srv: Server)
    requires ep in servers && srv.alive
    ensures |servers[ep := srv]| == |servers|
    ensures |AliveSet(servers[ep := srv])| == |AliveSet(servers)| + if servers[ep].alive then 0 else 1
  {
    var t := servers[ep := srv];
    assert t.Keys == servers.Keys;
    assert |t| == |t.Keys| && |servers| == |servers.Keys|;
    assert AliveSet(t) == AliveSet(servers) + {ep};
    assert servers[ep].alive ==> AliveSet(t) == AliveSet(servers);
  }

  lemma CountedIncoming(servers: Servers, actives: seq<string>, connects: multiset<string>, ep: string, srv: Server)
    requires Known(servers, actives, connects) && Counted(servers, actives, connects) && ep in servers && srv.alive
    ensures Counted(servers[ep := srv], if servers[ep].alive then actives else actives + [ep], connects)
  {
    var actives' := if servers[ep].alive then actives else actives + [ep];
    forall e | e in servers ensures CountOk(multiset(actives')[e], connects[e], servers[ep := srv][e].alive) {
      PushCounts(actives, ep, e);
      assert CountOk(multiset(actives)[e], connects[e], servers[e].alive);
    }
  }

  lemma QueueIncoming(a: AgentState, connects: multiset<string>, m: Incoming, now: int)
    requires QueueOk(a, connects) && m.from in a.servers
    ensures QueueOk(a.OnIncoming(m, now), connects)
  {
    var srv := a.OnIncoming(m, now).servers[m.from];
    AliveCounts(a.servers, m.from, srv);
    CountedIncoming(a.servers, a.actives, connects, m.from, srv);
  }

  lemma {:induction false} QueueDispatch(a: AgentState, connects: multiset<string>, clock: nat -> int, i: nat)
    requires QueueOk(a, connects)
    ensures var d := Dispatch(a.servers, a.actives, clock, i);
            QueueOk(a.(servers := d.servers, actives := d.actives), connects)
    decreases |a.actives|
  {
    if a.actives == [] || !a.servers[a.actives[0]].IsExpiry(clock(i)) {
    } else {
      var ep := a.actives[0];
      var b := a.(servers := SetDead(a.servers, ep), actives := a.actives[1..]);
      QueuePop(a, connects, b);
      QueueDispatch(b, connects, clock, i + 1);
    }
  }

  lemma DeadCounts(servers: Servers, ep: string)
    requires ep in servers
    ensures |SetDead(servers, ep)| == |servers|
    ensures |AliveSet(SetDead(servers, ep))| >= |AliveSet(servers)| - 1
  {
    var dead := SetDead(servers, ep);
    assert dead.Keys == servers.Keys;
    assert |dead| == |dead.Keys| && |servers| == |servers.Keys|;
    assert AliveSet(dead) == AliveSet(servers) - {ep};
  }

  lemma CountedPop(servers: Servers, actives: seq<string>, connects: multiset<string>)
    requires Known(servers, actives, connects) && Counted(servers, actives, connects) && actives != []
    ensures Counted(SetDead(servers, actives[0]), actives[1..], connects)
  {
    forall e | e in servers
      ensures CountOk(multiset(actives[1..])[e], connects[e], SetDead(servers, actives[0])[e].alive)
    {
      PopCounts(actives, e);
      assert CountOk(multiset(actives)[e], connects[e], servers[e].alive);
    }
  }

  lemma QueuePop(a: AgentState, connects: multiset<string>, b: AgentState)
    requires QueueOk(a, connects) && a.actives != []
    requires b == a.(servers := SetDead(a.servers, a.actives[0]), actives := a.actives[1..])
    ensures QueueOk(b, connects)
  {
    DeadCounts(a.servers, a.actives[0]);
    CountedPop(a.servers, a.actives, connects);
  }

  lemma QueuePing(a: AgentState, connects: multiset<string>, clock: string -> int)
    requires QueueOk(a, connects)
    ensures QueueOk(a.OnPing(clock), connects)
  {
    var b := a.OnPing(clock);
    assert b.servers.Keys == a.servers.Keys;
    assert |b.servers| == |b.servers.Keys| && |a.servers| == |a.servers.Keys|;
    assert AliveSet(b.servers) == AliveSet(a.servers);
  }

  lemma QueueStep(env: Env, s: System, step: Step)
    requires QueueOk(s.agent, s.connects) && Enabled(s, step)
    ensures QueueOk(Apply(env, s, step).agent, Apply(env, s, step).connects)
  {
    match step
    case Control =>
      if s.toAgent[0].Connect? {
        QueueConnect(s.agent, s.connects, s.toAgent[0].endpoint, s.now);
      }
    case Route(m) => QueueIncoming(s.agent, s.connects, m, s.now);
    case Turn =>
      QueueDispatch(s.agent, s.connects, _ => s.now, 0);
      var a := s.agent.OnPoll(s.now, _ => s.now);
      assert QueueOk(a, s.connects);
      QueuePing(a, s.connects, _ => s.now);
    case _ =>
  }

  lemma {:induction false} QueueRun(env: Env, s: System, steps: seq<Step>)
    requires QueueOk(s.agent, s.connects) && Run(env, s, steps)
    ensures QueueOk(Final(env, s, steps).agent, Final(env, s, steps).connects)
    decreases |steps|
  {
    if steps == [] {
    } else {
      QueueStep(env, s, steps[0]);
      QueueRun(env, Apply(env, s, steps[0]), steps[1..]);
    }
  }

  /**
    However many replies arrive, the queue stays within twice the number of connects, every entry
    names a known server, so looking it up never fails, and no alive server is missing from it.
   */
  lemma QueueIsBounded(env: Env, s: System, steps: seq<Step>)
    requires Initial(s) && Run(env, s, steps)
    ensures var t := Final(env, s, steps);
            && |t.agent.actives| <= 2 * |t.connects|
            && Listed(t.agent.servers, t.agent.actives)
            && forall ep :: ep in t.agent.servers ==>
                 CountOk(multiset(t.agent.actives)[ep], t.connects[ep], t.agent.servers[ep].alive)
  {
    QueueRun(env, s, steps);
    var t := Final(env, s, steps);
    assert AliveSet(t.agent.servers) <= t.agent.servers.Keys;
    SubsetSize(AliveSet(t.agent.servers), t.agent.servers.Keys);
    assert |t.agent.servers| == |t.agent.servers.Keys|;
  }

  lemma {:induction false} SubsetSize<T>(a: set<T>, b: set<T>)
    requires a <= b
    ensures |a| <= |b|
  {
    assert b == a + (b - a);
  }

  // ------------------------------------------------------------------ the handshake

  function Sends(q: seq<Command>): nat {
    if q == [] then 0 else (if q[0].Send? then 1 else 0) + Sends(q[1..])
  }

  lemma {:induction false} SendsAppend(q: seq<Command>, c: Command)
    ensures Sends(q + [c]) == Sends(q) + if c.Send? then 1 else 0
  {
    if q == [] {
    } else {
      assert (q + [c])[1..] == q[1..] + [c];
      SendsAppend(q[1..], c);
    }
  }

  /** Where the caller's request is: under way to the agent, in its hands, or answered. */
  function Tokens(s: System): int {
    Sends(s.toAgent) + (if s.agent.request.Some? then 1 else 0) + |s.toCaller|
  }

  /** Caller and agent take turns: one request is outstanding exactly while the caller waits. */
  predicate Alternates(s: System) {
    !s.violated && Tokens(s) == if s.caller.Blocked? then 1 else 0
  }

  /** A reply with the current number when no request is being worked on. */
  predicate Stray(s: System, step: Step) {
    step.Route? && s.agent.Matches(step.m) && s.agent.request.None?
  }

  predicate NoStray(env: Env, s: System, steps: seq<Step>)
    requires Run(env, s, steps)
    decreases |steps|
  {
    steps == [] || (!Stray(s, steps[0]) && NoStray(env, Apply(env, s, steps[0]), steps[1..]))
  }

  predicate AlwaysAlternates(env: Env, s: System, steps: seq<Step>)
    requires Run(env, s, steps)
    decreases |steps|
  {
    Alternates(s) && (steps == [] || AlwaysAlternates(env, Apply(env, s, steps[0]), steps[1..]))
  }

  predicate HandshakeOk(s: System) {
    && Alternates(s)
    && s.agent.seqNo + Sends(s.toAgent) == s.made
    && |s.given| == s.agent.seqNo - (if s.agent.request.Some? then 1 else 0)
    && (s.caller.Blocked? ==> s.caller.n == s.made)
    && (s.agent.request.Some? ==> s.agent.request.value.seqNo == s.agent.seqNo)
    && (forall i :: 0 <= i < |s.toCaller| && s.toCaller[i].Ok? ==> s.toCaller[i].seqNo == s.made)
  }

  lemma PollKeepsRequest(a: AgentState, now: int, clock: nat -> int, clock': string -> int)
    requires Listed(a.servers, a.actives)
    ensures var b := a.OnPoll(now, clock).OnPing(clock');
            b.seqNo == a.seqNo && b.expiry == a.expiry && b.request == if a.Expires(now) then None else a.request
  {
  }

  lemma HandshakeStep(env: Env, s: System, step: Step)
    requires HandshakeOk(s) && Enabled(s, step)
    ensures Stray(s, step) ==> !Alternates(Apply(env, s, step))
    ensures !Stray(s, step) ==> HandshakeOk(Apply(env, s, step))
  {
    match step
    case CallerConnect(ep) => SendsAppend(s.toAgent, Connect(ep));
    case CallerRequest(body) => SendsAppend(s.toAgent, Send(body));
    case Turn => PollKeepsRequest(s.agent, s.now, _ => s.now, _ => s.now);
    case _ =>
  }

  /**
    Caller and agent alternate throughout a run exactly when no reply bearing the current number
    arrives while no request is being worked on, which is the test the agent leaves out.
   */
  lemma {:induction false} AlternatesExactlyWithoutStrays(env: Env, s: System, steps: seq<Step>)
    requires HandshakeOk(s) && Run(env, s, steps)
    ensures AlwaysAlternates(env, s, steps) <==> NoStray(env, s, steps)
    ensures NoStray(env, s, steps) ==> HandshakeOk(Final(env, s, steps))
    decreases |steps|
  {
    if steps == [] {
    } else {
      var t := Apply(env, s, steps[0]);
      HandshakeStep(env, s, steps[0]);
      if !Stray(s, steps[0]) {
        AlternatesExactlyWithoutStrays(env, t, steps[1..]);
      }
    }
  }

  /**
    So in a run without strays the agent never dies of an overlapping request, and an OK that
    waits for the caller is the answer to its latest request.
   */
  lemma HandshakeHolds(env: Env, s: System, steps: seq<Step>)
    requires Initial(s) && Run(env, s, steps)
    ensures AlwaysAlternates(env, s, steps) <==> NoStray(env, s, steps)
    ensures NoStray(env, s, steps) ==>
              var t := Final(env, s, steps);
              && !t.violated
              && |t.toCaller| <= 1
              && (t.toCaller != [] ==>
                    t.caller == Blocked(t.made) && (t.toCaller[0].Ok? ==> t.toCaller[0].seqNo == t.made))
  {
    StartOk(s);
    AlternatesExactlyWithoutStrays(env, s, steps);
    if NoStray(env, s, steps) {
      WaitingAnswer(Final(env, s, steps));
    }
  }

  lemma StartOk(s: System)
    requires Initial(s)
    ensures HandshakeOk(s) && DeadlineOk(s)
  {
  }

  lemma WaitingAnswer(t: System)
    requires HandshakeOk(t)
    ensures |t.toCaller| <= 1
    ensures t.toCaller != [] ==>
              t.caller == Blocked(t.made) && (t.toCaller[0].Ok? ==> t.toCaller[0].seqNo == t.made)
  {
  }

  // ------------------------------------------------------------------ answers come in time

  /** An expired request is noticed by the agent's next turn. */
  predicate DeadlineOk(s: System) {
    s.now <= s.pollBy <= s.now + INTERVAL && (s.agent.request.Some? ==> s.pollBy <= s.agent.expiry + INTERVAL)
  }

  lemma DeadlineStep(env: Env, s: System, step: Step)
    requires DeadlineOk(s) && Enabled(s, step)
    ensures DeadlineOk(Apply(env, s, step))
  {
    if step.Turn? {
      PollKeepsRequest(s.agent, s.now, _ => s.now, _ => s.now);
    }
  }

  lemma {:induction false} DeadlineRun(env: Env, s: System, steps: seq<Step>)
    requires DeadlineOk(s) && Run(env, s, steps)
    ensures DeadlineOk(Final(env, s, steps))
    decreases |steps|
  {
    if steps == [] {
    } else {
      DeadlineStep(env, s, steps[0]);
      DeadlineRun(env, Apply(env, s, steps[0]), steps[1..]);
    }
  }

  /** An answer to request number `n`: its reply, which has a body, or that there is none. */
  predicate Answers(a: Answer, n: int) {
    a.Failed? || (a.seqNo == n && a.body != [])
  }

  /**
    The first answer given from here on is one to the request under way, and FAILED only past its
    expiry; until then the request is kept.
   */
  lemma {:induction false} RequestKeptOrAnswered(env: Env, s: System, steps: seq<Step>)
    requires s.agent.request.Some? && Run(env, s, steps)
    ensures var t := Final(env, s, steps);
            && s.given <= t.given
            && (t.given == s.given ==>
                  t.agent.request.Some? && t.agent.seqNo == s.agent.seqNo && t.agent.expiry == s.agent.expiry)
            && (t.given != s.given ==>
                  Answers(t.given[|s.given|], s.agent.seqNo) &&
                  (t.given[|s.given|] == Failed ==> t.now > s.agent.expiry))
    decreases |steps|
  {
    if steps == [] {
    } else {
      var t := Apply(env, s, steps[0]);
      if steps[0].Turn? {
        PollKeepsRequest(s.agent, s.now, _ => s.now, _ => s.now);
      }
      if t.given == s.given {
        RequestKeptOrAnswered(env, t, steps[1..]);
      } else {
        GivenGrows(env, t, steps[1..]);
      }
    }
  }

  lemma {:induction false} GivenGrows(env: Env, s: System, steps: seq<Step>)
    requires Run(env, s, steps)
    ensures s.given <= Final(env, s, steps).given && s.now <= Final(env, s, steps).now
    decreases |steps|
  {
    if steps == [] {
    } else {
      GivenGrows(env, Apply(env, s, steps[0]), steps[1..]);
    }
  }

  /**
    Every request the agent accepts is answered, OK or FAILED, within GLOBAL_TIMEOUT + INTERVAL,
    whatever the servers send and when: once that long has passed, the first answer given since is
    its reply, or that it failed, and it does not fail before GLOBAL_TIMEOUT is over.  (Time passes only
    while the agent lives.)
   */
  lemma AnsweredInTime(env: Env, s: System, before: seq<Step>, after: seq<Step>)
    requires Initial(s) && Run(env, s, before)
    requires var m := Final(env, s, before);
             Enabled(m, Control) && m.toAgent[0].Send? && m.agent.request.None? &&
             Run(env, Apply(env, m, Control), after)
    ensures var m := Final(env, s, before);
            var t := Final(env, Apply(env, m, Control), after);
            && (t.now > m.now + GLOBAL_TIMEOUT + INTERVAL ==>
                  m.given < t.given && Answers(t.given[|m.given|], m.agent.seqNo + 1))
            && (m.given < t.given && t.given[|m.given|] == Failed ==> t.now > m.now + GLOBAL_TIMEOUT)
  {
    var m := Final(env, s, before);
    var a := Apply(env, m, Control);
    StartOk(s);
    DeadlineRun(env, s, before);
    DeadlineStep(env, m, Control);
    DeadlineRun(env, a, after);
    RequestKeptOrAnswered(env, a, after);
  }

  // ------------------------------------------------------------------ prompt servers are kept

  const LONGEST_ANSWER := SERVER_TTL - PING_INTERVAL - INTERVAL

  /** A server heard of recently enough, or pinged and bound to answer before it expires. */
  predicate ServerKept(s: System, ep: string)
    requires ep in s.agent.servers
  {
    var srv := s.agent.servers[ep];
    if ep in s.owed then s.now <= s.owed[ep] <= srv.expiry
    else srv.expiry == srv.pingAt + SERVER_TTL - PING_INTERVAL && s.pollBy <= srv.pingAt + INTERVAL
  }

  ghost predicate AllKept(env: Env, s: System) {
    && s.now <= s.pollBy <= s.now + INTERVAL
    && (forall ep :: ep in s.owed ==> s.now <= s.owed[ep] && ep in s.agent.servers)
    && forall ep :: ep in env.prompt && ep in s.agent.servers ==> ServerKept(s, ep)
  }

  lemma PollKeepsServers(a: AgentState, now: int, clock: nat -> int)
    requires Listed(a.servers, a.actives)
    ensures var b := a.OnPoll(now, clock);
            b.servers.Keys == a.servers.Keys &&
            forall ep :: ep in a.servers ==>
              b.servers[ep].pingAt == a.servers[ep].pingAt && b.servers[ep].expiry == a.servers[ep].expiry
  {
    DispatchPopsExpiredPrefix(a.servers, a.actives, clock, 0);
  }

  lemma KeptByTurn(env: Env, s: System)
    requires env.within <= LONGEST_ANSWER && AllKept(env, s) && Enabled(s, Turn)
    ensures AllKept(env, Apply(env, s, Turn))
  {
    PollKeepsServers(s.agent, s.now, _ => s.now);
    var t := Apply(env, s, Turn);
    assert t.agent.servers.Keys == s.agent.servers.Keys;
    forall ep | ep in env.prompt && ep in t.agent.servers ensures ServerKept(t, ep) {
      assert ServerKept(s, ep);
    }
  }

  lemma KeptStep(env: Env, s: System, step: Step)
    requires env.within <= LONGEST_ANSWER && AllKept(env, s) && Enabled(s, step)
    ensures AllKept(env, Apply(env, s, step))
  {
    var t := Apply(env, s, step);
    if step.Turn? {
      KeptByTurn(env, s);
    } else {
      forall ep | ep in env.prompt && ep in t.agent.servers ensures ServerKept(t, ep) {
        assert ep in s.agent.servers ==> ServerKept(s, ep);
      }
    }
  }

  lemma {:induction false} KeptRun(env: Env, s: System, steps: seq<Step>)
    requires env.within <= LONGEST_ANSWER && AllKept(env, s) && Run(env, s, steps)
    ensures AllKept(env, Final(env, s, steps))
    decreases |steps|
  {
    if steps == [] {
    } else {
      KeptStep(env, s, steps[0]);
      KeptRun(env, Apply(env, s, steps[0]), steps[1..]);
    }
  }

  /** A turn of the agent would now throw a prompt server out of the queue. */
  predicate Drops(env: Env, s: System) {
    && Listed(s.agent.servers, s.agent.actives)
    && s.agent.Dispatches(s.now)
    && exists i :: 0 <= i < ExpiredPrefix(s.agent.servers, s.agent.actives, _ => s.now, 0) &&
                   s.agent.actives[i] in env.prompt
  }

  ghost predicate CanDrop(env: Env) {
    exists s: System, steps: seq<Step> :: Initial(s) && Run(env, s, steps) && Drops(env, Final(env, s, steps))
  }

  lemma PromptServersStay(env: Env, s: System, steps: seq<Step>)
    requires env.within <= LONGEST_ANSWER && Initial(s) && Run(env, s, steps)
    ensures !Drops(env, Final(env, s, steps))
    ensures var t := Final(env, s, steps);
            forall ep :: ep in env.prompt && ep in t.agent.servers ==> !t.agent.servers[ep].IsExpiry(t.now)
  {
    KeptRun(env, s, steps);
    var t := Final(env, s, steps);
    forall ep | ep in env.prompt && ep in t.agent.servers ensures !t.agent.servers[ep].IsExpiry(t.now) {
      assert ServerKept(t, ep);
    }
  }

  lemma RunCons(env: Env, s: System, step: Step, rest: seq<Step>)
    requires Enabled(s, step) && Run(env, Apply(env, s, step), rest)
    ensures Run(env, s, [step] + rest)
    ensures Final(env, s, [step] + rest) == Final(env, Apply(env, s, step), rest)
  {
    assert ([step] + rest)[1..] == rest;
  }

  /** One server, connected at time 0, which is too slow to answer its first ping before it expires. */
  predicate Fading(s: System, ep: string) {
    && !s.violated && s.toAgent == [] && s.caller.Free? && s.agent.request.None?
    && s.agent.actives == [ep] && s.agent.servers.Keys == {ep} && s.agent.servers[ep].expiry == SERVER_TTL
    && s.now % INTERVAL == 0 && s.pollBy == s.now + INTERVAL
    && s.owed.Keys <= {ep}
    && (if ep in s.owed then s.owed[ep] > SERVER_TTL
        else s.agent.servers[ep].pingAt == PING_INTERVAL && s.now <= PING_INTERVAL)
  }

  lemma FadingTurn(env: Env, s: System, ep: string)
    requires env.within > LONGEST_ANSWER && ep in env.prompt && Fading(s, ep) && s.now < SERVER_TTL
    ensures Enabled(s, Tick(INTERVAL)) && Enabled(Apply(env, s, Tick(INTERVAL)), Turn)
    ensures var t := Apply(env, Apply(env, s, Tick(INTERVAL)), Turn);
            Fading(t, ep) && t.now == s.now + INTERVAL
  {
    var s1 := Apply(env, s, Tick(INTERVAL));
    var t := Apply(env, s1, Turn);
    assert s1.agent.OnPoll(s1.now, _ => s1.now) == s1.agent;
    assert t.agent.servers.Keys == {ep};
    assert t.owed.Keys <= {ep};
  }

  lemma {:induction false} FadeAway(env: Env, s: System, ep: string) returns (steps: seq<Step>)
    requires env.within > LONGEST_ANSWER && ep in env.prompt && Fading(s, ep) && s.now <= SERVER_TTL
    ensures Run(env, s, steps) && Drops(env, Final(env, s, steps))
    decreases SERVER_TTL - s.now
  {
    if s.now < SERVER_TTL {
      FadingTurn(env, s, ep);
      var s1 := Apply(env, s, Tick(INTERVAL));
      var s2 := Apply(env, s1, Turn);
      steps := FadeAway(env, s2, ep);
      RunCons(env, s1, Turn, steps);
      steps := [Turn] + steps;
      RunCons(env, s, Tick(INTERVAL), steps);
      steps := [Tick(INTERVAL)] + steps;
    } else {
      var s1 := Apply(env, s, CallerRequest([]));
      var s2 := Apply(env, s1, Control);
      var s3 := Apply(env, s2, Tick(1));
      assert ExpiredPrefix(s3.agent.servers, s3.agent.actives, _ => s3.now, 0) > 0;
      assert s3.agent.actives[0] in env.prompt;
      steps := [Tick(1)] + [];
      RunCons(env, s2, Tick(1), []);
      RunCons(env, s1, Control, steps);
      steps := [Control] + steps;
      RunCons(env, s, CallerRequest([]), steps);
      steps := [CallerRequest([])] + steps;
    }
  }

  /**
    A server that answers every ping within `env.within` is never thrown out of the queue, in any
    run, exactly when that is at most SERVER_TTL - PING_INTERVAL - INTERVAL.
   */
  lemma KeptExactlyWhenPrompt(env: Env)
    requires env.prompt != {}
    ensures CanDrop(env) <==> env.within > LONGEST_ANSWER
  {
    if env.within <= LONGEST_ANSWER {
      forall s, steps | Initial(s) && Run(env, s, steps) ensures !Drops(env, Final(env, s, steps)) {
        PromptServersStay(env, s, steps);
      }
    } else {
      var ep :| ep in env.prompt;
      var s := System(0, INTERVAL, AgentState(map[], [], 0, None, 0), [], [], Free, false, map[], 0, [], multiset{});
      var s1 := Apply(env, s, CallerConnect(ep));
      var s2 := Apply(env, s1, Control);
      var steps := FadeAway(env, s2, ep);
      RunCons(env, s1, Control, steps);
      RunCons(env, s, CallerConnect(ep), [Control] + steps);
      assert Initial(s) && Drops(env, Final(env, s, [CallerConnect(ep)] + ([Control] + steps)));
    }
  }

  // ------------------------------------------------------------------ a stray reply does harm

  /**
    The test the agent leaves out matters.  From any idle state with a server connected, a late
    second copy of the last reply is what the caller receives as the answer to its next request, and
    the request after that kills the agent.
   */
  lemma StrayReplyKills(env: Env, s: System, ep: string, late: Message, next: Message) returns (steps: seq<Step>)
    requires HandshakeOk(s) && s.caller.Free? && s.toAgent == [] && ep in s.agent.servers && late != []
    ensures steps == [Route(Incoming(ep, Some(s.agent.seqNo), late)),
                      CallerRequest(next), CallerReceive, Control, CallerRequest(next), Control]
    ensures Run(env, s, steps) && Final(env, s, steps).violated
    ensures Run(env, s, steps[..2])
    ensures var t := Final(env, s, steps[..2]);
            && t.caller == Blocked(s.made + 1) && t.toAgent == [Send(next)]
            && t.toCaller == [Ok(s.agent.seqNo, late)] && s.agent.seqNo == s.made
  {
    var m := Incoming(ep, Some(s.agent.seqNo), late);
    var s1 := Apply(env, s, Route(m));
    assert s1.toCaller == [Ok(s.made, late)];
    var s2 := Apply(env, s1, CallerRequest(next));
    var s3 := Apply(env, s2, CallerReceive);
    var s4 := Apply(env, s3, Control);
    assert s4.caller.Free? && s4.agent.request.Some?;
    var s5 := Apply(env, s4, CallerRequest(next));
    steps := [Control] + [];
    RunCons(env, s5, Control, []);
    RunCons(env, s4, CallerRequest(next), steps);
    steps := [CallerRequest(next)] + steps;
    RunCons(env, s3, Control, steps);
    steps := [Control] + steps;
    RunCons(env, s2, CallerReceive, steps);
    steps := [CallerReceive] + steps;
    RunCons(env, s1, CallerRequest(next), steps);
    steps := [CallerRequest(next)] + steps;
    RunCons(env, s, Route(m), steps);
    steps := [Route(m)] + steps;
    RunCons(env, s1, CallerRequest(next), []);
    RunCons(env, s, Route(m), [CallerRequest(next)] + []);
    assert steps[..2] == [Route(m)] + ([CallerRequest(next)] + []);
  }
}
