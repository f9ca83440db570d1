/**
  The Freelance agent: the background half of the client API, with its table of servers, its
  queue of servers believed alive, and the one request it works on.

  `AgentState` and its functions say what each handler does; `Agent` is the object whose methods
  update the fields in place.  A clock reading is the parameter `now`, in milliseconds.
 */
module FreelanceAgent {
  import opened Wrappers

  const PING_INTERVAL := 2000
  const SERVER_TTL := 6000
  const GLOBAL_TIMEOUT := 3000
  const INTERVAL := 1000

  datatype Server = Server(endpoint: string, alive: bool, pingAt: int, expiry: int) {
    predicate IsExpiry(now: int) {
      now > expiry
    }

    predicate PingDue(now: int) {
      now > pingAt
    }

    function ResetExpiry(now: int): Server {
      this.(pingAt := now + PING_INTERVAL, expiry := now + SERVER_TTL)
    }

    function Pinged(now: int): Server {
      if PingDue(now) then this.(pingAt := now + PING_INTERVAL) else this
    }
  }

  type Servers = map<string, Server>

  function NewServer(ep: string, now: int): Server {
    Server(ep, false, now + PING_INTERVAL, now + SERVER_TTL)
  }

  datatype Request = Request(seqNo: int, body: Message)

  /** What the caller puts on the pipe. */
  datatype Command = Connect(endpoint: string) | Send(body: Message)

  /** What a server sends: who, the frame that is a number if more frames follow it, those frames. */
  datatype Incoming = Incoming(from: string, seqNo: Option<int>, body: Message)

  datatype Answer = Ok(seqNo: int, body: Message) | Failed

  /** A copy of the request on its way to a server. */
  datatype Sending = Sending(to: string, request: Request)

  /** The outcome of looking for a server to talk to. */
  datatype Dispatched = Dispatched(servers: Servers, actives: seq<string>, target: Option<string>)

  predicate Listed(servers: Servers, actives: seq<string>) {
    forall i :: 0 <= i < |actives| ==> actives[i] in servers
  }

  function SetDead(servers: Servers, ep: string): Servers
    requires ep in servers
  {
    servers[ep := servers[ep].(alive := false)]
  }

  /** Pop expired servers off the front; `clock(i)` is the reading for the `i`-th look. */
  function Dispatch(servers: Servers, actives: seq<string>, clock: nat -> int, i: nat): Dispatched
    requires Listed(servers, actives)
    decreases |actives|
  {
    if actives == [] then Dispatched(servers, actives, None)
    else if servers[actives[0]].IsExpiry(clock(i)) then
      Dispatch(SetDead(servers, actives[0]), actives[1..], clock, i + 1)
    else Dispatched(servers, actives, Some(actives[0]))
  }

  /** Ping every server whose turn it is; `clock(ep)` is the reading for server `ep`. */
  function PingAll(servers: Servers, clock: string -> int): Servers {
    map ep | ep in servers :: servers[ep].Pinged(clock(ep))
  }

  function PingsDue(servers: Servers, clock: string -> int): set<string> {
    set ep | ep in servers && servers[ep].PingDue(clock(ep))
  }

  datatype AgentState = AgentState(servers: Servers, actives: seq<string>, seqNo: int,
                                   request: Option<Request>, expiry: int) {
    /** Connecting twice keeps the server's entry but queues it again. */
    function OnConnect(ep: string, now: int): AgentState {
      this.(servers := if ep in servers then servers else servers[ep := NewServer(ep, now)],
            actives := actives + [ep])
    }

    function OnSend(body: Message, now: int): AgentState {
      this.(seqNo := seqNo + 1, request := Some(Request(seqNo + 1, body)), expiry := now + GLOBAL_TIMEOUT)
    }

    /**
      A message counts as the reply when its number is the current one and a frame follows it: a single
      frame is never read as a number.  `request` is not looked at.
     */
    predicate Matches(m: Incoming) {
      m.seqNo == Some(seqNo) && m.body != []
    }

    function OnIncoming(m: Incoming, now: int): AgentState
      requires m.from in servers
    {
      var s := servers[m.from];
      this.(servers := servers[m.from := s.(alive := true).ResetExpiry(now)],
            actives := if s.alive then actives else actives + [m.from],
            request := if Matches(m) then None else request)
    }

    predicate Expires(now: int) {
      request.Some? && now > expiry
    }

    predicate Dispatches(now: int) {
      request.Some? && now <= expiry
    }

    /** The part of an iteration that deals with the request. */
    function OnPoll(now: int, clock: nat -> int): AgentState
      requires Listed(servers, actives)
    {
      if Expires(now) then this.(request := None)
      else if Dispatches(now) then
        var d := Dispatch(servers, actives, clock, 0);
        this.(servers := d.servers, actives := d.actives)
      else this
    }

    /** What an iteration sends. */
    function Sends(now: int, clock: nat -> int): Option<Sending>
      requires Listed(servers, actives)
    {
      if Dispatches(now) then
        var target := Dispatch(servers, actives, clock, 0).target;
        if target.Some? then Some(Sending(target.value, request.value)) else None
      else None
    }

    function OnPing(clock: string -> int): AgentState {
      this.(servers := PingAll(servers, clock))
    }
  }

  // ------------------------------------------------------------------ the object

  class Agent {
    var servers: Servers
    var actives: seq<string>
    var seqNo: int
    var request: Option<Request>
    var expiry: int

    function Value(): AgentState
      reads this
    {
      AgentState(servers, actives, seqNo, request, expiry)
    }

    constructor ()
      ensures Value() == AgentState(map[], [], 0, None, 0)
    {
      servers, actives, seqNo, request, expiry := map[], [], 0, None, 0;
    }

    /** `violated` reports that a request came in while another was under way, which ends the process. */
    method ControlMessage(cmd: Command, now: int) returns (violated: bool)
      modifies this
      ensures violated <==> cmd.Send? && old(request).Some?
      ensures Value() ==
              if cmd.Connect? then old(Value()).OnConnect(cmd.endpoint, now)
              else if violated then old(Value())
              else old(Value()).OnSend(cmd.body, now)
    {
      violated := false;
      match cmd {
        case Connect(ep) =>
          if ep !in servers {
            servers := servers[ep := NewServer(ep, now)];
          }
          actives := actives + [ep];
        case Send(body) =>
          if request.Some? {
            return true;
          }
          seqNo := seqNo + 1;
          request := Some(Request(seqNo, body));
          expiry := now + GLOBAL_TIMEOUT;
      }
    }

    /** `threw` reports a message from a server that is not in the table. */
    method RouteMessage(m: Incoming, now: int) returns (answer: Option<Answer>, threw: bool)
      modifies `servers, `actives, `request
      ensures threw <==> m.from !in old(servers)
      ensures threw ==> Value() == old(Value()) && answer.None?
      ensures !threw ==>
                Value() == old(Value()).OnIncoming(m, now) &&
                answer == if old(Value()).Matches(m) then Some(Ok(seqNo, m.body)) else None
    {
      answer, threw := None, false;
      if m.from !in servers {
        return None, true;
      }
      var srv := servers[m.from];
      if !srv.alive {
        srv := srv.(alive := true);
        actives := actives + [m.from];
      }
      srv := srv.(pingAt := now + PING_INTERVAL);
      srv := srv.(expiry := now + SERVER_TTL);
      servers := servers[m.from := srv];
      if m.seqNo.Some? && m.body != [] {
        if m.seqNo.value == seqNo {
          answer := Some(Ok(seqNo, m.body));
          request := None;
        }
      }
    }

    /** One turn after the poll: give up on the request or send it to the first live server. */
    method Poll(now: int, clock: nat -> int) returns (answer: Option<Answer>, sent: Option<Sending>)
      requires Listed(servers, actives)
      modifies `servers, `actives, `request
      ensures Value() == old(Value()).OnPoll(now, clock)
      ensures answer == if old(Value()).Expires(now) then Some(Failed) else None
      ensures sent == old(Value()).Sends(now, clock)
    {
      answer, sent := None, None;
      if request.Some? {
        if now > expiry {
          answer := Some(Failed);
          request := None;
        } else {
          var i := 0;
          while actives != []
            invariant Listed(servers, actives)
            invariant Dispatch(servers, actives, clock, i) == Dispatch(old(servers), old(actives), clock, 0)
            invariant sent == None && request == old(request)
            decreases |actives|
          {
            var srv := servers[actives[0]];
            if srv.IsExpiry(clock(i)) {
              servers := SetDead(servers, actives[0]);
              actives := actives[1..];
              i := i + 1;
            } else {
              sent := Some(Sending(actives[0], request.value));
              break;
            }
          }
        }
      }
    }

    /** Ping every server whose turn it is, in whatever order the table yields them. */
    method PingServers(clock: string -> int) returns (pinged: set<string>)
      modifies `servers
      ensures Value() == old(Value()).OnPing(clock)
      ensures pinged == PingsDue(old(servers), clock)
    {
      var todo := servers.Keys;
      pinged := {};
      while todo != {}
        invariant todo <= servers.Keys == old(servers).Keys
        invariant forall ep :: ep in todo ==> servers[ep] == old(servers)[ep]
        invariant forall ep :: ep in servers && ep !in todo ==> servers[ep] == old(servers)[ep].Pinged(clock(ep))
        invariant pinged == set ep | ep in old(servers) && ep !in todo && old(servers)[ep].PingDue(clock(ep))
        decreases |todo|
      {
        var ep :| ep in todo;
        todo := todo - {ep};
        if servers[ep].PingDue(clock(ep)) {
          pinged := pinged + {ep};
          servers := servers[ep := servers[ep].(pingAt := clock(ep) + PING_INTERVAL)];
        }
      }
      assert servers == PingAll(old(servers), clock);
    }
  }

  // ------------------------------------------------------------------ what a dispatch does

  /** How many entries at the front of the queue are expired when looked at. */
  function ExpiredPrefix(servers: Servers, actives: seq<string>, clock: nat -> int, i: nat): (k: nat)
    requires Listed(servers, actives)
    ensures k <= |actives|
    ensures forall j :: 0 <= j < k ==> servers[actives[j]].IsExpiry(clock(i + j))
    ensures k < |actives| ==> !servers[actives[k]].IsExpiry(clock(i + k))
    decreases |actives|
  {
    if actives == [] || !servers[actives[0]].IsExpiry(clock(i)) then 0
    else
      var k' := ExpiredPrefix(servers, actives[1..], clock, i + 1);
      assert forall j :: 0 < j <= k' && j < |actives| ==> actives[j] == actives[1..][j - 1];
      k' + 1
  }

  /** The table with the servers of `eps` declared dead. */
  function AllDead(servers: Servers, eps: seq<string>): Servers {
    map ep | ep in servers :: if ep in eps then servers[ep].(alive := false) else servers[ep]
  }

  lemma AllDeadCons(servers: Servers, ep: string, eps: seq<string>)
    requires ep in servers
    ensures AllDead(SetDead(servers, ep), eps) == AllDead(servers, [ep] + eps)
  {
    var a, b := AllDead(SetDead(servers, ep), eps), AllDead(servers, [ep] + eps);
    assert a.Keys == b.Keys;
    forall x | x in servers ensures a[x] == b[x] {
      assert x in [ep] + eps <==> x == ep || x in eps;
    }
  }

  /** What a dispatch leaves when it pops the first `k` entries. */
  function Popped(servers: Servers, actives: seq<string>, k: nat): Dispatched
    requires k <= |actives|
  {
    Dispatched(AllDead(servers, actives[..k]), actives[k..], if k < |actives| then Some(actives[k]) else None)
  }

  lemma PoppedCons(servers: Servers, actives: seq<string>, k: nat)
    requires Listed(servers, actives) && 0 < k <= |actives|
    ensures Popped(SetDead(servers, actives[0]), actives[1..], k - 1) == Popped(servers, actives, k)
  {
    AllDeadCons(servers, actives[0], actives[1..][..k - 1]);
    SplitFirst(actives, k);
  }

  lemma PoppedNone(servers: Servers, actives: seq<string>)
    ensures Popped(servers, actives, 0).servers == servers && Popped(servers, actives, 0).actives == actives
  {
    NoneDead(servers);
    assert actives[..0] == [];
  }

  /**
    A dispatch pops exactly the longest prefix of expired entries, declares exactly those servers
    dead and leaves everything else about them alone, keeps the rest in order, and picks the first
    entry that is not expired, or nobody.
   */
  lemma {:induction false} DispatchPopsExpiredPrefix(servers: Servers, actives: seq<string>, clock: nat -> int, i: nat)
    requires Listed(servers, actives)
    ensures Dispatch(servers, actives, clock, i) == Popped(servers, actives, ExpiredPrefix(servers, actives, clock, i))
    decreases |actives|
  {
    if actives != [] && servers[actives[0]].IsExpiry(clock(i)) {
      var ep, rest := actives[0], actives[1..];
      DispatchPopsExpiredPrefix(SetDead(servers, ep), rest, clock, i + 1);
      ExpiredPrefixDead(servers, ep, rest, clock, i + 1);
      PoppedCons(servers, actives, ExpiredPrefix(servers, actives, clock, i));
    } else {
      PoppedNone(servers, actives);
    }
  }

  lemma NoneDead(servers: Servers)
    ensures AllDead(servers, []) == servers
  {
  }

  lemma SplitFirst(a: seq<string>, k: nat)
    requires 0 < k <= |a|
    ensures a[..k] == [a[0]] + a[1..][..k - 1] && a[k..] == a[1..][k - 1..]
  {
  }

  /** Declaring a server dead does not change which entries are expired. */
  lemma {:induction false} ExpiredPrefixDead(servers: Servers, ep: string, actives: seq<string>,
                                             clock: nat -> int, i: nat)
    requires Listed(servers, actives) && ep in servers
    ensures ExpiredPrefix(SetDead(servers, ep), actives, clock, i) == ExpiredPrefix(servers, actives, clock, i)
    decreases |actives|
  {
    if actives == [] {
    } else {
      ExpiredPrefixDead(servers, ep, actives[1..], clock, i + 1);
    }
  }
}
