/**
  One node of the Binary Star pair: the state machine both servers share, and the two
  classes that run it.

  `Next`, `Accepts` and `Fired` are the decision table; `Bstar` (server2) and
  `BinaryStarServer1` (server1) are the objects whose methods walk the branches and update
  their fields in place.  A clock reading is the parameter `now`, in milliseconds.
 */
module BinaryStar {
  import opened Wrappers

  const HEARTBEAT := 1000

  datatype State = Primary | Backup | Active | Passive

  datatype Event = PeerPrimary | PeerBackup | PeerActive | PeerPassive | ClientRequest | Unknown(code: int)

  /** The two programs: `Server1` is binary_star_server1, `Server2` is bstar. */
  datatype Variant = Server1 | Server2

  /** Which of the user's callbacks a step runs. */
  datatype Handler = NoHandler | ActiveHandler | PassiveHandler

  /** A peer's state travels as this number ... */
  function StateCode(s: State): int {
    match s
    case Primary => 1
    case Backup => 2
    case Active => 3
    case Passive => 4
  }

  /** ... and the receiver casts whatever number arrives to an event. */
  function EventOfCode(code: int): Event {
    if code == 1 then PeerPrimary
    else if code == 2 then PeerBackup
    else if code == 3 then PeerActive
    else if code == 4 then PeerPassive
    else if code == 5 then ClientRequest
    else Unknown(code)
  }

  function PeerEvent(s: State): Event {
    match s
    case Primary => PeerPrimary
    case Backup => PeerBackup
    case Active => PeerActive
    case Passive => PeerPassive
  }

  predicate PeerIsRestarting(e: Event) {
    e.PeerPrimary? || e.PeerBackup?
  }

  /** Does a client request make a node in state `s` take over once the peer looks dead? */
  predicate TakesOver(v: Variant, s: State) {
    s.Passive? || (s.Primary? && v.Server2?)
  }

  /** The state after event `e`; `lapsed` says that the clock is past the peer's expiry. */
  function Next(v: Variant, s: State, e: Event, lapsed: bool): State {
    if s.Primary? && e.PeerBackup? then Active
    else if s.Passive? && PeerIsRestarting(e) then Active
    else if TakesOver(v, s) && e.ClientRequest? && lapsed then Active
    else if (s.Primary? || s.Backup?) && e.PeerActive? then Passive
    else s
  }

  /** The verdict on event `e`: for a client request, whether it is answered. */
  predicate Accepts(v: Variant, s: State, e: Event, lapsed: bool) {
    if e.ClientRequest? then Next(v, s, e, lapsed).Active? || (v.Server1? && s.Primary?)
    else !(s.Active? && e.PeerActive?) && !(s.Passive? && e.PeerPassive?)
  }

  /** The callback server2 runs. */
  function Fired(s: State, e: Event, lapsed: bool): Handler {
    var s' := Next(Server2, s, e, lapsed);
    if s' == s then NoHandler
    else if s'.Passive? then PassiveHandler
    else if s.Passive? && PeerIsRestarting(e) then NoHandler
    else ActiveHandler
  }

  /** The fields that steer a node: its state and when it thinks the peer is dead. */
  datatype Fsm = Fsm(state: State, expiry: int) {
    predicate Lapsed(now: int) {
      now > expiry
    }

    /** Would a client asking now be answered? */
    predicate Answers(v: Variant, now: int) {
      Accepts(v, state, ClientRequest, Lapsed(now))
    }

    function OnClient(v: Variant, now: int): Fsm {
      Fsm(Next(v, state, ClientRequest, Lapsed(now)), expiry)
    }

    /** A message from the peer was understood; server1 ends the process when it was not. */
    predicate PeerOk(v: Variant, e: Event, now: int) {
      v.Server2? || Accepts(v, state, e, Lapsed(now))
    }

    function OnPeer(v: Variant, e: Event, now: int): Fsm {
      var expiry' := now + 3 * HEARTBEAT;
      if v.Server2? then Fsm(Next(v, state, e, now > expiry'), expiry')
      else if PeerOk(v, e, now) then Fsm(Next(v, state, e, Lapsed(now)), expiry')
      else Fsm(Next(v, state, e, Lapsed(now)), expiry)
    }
  }

  /** A freshly started node.  server1 leaves its expiry at the clock's epoch. */
  function StartFsm(v: Variant, primary: bool, now: int): Fsm {
    Fsm(if primary then Primary else Backup, if v.Server2? then now + 3 * HEARTBEAT else 0)
  }

  // ------------------------------------------------------------------ server2

  class Bstar {
    var state: State
    var event: Event
    var peerExpiry: int

    function Value(): Fsm
      reads this
    {
      Fsm(state, peerExpiry)
    }

    constructor (primary: bool)
      ensures state == if primary then Primary else Backup
    {
      state := if primary then Primary else Backup;
      event := Unknown(0);
      peerExpiry := 0;
    }

    method Start(now: int)
      modifies `peerExpiry
      ensures old(state) in {Primary, Backup} ==> Value() == StartFsm(Server2, state.Primary?, now)
    {
      UpdatePeerExpiry(now);
    }

    method UpdatePeerExpiry(now: int)
      modifies `peerExpiry
      ensures peerExpiry == now + 3 * HEARTBEAT
    {
      peerExpiry := now + HEARTBEAT * 3;
    }

    /** What a heartbeat says is what the peer will take as this node's state. */
    method SendState() returns (code: int)
      ensures EventOfCode(code) == PeerEvent(state)
    {
      code := StateCode(state);
    }

    /** A message without parts re-runs the previous event and leaves the expiry alone. */
    method RecvState(msg: Option<int>, now: int) returns (fired: Handler)
      modifies this
      ensures event == if msg.Some? then EventOfCode(msg.value) else old(event)
      ensures msg.Some? ==>
                Value() == old(Value()).OnPeer(Server2, event, now) &&
                fired == Fired(old(state), event, false)
      ensures msg.None? ==>
                peerExpiry == old(peerExpiry) &&
                state == Next(Server2, old(state), event, now > peerExpiry) &&
                fired == Fired(old(state), event, now > peerExpiry)
    {
      if msg.Some? {
        event := EventOfCode(msg.value);
        UpdatePeerExpiry(now);
      }
      var rc;
      rc, fired := Execute(now);
    }

    /** The voter's callback: a request is either answered or read and thrown away. */
    method OnClientRequest(now: int) returns (answered: bool, fired: Handler)
      modifies `state, `event
      ensures Value() == old(Value()).OnClient(Server2, now)
      ensures answered == old(Value()).Answers(Server2, now)
      ensures answered <==> state.Active?
      ensures fired == Fired(old(state), ClientRequest, now > peerExpiry)
    {
      event := ClientRequest;
      answered, fired := Execute(now);
    }

    method Execute(now: int) returns (rc: bool, fired: Handler)
      modifies `state
      ensures state == Next(Server2, old(state), event, now > peerExpiry)
      ensures rc == Accepts(Server2, old(state), event, now > peerExpiry)
      ensures fired == Fired(old(state), event, now > peerExpiry)
    {
      rc, fired := true, NoHandler;
      if state == Primary {
        if event == PeerBackup {
          state, fired := Active, ActiveHandler;
        } else if event == PeerActive {
          state, fired := Passive, PassiveHandler;
        } else if event == ClientRequest {
          if now > peerExpiry {
            state, fired := Active, ActiveHandler;
          } else {
            rc := false;
          }
        }
      } else if state == Backup {
        if event == PeerActive {
          state, fired := Passive, PassiveHandler;
        } else if event == ClientRequest {
          rc := false;
        }
      } else if state == Active {
        if event == PeerActive {
          rc := false;
        }
      } else if state == Passive {
        if event == PeerPrimary {
          state := Active;
        } else if event == PeerBackup {
          state := Active;
        } else if event == PeerPassive {
          rc := false;
        } else if event == ClientRequest {
          if now > peerExpiry {
            state := Active;
          } else {
            rc := false;
          }
          if state == Active {
            fired := ActiveHandler;
          }
        }
      }
    }
  }

  // ------------------------------------------------------------------ server1

  class BinaryStarServer1 {
    var state: State
    var event: Event
    var peerExpiry: int
    var sendStateAt: int

    function Value(): Fsm
      reads this
    {
      Fsm(state, peerExpiry)
    }

    constructor (primary: bool, now: int)
      ensures Value() == StartFsm(Server1, primary, now)
      ensures sendStateAt == now + HEARTBEAT
    {
      state := if primary then Primary else Backup;
      event := Unknown(0);
      peerExpiry := 0;
      sendStateAt := now + HEARTBEAT;
    }

    /** The timer callback publishes only when the clock is strictly past `sendStateAt`. */
    method TimerCallback(now: int) returns (code: Option<int>)
      modifies `sendStateAt
      ensures code.Some? == Publishes(old(sendStateAt), now)
      ensures code.Some? ==> EventOfCode(code.value) == PeerEvent(state)
      ensures sendStateAt == SendAtAfter(old(sendStateAt), now)
    {
      code := None;
      if now > sendStateAt {
        code := Some(StateCode(state));
        sendStateAt := now + HEARTBEAT;
      }
    }

    method FrontendCallback(now: int) returns (answered: bool)
      modifies `state, `event
      ensures Value() == old(Value()).OnClient(Server1, now)
      ensures answered == old(Value()).Answers(Server1, now)
    {
      event := ClientRequest;
      var exception := UpdateState(now);
      answered := !exception;
    }

    /** `threw` reports the runtime error that ends the process. */
    method SubscriberCallback(code: int, now: int) returns (threw: bool)
      modifies `state, `event, `peerExpiry
      ensures event == EventOfCode(code)
      ensures Value() == old(Value()).OnPeer(Server1, event, now)
      ensures threw == !old(Value()).PeerOk(Server1, event, now)
    {
      event := EventOfCode(code);
      threw := UpdateState(now);
      if threw {
        return;
      }
      peerExpiry := now + 3 * HEARTBEAT;
    }

    method UpdateState(now: int) returns (exception: bool)
      modifies `state
      ensures state == Next(Server1, old(state), event, now > peerExpiry)
      ensures exception == !Accepts(Server1, old(state), event, now > peerExpiry)
    {
      exception := false;
      match state {
        case Primary =>
          if event == PeerBackup {
            state := Active;
          } else if event == PeerActive {
            state := Passive;
          }
        case Backup =>
          if event == PeerActive {
            state := Passive;
          } else if event == ClientRequest {
            exception := true;
          }
        case Active =>
          if event == PeerActive {
            exception := true;
          }
        case Passive =>
          match event {
            case PeerPrimary => state := Active;
            case PeerBackup => state := Active;
            case PeerPassive => exception := true;
            case ClientRequest =>
              if now > peerExpiry {
                state := Active;
              } else {
                exception := true;
              }
            case _ =>
          }
      }
    }
  }

  // ------------------------------------------------------------------ one incarnation

  datatype Input = Input(event: Event, lapsed: bool)

  function Climb(s: State): nat {
    match s
    case Primary => 0
    case Backup => 0
    case Passive => 1
    case Active => 2
  }

  function FinalState(v: Variant, s: State, inputs: seq<Input>): State
    decreases |inputs|
  {
    if inputs == [] then s
    else FinalState(v, Next(v, s, inputs[0].event, inputs[0].lapsed), inputs[1..])
  }

  function Changes(v: Variant, s: State, inputs: seq<Input>): nat
    decreases |inputs|
  {
    if inputs == [] then 0
    else
      var s' := Next(v, s, inputs[0].event, inputs[0].lapsed);
      (if s' == s then 0 else 1) + Changes(v, s', inputs[1..])
  }

  /** How often callback `h` runs while server2 digests `inputs`. */
  function Firings(h: Handler, s: State, inputs: seq<Input>): nat
    decreases |inputs|
  {
    if inputs == [] then 0
    else
      var i := inputs[0];
      (if Fired(s, i.event, i.lapsed) == h then 1 else 0) +
      Firings(h, Next(Server2, s, i.event, i.lapsed), inputs[1..])
  }

  /** Within one incarnation a node only climbs, so it changes state at most twice. */
  lemma {:induction false} OnlyClimbs(v: Variant, s: State, inputs: seq<Input>)
    ensures Climb(FinalState(v, s, inputs)) >= Climb(s) + Changes(v, s, inputs)
    ensures Changes(v, s, inputs) <= 2
    ensures FinalState(v, s, inputs) == s <==> Changes(v, s, inputs) == 0
    decreases |inputs|
  {
    if inputs == [] {
    } else {
      OnlyClimbs(v, Next(v, s, inputs[0].event, inputs[0].lapsed), inputs[1..]);
    }
  }

  /** Each callback runs at most once per incarnation, and never after its state is left behind. */
  lemma {:induction false} HandlersFireAtMostOnce(s: State, inputs: seq<Input>)
    ensures Firings(ActiveHandler, s, inputs) <= if s.Active? then 0 else 1
    ensures Firings(PassiveHandler, s, inputs) <= if Climb(s) == 0 then 1 else 0
    decreases |inputs|
  {
    if inputs == [] {
    } else {
      HandlersFireAtMostOnce(Next(Server2, s, inputs[0].event, inputs[0].lapsed), inputs[1..]);
    }
  }

  /** The input at which a Passive node took over because its peer announced a restart, if any. */
  predicate SilentTakeover(s: State, inputs: seq<Input>)
    decreases |inputs|
  {
    inputs != [] &&
    ((s.Passive? && PeerIsRestarting(inputs[0].event)) ||
     SilentTakeover(Next(Server2, s, inputs[0].event, inputs[0].lapsed), inputs[1..]))
  }

  /**
    The callback for becoming active is NOT run on every takeover: a node that ends up Active
    ran it exactly when no restarting peer pushed it there.
   */
  lemma {:induction false} ActiveHandlerSkipped(s: State, inputs: seq<Input>)
    requires !s.Active? && FinalState(Server2, s, inputs).Active?
    ensures Firings(ActiveHandler, s, inputs) == 0 <==> SilentTakeover(s, inputs)
    decreases |inputs|
  {
    if inputs == [] {
    } else {
      var s' := Next(Server2, s, inputs[0].event, inputs[0].lapsed);
      if s'.Active? {
        HandlersFireAtMostOnce(s', inputs[1..]);
        ActiveStaysPut(s', inputs[1..]);
      } else {
        ActiveHandlerSkipped(s', inputs[1..]);
      }
    }
  }

  lemma {:induction false} ActiveStaysPut(s: State, inputs: seq<Input>)
    requires s.Active?
    ensures !SilentTakeover(s, inputs)
    decreases |inputs|
  {
    if inputs == [] {
    } else {
      ActiveStaysPut(Next(Server2, s, inputs[0].event, inputs[0].lapsed), inputs[1..]);
    }
  }

  /** Somewhere among `inputs` the node changes to `target`. */
  predicate Enters(target: State, s: State, inputs: seq<Input>)
    decreases |inputs|
  {
    inputs != [] &&
    var s' := Next(Server2, s, inputs[0].event, inputs[0].lapsed);
    ((s' == target && s != target) || Enters(target, s', inputs[1..]))
  }

  /** An Active node changes no more. */
  lemma {:induction false} ActiveEntersNothing(target: State, inputs: seq<Input>)
    ensures !Enters(target, Active, inputs)
  {
    if inputs == [] {
    } else {
      ActiveEntersNothing(target, inputs[1..]);
    }
  }

  /**
    The callbacks run exactly when they should, but for the silent takeover: once if the node becomes
    Passive, once if it becomes Active other than because its peer announced a restart.
   */
  lemma {:induction false} HandlersFireExactly(s: State, inputs: seq<Input>)
    ensures Firings(PassiveHandler, s, inputs) == if Enters(Passive, s, inputs) then 1 else 0
    ensures Firings(ActiveHandler, s, inputs) ==
            if Enters(Active, s, inputs) && !SilentTakeover(s, inputs) then 1 else 0
    decreases |inputs|
  {
    if inputs == [] {
    } else {
      var s' := Next(Server2, s, inputs[0].event, inputs[0].lapsed);
      HandlersFireExactly(s', inputs[1..]);
      if s'.Active? {
        ActiveEntersNothing(Passive, inputs[1..]);
        ActiveEntersNothing(Active, inputs[1..]);
        ActiveStaysPut(s', inputs[1..]);
      } else if s'.Passive? && s != s' {
        PassiveEntersOnce(inputs[1..]);
      }
    }
  }

  lemma {:induction false} PassiveEntersOnce(inputs: seq<Input>)
    ensures !Enters(Passive, Passive, inputs)
  {
    if inputs == [] {
    } else {
      var s' := Next(Server2, Passive, inputs[0].event, inputs[0].lapsed);
      if s'.Active? {
        ActiveEntersNothing(Passive, inputs[1..]);
      } else {
        PassiveEntersOnce(inputs[1..]);
      }
    }
  }

  // ------------------------------------------------------------------ server1's timer

  predicate Publishes(sendAt: int, now: int) {
    now > sendAt
  }

  function SendAtAfter(sendAt: int, now: int): int {
    if Publishes(sendAt, now) then now + HEARTBEAT else sendAt
  }

  /** The times at which a timer firing at `ticks` publishes. */
  function PublishTimes(sendAt: int, ticks: seq<int>): seq<int>
    decreases |ticks|
  {
    if ticks == [] then []
    else (if Publishes(sendAt, ticks[0]) then [ticks[0]] else []) +
         PublishTimes(SendAtAfter(sendAt, ticks[0]), ticks[1..])
  }

  /** Consecutive times, starting from `from`, never lie more than `gap` apart. */
  predicate Spaced(from: int, times: seq<int>, gap: int)
    decreases |times|
  {
    times == [] || (from <= times[0] <= from + gap && Spaced(times[0], times[1..], gap))
  }

  function LastOf(from: int, times: seq<int>): int {
    if times == [] then from else times[|times| - 1]
  }

  /**
    If the timer fires at least every HEARTBEAT, publications are at most two HEARTBEATs apart,
    and at any firing the last publication is no older than that.
   */
  lemma {:induction false} PublishesWithinTwoPeriods(last: int, tick: int, ticks: seq<int>)
    requires last <= tick <= last + HEARTBEAT
    requires Spaced(tick, ticks, HEARTBEAT)
    ensures Spaced(last, PublishTimes(last + HEARTBEAT, ticks), 2 * HEARTBEAT)
    ensures LastOf(tick, ticks) <= LastOf(last, PublishTimes(last + HEARTBEAT, ticks)) + HEARTBEAT
    decreases |ticks|
  {
    if ticks == [] {
    } else {
      var t := ticks[0];
      if Publishes(last + HEARTBEAT, t) {
        PublishesWithinTwoPeriods(t, t, ticks[1..]);
        assert PublishTimes(last + HEARTBEAT, ticks) == [t] + PublishTimes(t + HEARTBEAT, ticks[1..]);
      } else {
        PublishesWithinTwoPeriods(last, t, ticks[1..]);
        assert PublishTimes(last + HEARTBEAT, ticks) == PublishTimes(last + HEARTBEAT, ticks[1..]);
      }
    }
  }

  function ExactTicks(start: int, n: nat): seq<int>
    decreases n
  {
    if n == 0 then [] else [start + HEARTBEAT] + ExactTicks(start + HEARTBEAT, n - 1)
  }

  function ExactPublications(start: int, n: nat): seq<int>
    decreases n
  {
    if n < 2 then [] else [start + 2 * HEARTBEAT] + ExactPublications(start + 2 * HEARTBEAT, n - 2)
  }

  /** A timer that fires exactly every HEARTBEAT really publishes only every second time. */
  lemma {:induction false} ExactTimerPublishesEverySecondTick(start: int, n: nat)
    ensures PublishTimes(start + HEARTBEAT, ExactTicks(start, n)) == ExactPublications(start, n)
    decreases n
  {
    if n < 2 {
    } else {
      ExactTimerPublishesEverySecondTick(start + 2 * HEARTBEAT, n - 2);
      var ticks := ExactTicks(start, n);
      assert ticks[1..] == ExactTicks(start + HEARTBEAT, n - 1);
      assert ticks[1..][1..] == ExactTicks(start + 2 * HEARTBEAT, n - 2);
      assert ticks[1..][0] == start + 2 * HEARTBEAT;
      assert PublishTimes(start + HEARTBEAT, ticks) == PublishTimes(start + HEARTBEAT, ticks[1..]);
    }
  }
}
