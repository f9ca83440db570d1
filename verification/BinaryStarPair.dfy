/**
  Two Binary Star nodes that exchange their states, as a timed transition system.

  A run is any interleaving of publications, deliveries, client requests, crashes, restarts
  and the passing of time.  Every statement is generic in the server program and in the two
  promises made about the environment: a node that is up publishes at least every `period`,
  and a message arrives within `delay`.
 */
module BinaryStarPair {
  import opened Wrappers
  import opened BinaryStar

  datatype Side = PrimarySide | BackupSide

  function Peer(x: Side): Side {
    if x.PrimarySide? then BackupSide else PrimarySide
  }

  function StartState(x: Side): State {
    if x.PrimarySide? then Primary else Backup
  }

  datatype Net = Net(variant: Variant, period: nat, delay: nat) {
    /** News from a live peer always arrives before the peer looks dead. */
    predicate Prompt() {
      period + delay <= 3 * HEARTBEAT
    }
  }

  /** `sendBy` is the latest time of the node's next publication. */
  datatype Node = Node(up: bool, fsm: Fsm, sendBy: int)

  /** A published state and the latest time of its arrival. */
  datatype Message = Message(state: State, due: int)

  datatype Pair = Pair(now: int, primary: Node, backup: Node, toPrimary: seq<Message>, toBackup: seq<Message>) {
    function At(x: Side): Node {
      if x.PrimarySide? then primary else backup
    }

    /** The messages under way to `x`, oldest first. */
    function In(x: Side): seq<Message> {
      if x.PrimarySide? then toPrimary else toBackup
    }

    function State(x: Side): State {
      At(x).fsm.state
    }

    function WithNode(x: Side, n: Node): Pair {
      if x.PrimarySide? then this.(primary := n) else this.(backup := n)
    }

    function WithIn(x: Side, q: seq<Message>): Pair {
      if x.PrimarySide? then this.(toPrimary := q) else this.(toBackup := q)
    }

    predicate BothUp() {
      primary.up && backup.up
    }

    predicate BothIn(s: State) {
      BothUp() && State(PrimarySide) == s && State(BackupSide) == s
    }

    /** Would a client asking `x` now be answered? */
    predicate Answers(v: Variant, x: Side) {
      At(x).up && At(x).fsm.Answers(v, now)
    }
  }

  /**
    `Crash` takes a node down; messages under way may survive it or be lost with it (`flush`).
    `Restart` begins a new incarnation, and no message crosses from one incarnation to another.
    `Deliver(x, i)` hands `x` the `i`-th oldest message under way to it; a node that is down
    receives nothing.  server1 ends its process on a state message it cannot accept.
   */
  datatype Step =
    | Publish(x: Side)
    | Deliver(x: Side, i: nat)
    | Client(x: Side)
    | Crash(x: Side, flush: bool)
    | Restart(x: Side)
    | Tick(d: nat)
    | Lose(x: Side, i: nat)

  /** Steps of a network that may delay, reorder and lose messages as it likes. */
  predicate Possible(s: Pair, step: Step) {
    match step
    case Publish(x) => s.At(x).up
    case Deliver(x, i) => i < |s.In(x)|
    case Client(x) => s.At(x).up
    case Crash(x, _) => s.At(x).up
    case Restart(x) => !s.At(x).up
    case Tick(_) => true
    case Lose(x, i) => i < |s.In(x)|
  }

  /** No publication and no delivery may be overdue at time `t`. */
  predicate InTime(s: Pair, t: int) {
    && (s.primary.up ==> t <= s.primary.sendBy)
    && (s.backup.up ==> t <= s.backup.sendBy)
    && NothingDueBefore(s.toPrimary, t)
    && NothingDueBefore(s.toBackup, t)
  }

  predicate NothingDueBefore(q: seq<Message>, t: int) {
    forall i :: 0 <= i < |q| ==> t <= q[i].due
  }

  /** Nothing overdue, nothing lost; the order of delivery is left open. */
  predicate NeverLate(s: Pair, step: Step) {
    Possible(s, step) && (step.Tick? ==> InTime(s, s.now + step.d)) && !step.Lose?
  }

  /** Steps of a network that keeps its promises: in order, in time, nothing lost. */
  predicate Timely(s: Pair, step: Step) {
    NeverLate(s, step) && (step.Deliver? ==> step.i == 0)
  }

  /** The programs publish when their timer says so: exactly `period` after the last time. */
  predicate OnSchedule(s: Pair, step: Step) {
    step.Publish? ==> s.now == s.At(step.x).sendBy
  }

  function Receive(net: Net, n: Node, m: Message, now: int): Node {
    if !n.up then n
    else Node(n.fsm.PeerOk(net.variant, PeerEvent(m.state), now),
              n.fsm.OnPeer(net.variant, PeerEvent(m.state), now), n.sendBy)
  }

  function Apply(net: Net, s: Pair, step: Step): Pair
    requires Possible(s, step)
  {
    match step
    case Publish(x) =>
      var y := Peer(x);
      s.WithNode(x, s.At(x).(sendBy := s.now + net.period))
      .WithIn(y, s.In(y) + [Message(s.State(x), s.now + net.delay)])
    case Deliver(x, i) =>
      s.WithNode(x, Receive(net, s.At(x), s.In(x)[i], s.now)).WithIn(x, Without(s.In(x), i))
    case Client(x) =>
      s.WithNode(x, s.At(x).(fsm := s.At(x).fsm.OnClient(net.variant, s.now)))
    case Crash(x, flush) =>
      var t := s.WithNode(x, s.At(x).(up := false));
      if flush then t.(toPrimary := [], toBackup := []) else t
    case Restart(x) =>
      s.WithNode(x, Node(true, StartFsm(net.variant, x.PrimarySide?, s.now), s.now + net.period))
      .(toPrimary := [], toBackup := [])
    case Tick(d) => s.(now := s.now + d)
    case Lose(x, i) => s.WithIn(x, Without(s.In(x), i))
  }

  /** Both nodes down, nothing under way. */
  predicate Initial(s: Pair) {
    !s.primary.up && !s.backup.up && s.toPrimary == [] && s.toBackup == []
  }

  predicate PossibleRun(net: Net, s: Pair, steps: seq<Step>)
    decreases |steps|
  {
    steps == [] || (Possible(s, steps[0]) && PossibleRun(net, Apply(net, s, steps[0]), steps[1..]))
  }

  predicate TimelyRun(net: Net, s: Pair, steps: seq<Step>)
    decreases |steps|
  {
    steps == [] || (Timely(s, steps[0]) && TimelyRun(net, Apply(net, s, steps[0]), steps[1..]))
  }

  /** A timely run whose nodes publish on schedule. */
  predicate PacedRun(net: Net, s: Pair, steps: seq<Step>)
    decreases |steps|
  {
    steps == [] ||
    (Timely(s, steps[0]) && OnSchedule(s, steps[0]) && PacedRun(net, Apply(net, s, steps[0]), steps[1..]))
  }

  /** The same with messages that may overtake one another. */
  predicate UnorderedRun(net: Net, s: Pair, steps: seq<Step>)
    decreases |steps|
  {
    steps == [] ||
    (NeverLate(s, steps[0]) && OnSchedule(s, steps[0]) && UnorderedRun(net, Apply(net, s, steps[0]), steps[1..]))
  }

  function Final(net: Net, s: Pair, steps: seq<Step>): Pair
    requires PossibleRun(net, s, steps)
    decreases |steps|
  {
    if steps == [] then s else Final(net, Apply(net, s, steps[0]), steps[1..])
  }

  lemma {:induction false} TimelyIsPossible(net: Net, s: Pair, steps: seq<Step>)
    requires TimelyRun(net, s, steps)
    ensures PossibleRun(net, s, steps)
    decreases |steps|
  {
    if steps == [] {
    } else {
      TimelyIsPossible(net, Apply(net, s, steps[0]), steps[1..]);
    }
  }

  lemma {:induction false} PacedIsTimely(net: Net, s: Pair, steps: seq<Step>)
    requires PacedRun(net, s, steps)
    ensures PossibleRun(net, s, steps) && TimelyRun(net, s, steps) && UnorderedRun(net, s, steps)
    decreases |steps|
  {
    if steps == [] {
    } else {
      PacedIsTimely(net, Apply(net, s, steps[0]), steps[1..]);
    }
  }

  lemma {:induction false} UnorderedIsPossible(net: Net, s: Pair, steps: seq<Step>)
    requires UnorderedRun(net, s, steps)
    ensures PossibleRun(net, s, steps)
    decreases |steps|
  {
    if steps == [] {
    } else {
      UnorderedIsPossible(net, Apply(net, s, steps[0]), steps[1..]);
    }
  }

  // ------------------------------------------------------------------ never both Passive

  /** A message saying Active was sent by a node that is still Active, or is down. */
  predicate ActiveNewsIsFresh(s: Pair) {
    && (HasActiveNews(s.toPrimary) && s.backup.up ==> s.backup.fsm.state.Active?)
    && (HasActiveNews(s.toBackup) && s.primary.up ==> s.primary.fsm.state.Active?)
  }

  predicate NotBothPassive(s: Pair) {
    !s.BothIn(Passive)
  }

  predicate HasActiveNews(q: seq<Message>) {
    exists i :: 0 <= i < |q| && q[i].state.Active?
  }

  lemma NoNewsByRemoval(q: seq<Message>, i: nat)
    requires i < |q|
    ensures HasActiveNews(Without(q, i)) ==> HasActiveNews(q)
  {
    var r := Without(q, i);
    if HasActiveNews(r) {
      var j :| 0 <= j < |r| && r[j].state.Active?;
      assert q[if j < i then j else j + 1] == r[j];
    }
  }

  lemma NewsByAppending(q: seq<Message>, m: Message)
    ensures HasActiveNews(q + [m]) <==> HasActiveNews(q) || m.state.Active?
  {
    var r := q + [m];
    assert forall i :: 0 <= i < |q| ==> r[i] == q[i];
    assert r[|q|] == m;
  }

  lemma PassiveStep(net: Net, s: Pair, step: Step)
    requires Possible(s, step)
    requires ActiveNewsIsFresh(s) && NotBothPassive(s)
    ensures ActiveNewsIsFresh(Apply(net, s, step)) && NotBothPassive(Apply(net, s, step))
  {
    match step
    case Publish(x) => NewsByAppending(s.In(Peer(x)), Message(s.State(x), s.now + net.delay));
    case Deliver(x, i) =>
      NoNewsByRemoval(s.In(x), i);
      assert s.In(x)[i].state.Active? ==> HasActiveNews(s.In(x));
    case Lose(x, i) => NoNewsByRemoval(s.In(x), i);
    case _ =>
  }

  /**
    Whatever is delayed, reordered or lost, the two nodes are never both Passive, as long as no
    message outlives an incarnation.
   */
  lemma {:induction false} NeverBothPassive(net: Net, s: Pair, steps: seq<Step>)
    requires Initial(s) || (ActiveNewsIsFresh(s) && NotBothPassive(s))
    requires PossibleRun(net, s, steps)
    ensures NotBothPassive(Final(net, s, steps))
    decreases |steps|
  {
    if steps == [] {
    } else {
      PassiveStep(net, s, steps[0]);
      NeverBothPassive(net, Apply(net, s, steps[0]), steps[1..]);
    }
  }

  // ------------------------------------------------------------------ the joint invariant

  predicate Only(q: seq<Message>, allowed: set<State>) {
    forall i :: 0 <= i < |q| ==> q[i].state in allowed
  }

  predicate ActiveLast(q: seq<Message>) {
    forall i, j :: 0 <= i < j < |q| && q[i].state.Active? ==> q[j].state.Active?
  }

  /**
    What may be under way to a node in state `mine` from a peer in state `theirs`, when both are
    up; `start` is the state the peer began in.
   */
  predicate Content(mine: State, theirs: State, q: seq<Message>, start: State) {
    match theirs
    case Primary => Only(q, {start})
    case Backup => Only(q, {start})
    case Active =>
      !mine.Active? && ActiveLast(q) &&
      Only(q, if mine.Passive? then {Active} else if mine.Primary? then {Passive, Active} else {start, Passive, Active})
    case Passive => !mine.Passive? && Only(q, if mine.Active? then {start, Passive} else {Passive})
  }

  /** The latest time at which `x` next hears from its peer. */
  function NextNews(net: Net, s: Pair, x: Side): int {
    if s.In(x) == [] then s.At(Peer(x)).sendBy + net.delay else s.In(x)[0].due
  }

  /** `x` hears from its peer before the peer looks dead. */
  predicate Covered(net: Net, s: Pair, x: Side) {
    NextNews(net, s, x) <= s.At(x).fsm.expiry
  }

  /** A takeover from state `mine` would be wrong: the peer is Active, or about to be. */
  predicate MustNotTakeOver(v: Variant, mine: State, theirs: State) {
    TakesOver(v, mine) && (theirs.Active? || (theirs.Passive? && mine.Primary?))
  }

  predicate DueWithin(q: seq<Message>, lo: int, hi: int) {
    forall i :: 0 <= i < |q| ==> lo <= q[i].due <= hi
  }

  /** Deadlines lie between now and the promised bounds, and no node is in its peer's start state. */
  predicate InRange(net: Net, s: Pair, x: Side) {
    && (s.At(x).up ==>
      s.now <= s.At(x).sendBy <= s.now + net.period && s.State(x) in {StartState(x), Active, Passive})
    && DueWithin(s.In(x), s.now, s.now + net.delay)
  }

  predicate Half(net: Net, s: Pair, x: Side) {
    && Content(s.State(x), s.State(Peer(x)), s.In(x), StartState(Peer(x)))
    && (MustNotTakeOver(net.variant, s.State(x), s.State(Peer(x))) ==> Covered(net, s, x))
  }

  predicate Inv(net: Net, s: Pair) {
    InRange(net, s, PrimarySide) && InRange(net, s, BackupSide) &&
    (s.BothUp() ==> Half(net, s, PrimarySide) && Half(net, s, BackupSide))
  }

  lemma ContentAfterPublish(mine: State, theirs: State, q: seq<Message>, start: State, due: int)
    requires theirs in {start, Active, Passive} && (start.Primary? || start.Backup?)
    requires Content(mine, theirs, q, start)
    ensures Content(mine, theirs, q + [Message(theirs, due)], start)
  {
  }

  lemma PublishRange(net: Net, s: Pair, x: Side)
    requires InRange(net, s, x) && InRange(net, s, Peer(x)) && s.At(x).up
    ensures var t := Apply(net, s, Publish(x));
            InRange(net, t, x) && InRange(net, t, Peer(x))
  {
  }

  /** The publisher knows what it knew; its peer hears no later than it would have. */
  lemma PublishNews(net: Net, s: Pair, x: Side)
    requires InRange(net, s, x) && s.At(x).up
    ensures var t := Apply(net, s, Publish(x));
            && t.In(x) == s.In(x) && t.In(Peer(x)) == s.In(Peer(x)) + [Message(s.State(x), s.now + net.delay)]
            && t.At(Peer(x)) == s.At(Peer(x)) && t.At(x).fsm == s.At(x).fsm
            && NextNews(net, t, Peer(x)) <= NextNews(net, s, Peer(x)) && NextNews(net, t, x) == NextNews(net, s, x)
  {
  }

  lemma InvPublish(net: Net, s: Pair, x: Side)
    requires Inv(net, s) && s.At(x).up
    ensures Inv(net, Apply(net, s, Publish(x)))
  {
    var t := Apply(net, s, Publish(x));
    var y := Peer(x);
    PublishRange(net, s, x);
    if s.BothUp() {
      PublishNews(net, s, x);
      assert Half(net, s, x) && Half(net, s, y);
      ContentAfterPublish(s.State(y), s.State(x), s.In(y), StartState(x), s.now + net.delay);
      assert Half(net, t, x) && Half(net, t, y);
    }
  }

  /** Both directions stay well-formed when the oldest message under way to `mine` arrives. */
  lemma ContentAfterDelivery(v: Variant, mine: State, theirs: State, x: Side, q: seq<Message>, back: seq<Message>)
    requires mine in {StartState(x), Active, Passive} && theirs in {StartState(Peer(x)), Active, Passive}
    requires q != []
    requires Content(mine, theirs, q, StartState(Peer(x))) && Content(theirs, mine, back, StartState(x))
    ensures var mine' := Next(v, mine, PeerEvent(q[0].state), false);
            && Content(mine', theirs, q[1..], StartState(Peer(x)))
            && Content(theirs, mine', back, StartState(x))
            && (MustNotTakeOver(v, theirs, mine') ==> MustNotTakeOver(v, theirs, mine))
  {
    assert forall allowed {:trigger Only(q, allowed)} :: Only(q, allowed) ==> Only(q[1..], allowed);
    if theirs.Active? {
      assert ActiveLast(q[1..]);
      if q[0].state.Active? {
        assert Only(q[1..], {Active});
      }
    }
  }

  /** When `x` hears from its live peer, the next news is covered as well. */
  lemma CoveredAfterDelivery(net: Net, s: Pair, x: Side)
    requires net.Prompt() && Inv(net, s) && s.In(x) != []
    requires var t := Apply(net, s, Deliver(x, 0)); t.BothUp()
    ensures Covered(net, Apply(net, s, Deliver(x, 0)), x)
  {
    var t := Apply(net, s, Deliver(x, 0));
    assert t.In(x) == s.In(x)[1..];
    assert t.At(Peer(x)) == s.At(Peer(x));
  }

  /** A delivery leaves everything about the peer as it is. */
  lemma DeliveryShape(net: Net, s: Pair, x: Side)
    requires s.In(x) != []
    ensures var t := Apply(net, s, Deliver(x, 0));
            var y := Peer(x);
            && t.In(x) == s.In(x)[1..] && t.In(y) == s.In(y) && t.At(y) == s.At(y) && t.now == s.now
            && t.At(x) == Receive(net, s.At(x), s.In(x)[0], s.now)
  {
    assert Without(s.In(x), 0) == s.In(x)[1..];
  }

  lemma ReceiveState(net: Net, n: Node, m: Message, now: int)
    requires n.up
    ensures var n' := Receive(net, n, m, now);
            n'.fsm.state == Next(net.variant, n.fsm.state, PeerEvent(m.state), false) && n'.sendBy == n.sendBy
  {
  }

  lemma DueLater(q: seq<Message>, lo: int, hi: int)
    requires DueWithin(q, lo, hi) && q != []
    ensures DueWithin(q[1..], lo, hi)
  {
  }

  lemma DeliveryFrame(net: Net, s: Pair, x: Side)
    requires Inv(net, s) && s.In(x) != []
    ensures var t := Apply(net, s, Deliver(x, 0));
            var y := Peer(x);
            && t.In(x) == s.In(x)[1..] && t.In(y) == s.In(y) && t.At(y) == s.At(y) && t.now == s.now
            && t.At(x).sendBy == s.At(x).sendBy
            && InRange(net, t, x) && InRange(net, t, y)
            && NextNews(net, t, y) == NextNews(net, s, y)
            && (t.BothUp() ==> t.State(x) == Next(net.variant, s.State(x), PeerEvent(s.In(x)[0].state), false))
  {
    DeliveryShape(net, s, x);
    DueLater(s.In(x), s.now, s.now + net.delay);
    if s.At(x).up {
      ReceiveState(net, s.At(x), s.In(x)[0], s.now);
    }
  }

  lemma InvDeliver(net: Net, s: Pair, x: Side)
    requires net.Prompt() && Inv(net, s) && s.In(x) != []
    ensures Inv(net, Apply(net, s, Deliver(x, 0)))
  {
    var t := Apply(net, s, Deliver(x, 0));
    DeliveryFrame(net, s, x);
    if t.BothUp() {
      ContentAfterDelivery(net.variant, s.State(x), s.State(Peer(x)), x, s.In(x), s.In(Peer(x)));
      CoveredAfterDelivery(net, s, x);
    }
  }

  lemma InvClient(net: Net, s: Pair, x: Side)
    requires Inv(net, s) && s.At(x).up
    ensures Inv(net, Apply(net, s, Client(x)))
  {
  }

  lemma InvRestart(net: Net, s: Pair, x: Side)
    requires net.Prompt() && Inv(net, s) && !s.At(x).up
    ensures Inv(net, Apply(net, s, Restart(x)))
  {
  }

  lemma InvCrash(net: Net, s: Pair, x: Side, flush: bool)
    requires Inv(net, s) && s.At(x).up
    ensures Inv(net, Apply(net, s, Crash(x, flush)))
  {
  }

  lemma InvTick(net: Net, s: Pair, d: nat)
    requires Inv(net, s) && Timely(s, Tick(d))
    ensures Inv(net, Apply(net, s, Tick(d)))
  {
  }

  lemma InvStep(net: Net, s: Pair, step: Step)
    requires net.Prompt() && Inv(net, s) && Timely(s, step)
    ensures Inv(net, Apply(net, s, step))
  {
    match step
    case Publish(x) => InvPublish(net, s, x);
    case Deliver(x, _) => InvDeliver(net, s, x);
    case Client(x) => InvClient(net, s, x);
    case Restart(x) => InvRestart(net, s, x);
    case Crash(x, flush) => InvCrash(net, s, x, flush);
    case Tick(d) => InvTick(net, s, d);
  }

  lemma {:induction false} InvRun(net: Net, s: Pair, steps: seq<Step>)
    requires net.Prompt() && Inv(net, s) && TimelyRun(net, s, steps)
    ensures PossibleRun(net, s, steps) && Inv(net, Final(net, s, steps))
    decreases |steps|
  {
    if steps == [] {
    } else {
      InvStep(net, s, steps[0]);
      InvRun(net, Apply(net, s, steps[0]), steps[1..]);
    }
  }

  // ------------------------------------------------------------------ safety

  predicate NotBothActive(s: Pair) {
    !s.BothIn(Active)
  }

  /** A prompt network never shows two Active nodes, whatever crashes, restarts or clients do. */
  lemma NeverBothActive(net: Net, s: Pair, steps: seq<Step>)
    requires net.Prompt() && Initial(s) && TimelyRun(net, s, steps)
    ensures PossibleRun(net, s, steps) && NotBothActive(Final(net, s, steps))
  {
    InvRun(net, s, steps);
  }

  /** With server2, at most one of the two nodes would answer a client at any moment. */
  lemma AtMostOneAnswers(net: Net, s: Pair, steps: seq<Step>)
    requires net.variant.Server2? && net.Prompt() && Initial(s) && TimelyRun(net, s, steps)
    ensures PossibleRun(net, s, steps)
    ensures var t := Final(net, s, steps);
            !(t.Answers(net.variant, PrimarySide) && t.Answers(net.variant, BackupSide))
  {
    InvRun(net, s, steps);
    var t := Final(net, s, steps);
    if t.BothUp() {
      NoLapseWhenWrong(net, t, PrimarySide);
      NoLapseWhenWrong(net, t, BackupSide);
    }
  }

  /** Where a takeover would be wrong, the peer's expiry has not lapsed. */
  lemma NoLapseWhenWrong(net: Net, s: Pair, x: Side)
    requires Inv(net, s) && s.BothUp()
    ensures MustNotTakeOver(net.variant, s.State(x), s.State(Peer(x))) ==> !s.At(x).fsm.Lapsed(s.now)
  {
    if s.In(x) != [] {
      assert s.now <= s.In(x)[0].due;
    }
  }

  /**
    With server1 both may answer, but only while the primary side has not yet heard of its peer:
    it is in state Primary and the other is Active, or Passive and about to take over.
   */
  lemma BothAnswerOnlyWhilePrimaryWaits(net: Net, s: Pair, steps: seq<Step>)
    requires net.variant.Server1? && net.Prompt() && Initial(s) && TimelyRun(net, s, steps)
    ensures PossibleRun(net, s, steps)
    ensures var t := Final(net, s, steps);
            t.Answers(net.variant, PrimarySide) && t.Answers(net.variant, BackupSide) <==>
            t.BothUp() && t.State(PrimarySide).Primary? &&
            (t.State(BackupSide).Active? ||
             (t.State(BackupSide).Passive? && t.At(BackupSide).fsm.Lapsed(t.now)))
  {
    InvRun(net, s, steps);
    var t := Final(net, s, steps);
    if t.BothUp() {
      NoLapseWhenWrong(net, t, PrimarySide);
      NoLapseWhenWrong(net, t, BackupSide);
    }
  }

  /** No delivery ever meets the branches that report two actives or two passives. */
  lemma EveryDeliveryIsAccepted(net: Net, s: Pair, steps: seq<Step>, x: Side)
    requires net.Prompt() && Initial(s) && TimelyRun(net, s, steps)
    ensures PossibleRun(net, s, steps)
    ensures var t := Final(net, s, steps);
            t.BothUp() && t.In(x) != [] ==>
              Accepts(net.variant, t.State(x), PeerEvent(t.In(x)[0].state), t.At(x).fsm.Lapsed(t.now))
  {
    InvRun(net, s, steps);
  }

  // ------------------------------------------------------------------ the bound is exact

  lemma PacedCons(net: Net, s: Pair, step: Step, rest: seq<Step>)
    requires Timely(s, step) && OnSchedule(s, step) && PacedRun(net, Apply(net, s, step), rest)
    ensures PacedRun(net, s, [step] + rest)
    ensures PossibleRun(net, s, [step] + rest) && PossibleRun(net, Apply(net, s, step), rest)
    ensures Final(net, s, [step] + rest) == Final(net, Apply(net, s, step), rest)
  {
    assert ([step] + rest)[1..] == rest;
    PacedIsTimely(net, Apply(net, s, step), rest);
  }

  lemma {:induction false} PacedAppend(net: Net, s: Pair, a: seq<Step>, b: seq<Step>)
    requires PacedRun(net, s, a) && PossibleRun(net, s, a)
    requires PacedRun(net, Final(net, s, a), b) && PossibleRun(net, Final(net, s, a), b)
    ensures PacedRun(net, s, a + b) && PossibleRun(net, s, a + b)
    ensures Final(net, s, a + b) == Final(net, Final(net, s, a), b)
    decreases |a|
  {
    if a == [] {
      assert a + b == b;
    } else {
      PacedAppend(net, Apply(net, s, a[0]), a[1..], b);
      PacedCons(net, s, a[0], a[1..] + b);
      assert [a[0]] + (a[1..] + b) == a + b;
    }
  }

  const COLD := Pair(0, Node(false, Fsm(Primary, 0), 0), Node(false, Fsm(Backup, 0), 0), [], [])

  /** Both nodes started at time 0, and nothing happened until their first publication is due. */
  function FirstRound(net: Net): (s: Pair)
    ensures s.primary == Node(true, StartFsm(net.variant, true, 0), net.period)
    ensures s.backup == Node(true, StartFsm(net.variant, false, 0), net.period)
    ensures s.now == net.period && s.toPrimary == [] && s.toBackup == []
  {
    Apply(net, Apply(net, Apply(net, COLD, Restart(PrimarySide)), Restart(BackupSide)), Tick(net.period))
  }

  /** A run from the first round, with the start of both nodes in front. */
  lemma FromCold(net: Net, rest: seq<Step>) returns (steps: seq<Step>)
    requires PacedRun(net, FirstRound(net), rest) && PossibleRun(net, FirstRound(net), rest)
    ensures PacedRun(net, COLD, steps) && PossibleRun(net, COLD, steps)
    ensures Final(net, COLD, steps) == Final(net, FirstRound(net), rest)
  {
    var s1 := Apply(net, COLD, Restart(PrimarySide));
    var s2 := Apply(net, s1, Restart(BackupSide));
    PacedCons(net, s2, Tick(net.period), rest);
    steps := [Tick(net.period)] + rest;
    PacedCons(net, s1, Restart(BackupSide), steps);
    steps := [Restart(BackupSide)] + steps;
    PacedCons(net, COLD, Restart(PrimarySide), steps);
    steps := [Restart(PrimarySide)] + steps;
  }

  /** When the expiry of a backup that heard from its peer in the first round has lapsed. */
  function FirstLapse(net: Net): int {
    net.period + 3 * HEARTBEAT + 1
  }

  /**
    An Active primary and a Passive backup that heard of it in the first round; all that was sent
    since may stay under way until the backup's expiry has lapsed.
   */
  predicate Starving(net: Net, s: Pair) {
    && s.BothUp() && s.State(PrimarySide).Active? && s.State(BackupSide).Passive?
    && s.backup.fsm.expiry == FirstLapse(net) - 1 && s.now <= FirstLapse(net)
    && s.primary.sendBy == s.backup.sendBy && s.now <= s.primary.sendBy && 2 * net.period <= s.primary.sendBy
    && NothingDueBefore(s.toPrimary, FirstLapse(net)) && NothingDueBefore(s.toBackup, FirstLapse(net))
  }

  /** Both nodes go on publishing, on schedule, until the expiry has lapsed. */
  lemma {:induction false} Starve(net: Net, s: Pair) returns (steps: seq<Step>)
    requires Starving(net, s) && net.period >= 1 && !net.Prompt()
    ensures PacedRun(net, s, steps) && PossibleRun(net, s, steps)
    ensures Starving(net, Final(net, s, steps)) && Final(net, s, steps).now == FirstLapse(net)
    decreases FirstLapse(net) - s.primary.sendBy
  {
    if s.primary.sendBy >= FirstLapse(net) {
      var wait := Tick(FirstLapse(net) - s.now);
      PacedCons(net, s, wait, []);
      steps := [wait] + [];
    } else {
      var wait := Tick(s.primary.sendBy - s.now);
      var s1 := Apply(net, s, wait);
      var s2 := Apply(net, s1, Publish(PrimarySide));
      var s3 := Apply(net, s2, Publish(BackupSide));
      steps := Starve(net, s3);
      PacedCons(net, s2, Publish(BackupSide), steps);
      steps := [Publish(BackupSide)] + steps;
      PacedCons(net, s1, Publish(PrimarySide), steps);
      steps := [Publish(PrimarySide)] + steps;
      PacedCons(net, s, wait, steps);
      steps := [wait] + steps;
    }
  }

  /** The first round over a fast network: the primary is Active, and the backup knows. */
  lemma FirstRoundStarves(net: Net) returns (steps: seq<Step>)
    requires net.period >= 1
    ensures PacedRun(net, FirstRound(net), steps) && PossibleRun(net, FirstRound(net), steps)
    ensures Starving(net, Final(net, FirstRound(net), steps))
  {
    var s := FirstRound(net);
    var s1 := Apply(net, s, Publish(BackupSide));
    var s2 := Apply(net, s1, Deliver(PrimarySide, 0));
    assert s2.toPrimary == [] && s2.State(PrimarySide).Active?;
    var s3 := Apply(net, s2, Publish(PrimarySide));
    var s4 := Apply(net, s3, Deliver(BackupSide, 0));
    assert s4.toBackup == [];
    steps := [Deliver(BackupSide, 0)] + [];
    PacedCons(net, s3, Deliver(BackupSide, 0), []);
    PacedCons(net, s2, Publish(PrimarySide), steps);
    steps := [Publish(PrimarySide)] + steps;
    PacedCons(net, s1, Deliver(PrimarySide, 0), steps);
    steps := [Deliver(PrimarySide, 0)] + steps;
    PacedCons(net, s, Publish(BackupSide), steps);
    steps := [Publish(BackupSide)] + steps;
  }

  /**
    Some run in which both programs publish on schedule, and the network keeps its promises, ends
    with two Active nodes.
   */
  ghost predicate CanSplit(net: Net) {
    exists s: Pair, steps: seq<Step> ::
      Initial(s) && PacedRun(net, s, steps) && PossibleRun(net, s, steps) && !NotBothActive(Final(net, s, steps))
  }

  lemma LateNewsSplits(net: Net) returns (steps: seq<Step>)
    requires net.period >= 1 && !net.Prompt()
    ensures PacedRun(net, COLD, steps) && PossibleRun(net, COLD, steps)
    ensures Final(net, COLD, steps).BothIn(Active) && Final(net, COLD, steps).now == FirstLapse(net)
  {
    var s := FirstRound(net);
    var first := FirstRoundStarves(net);
    var more := Starve(net, Final(net, s, first));
    PacedAppend(net, s, first, more);
    var t := Final(net, s, first + more);
    PacedCons(net, t, Client(BackupSide), []);
    var last := [Client(BackupSide)] + [];
    PacedAppend(net, s, first + more, last);
    steps := FromCold(net, first + more + last);
  }

  /** The split-brain guarantee holds exactly for networks with period + delay <= 3 * HEARTBEAT. */
  lemma SplitsExactlyWhenNotPrompt(net: Net)
    requires net.period >= 1
    ensures CanSplit(net) <==> !net.Prompt()
  {
    if net.Prompt() {
      forall s, steps | Initial(s) && PacedRun(net, s, steps) && PossibleRun(net, s, steps)
        ensures NotBothActive(Final(net, s, steps))
      {
        PacedIsTimely(net, s, steps);
        NeverBothActive(net, s, steps);
      }
    } else {
      var steps := LateNewsSplits(net);
    }
  }

  // ------------------------------------------------------------------ what order is worth

  /** How many messages were overtaken, over all deliveries. */
  function Overtaken(steps: seq<Step>): nat {
    if steps == [] then 0 else (if steps[0].Deliver? then steps[0].i else 0) + Overtaken(steps[1..])
  }

  lemma UnorderedCons(net: Net, s: Pair, step: Step, rest: seq<Step>)
    requires NeverLate(s, step) && OnSchedule(s, step) && UnorderedRun(net, Apply(net, s, step), rest)
    ensures UnorderedRun(net, s, [step] + rest)
    ensures PossibleRun(net, s, [step] + rest) && PossibleRun(net, Apply(net, s, step), rest)
    ensures Final(net, s, [step] + rest) == Final(net, Apply(net, s, step), rest)
    ensures Overtaken([step] + rest) == (if step.Deliver? then step.i else 0) + Overtaken(rest)
  {
    assert ([step] + rest)[1..] == rest;
    UnorderedIsPossible(net, Apply(net, s, step), rest);
  }

  /**
    The second round, when messages may take a whole period: the primary's "Primary" and "Active"
    are both under way to the backup.
   */
  predicate BothNewsUnderWay(net: Net, s: Pair) {
    && s.BothUp() && s.now == 2 * net.period
    && s.State(PrimarySide).Active? && s.State(BackupSide).Backup?
    && s.toBackup == [Message(Primary, net.period + net.delay), Message(Active, 2 * net.period + net.delay)]
  }

  lemma SwapTheNews(net: Net, s: Pair) returns (steps: seq<Step>)
    requires BothNewsUnderWay(net, s)
    ensures UnorderedRun(net, s, steps) && PossibleRun(net, s, steps) && Overtaken(steps) == 1
    ensures Final(net, s, steps).BothIn(Active) && Final(net, s, steps).now == 2 * net.period
  {
    var s1 := Apply(net, s, Deliver(BackupSide, 1));
    assert s1.toBackup == [s.toBackup[0]] && s1.State(BackupSide).Passive?;
    UnorderedCons(net, s1, Deliver(BackupSide, 0), []);
    steps := [Deliver(BackupSide, 0)] + [];
    UnorderedCons(net, s, Deliver(BackupSide, 1), steps);
    steps := [Deliver(BackupSide, 1)] + steps;
  }

  /** After the first round: the primary is Active, and its "Primary" is still under way. */
  predicate OldNewsUnderWay(net: Net, s: Pair) {
    && s.BothUp() && s.now == net.period && s.primary.sendBy == s.backup.sendBy == 2 * net.period
    && s.State(PrimarySide).Active? && s.State(BackupSide).Backup?
    && s.toPrimary == [] && s.toBackup == [Message(Primary, net.period + net.delay)]
  }

  lemma SecondRound(net: Net, s: Pair) returns (steps: seq<Step>)
    requires net.delay >= net.period && OldNewsUnderWay(net, s)
    ensures UnorderedRun(net, s, steps) && PossibleRun(net, s, steps) && Overtaken(steps) == 1
    ensures Final(net, s, steps).BothIn(Active) && Final(net, s, steps).now == 2 * net.period
  {
    var s1 := Apply(net, s, Tick(net.period));
    var s2 := Apply(net, s1, Publish(PrimarySide));
    steps := SwapTheNews(net, s2);
    UnorderedCons(net, s1, Publish(PrimarySide), steps);
    steps := [Publish(PrimarySide)] + steps;
    UnorderedCons(net, s, Tick(net.period), steps);
    steps := [Tick(net.period)] + steps;
  }

  lemma TwoRounds(net: Net) returns (steps: seq<Step>)
    requires net.delay >= net.period >= 1
    ensures UnorderedRun(net, FirstRound(net), steps) && PossibleRun(net, FirstRound(net), steps)
    ensures Overtaken(steps) == 1
    ensures var t := Final(net, FirstRound(net), steps);
            t.BothIn(Active) && t.now == 2 * net.period
  {
    var s := FirstRound(net);
    var s1 := Apply(net, s, Publish(PrimarySide));
    var s2 := Apply(net, s1, Publish(BackupSide));
    var s3 := Apply(net, s2, Deliver(PrimarySide, 0));
    assert s3.toPrimary == [];
    steps := SecondRound(net, s3);
    UnorderedCons(net, s2, Deliver(PrimarySide, 0), steps);
    steps := [Deliver(PrimarySide, 0)] + steps;
    UnorderedCons(net, s1, Publish(BackupSide), steps);
    steps := [Publish(BackupSide)] + steps;
    UnorderedCons(net, s, Publish(PrimarySide), steps);
    steps := [Publish(PrimarySide)] + steps;
  }

  /**
    Delivery in order is needed too.  Where a message may take a whole period, one message that is
    overtaken by the next, in a run with nothing lost or late, makes both nodes Active in the
    second round: the backup reads the old "Primary" after the new "Active".
   */
  lemma OneSwapSplits(net: Net) returns (steps: seq<Step>)
    requires net.delay >= net.period >= 1
    ensures UnorderedRun(net, COLD, steps) && PossibleRun(net, COLD, steps) && Overtaken(steps) == 1
    ensures Final(net, COLD, steps).BothIn(Active) && Final(net, COLD, steps).now == 2 * net.period
  {
    steps := TwoRounds(net);
    var s1 := Apply(net, COLD, Restart(PrimarySide));
    var s2 := Apply(net, s1, Restart(BackupSide));
    UnorderedCons(net, s2, Tick(net.period), steps);
    steps := [Tick(net.period)] + steps;
    UnorderedCons(net, s1, Restart(BackupSide), steps);
    steps := [Restart(BackupSide)] + steps;
    UnorderedCons(net, COLD, Restart(PrimarySide), steps);
    steps := [Restart(PrimarySide)] + steps;
  }

  /** At most one message is under way to `x`, and it will have arrived before its sender's next. */
  predicate Single(net: Net, s: Pair, x: Side) {
    && |s.In(x)| <= 1 && NothingDueBefore(s.In(x), s.now)
    && (s.At(Peer(x)).up && s.In(x) != [] ==> s.In(x)[0].due <= s.At(Peer(x)).sendBy - net.period + net.delay)
  }

  lemma SingleStep(net: Net, s: Pair, step: Step, x: Side)
    requires net.delay < net.period && Single(net, s, x)
    requires NeverLate(s, step) && OnSchedule(s, step)
    ensures step.Deliver? && step.x == x ==> step.i == 0
    ensures Single(net, Apply(net, s, step), x)
  {
    if step.Publish? && Peer(step.x) == x {
      assert s.In(x) == [];
    }
  }

  /** Where a message arrives before the next one is sent, there is no order to break. */
  lemma {:induction false} NothingToOvertake(net: Net, s: Pair, steps: seq<Step>)
    requires net.delay < net.period && Single(net, s, PrimarySide) && Single(net, s, BackupSide)
    requires UnorderedRun(net, s, steps)
    ensures PacedRun(net, s, steps)
    decreases |steps|
  {
    if steps == [] {
    } else {
      SingleStep(net, s, steps[0], PrimarySide);
      SingleStep(net, s, steps[0], BackupSide);
      NothingToOvertake(net, Apply(net, s, steps[0]), steps[1..]);
    }
  }

  /** Some run with nothing lost or late, but with messages overtaking one another, splits. */
  ghost predicate CanSplitUnordered(net: Net) {
    exists s: Pair, steps: seq<Step> ::
      Initial(s) && UnorderedRun(net, s, steps) && PossibleRun(net, s, steps) && !NotBothActive(Final(net, s, steps))
  }

  /** Reordering does harm exactly where a message may take as long as the next one is away. */
  lemma ReorderingSplitsExactly(net: Net)
    requires net.period >= 1
    ensures CanSplitUnordered(net) <==> !net.Prompt() || net.delay >= net.period
  {
    if !net.Prompt() {
      var steps := LateNewsSplits(net);
      PacedIsTimely(net, COLD, steps);
    } else if net.delay >= net.period {
      var steps := OneSwapSplits(net);
    } else {
      forall s, steps | Initial(s) && UnorderedRun(net, s, steps) && PossibleRun(net, s, steps)
        ensures NotBothActive(Final(net, s, steps))
      {
        NothingToOvertake(net, s, steps);
        PacedIsTimely(net, s, steps);
        NeverBothActive(net, s, steps);
      }
    }
  }

  /**
    The reactor of server2 publishes every HEARTBEAT: it tolerates delays up to two HEARTBEATs if
    messages arrive in order, and below one if they need not.
   */
  lemma Server2Tolerates(delay: nat)
    ensures CanSplit(Net(Server2, HEARTBEAT, delay)) <==> delay > 2 * HEARTBEAT
    ensures CanSplitUnordered(Net(Server2, HEARTBEAT, delay)) <==> delay >= HEARTBEAT
  {
    SplitsExactlyWhenNotPrompt(Net(Server2, HEARTBEAT, delay));
    ReorderingSplitsExactly(Net(Server2, HEARTBEAT, delay));
  }

  /**
    server1 publishes only every second HEARTBEAT, which halves what it tolerates, but up to there
    it does not depend on the order of delivery.
   */
  lemma Server1Tolerates(delay: nat)
    ensures CanSplit(Net(Server1, 2 * HEARTBEAT, delay)) <==> delay > HEARTBEAT
    ensures CanSplitUnordered(Net(Server1, 2 * HEARTBEAT, delay)) <==> delay > HEARTBEAT
  {
    SplitsExactlyWhenNotPrompt(Net(Server1, 2 * HEARTBEAT, delay));
    ReorderingSplitsExactly(Net(Server1, 2 * HEARTBEAT, delay));
  }

  // ------------------------------------------------------------------ convergence

  predicate CrashFree(steps: seq<Step>) {
    forall i :: 0 <= i < |steps| ==> !steps[i].Crash? && !steps[i].Restart?
  }

  /** One node is Active and the other Passive. */
  predicate Settled(s: Pair) {
    s.BothUp() &&
    ((s.State(PrimarySide).Active? && s.State(BackupSide).Passive?) ||
     (s.State(PrimarySide).Passive? && s.State(BackupSide).Active?))
  }

  /** The latest arrival of the first message saying `st`, with a deadline for one not yet sent. */
  function FirstDue(q: seq<Message>, st: State, otherwise: int): int {
    if q == [] then otherwise
    else if q[0].state == st then q[0].due
    else FirstDue(q[1..], st, otherwise)
  }

  /** The latest time at which `x` learns of its peer's present state. */
  function LearnsBy(net: Net, s: Pair, x: Side): int {
    FirstDue(s.In(x), s.State(Peer(x)), s.At(Peer(x)).sendBy + net.delay)
  }

  /** `x` is Active and its peer has yet to find out. */
  predicate Leads(s: Pair, x: Side) {
    s.State(x).Active? && s.State(Peer(x)) == StartState(Peer(x))
  }

  /** While nobody is Active: the node that will take over once it hears from the other. */
  function Heir(s: Pair): Side {
    if s.State(BackupSide).Passive? then BackupSide else PrimarySide
  }

  /** The timed potential: by when an unsettled pair has settled. */
  function SettlesBy(net: Net, s: Pair): int {
    if Leads(s, PrimarySide) then LearnsBy(net, s, BackupSide)
    else if Leads(s, BackupSide) then LearnsBy(net, s, PrimarySide)
    else LearnsBy(net, s, Heir(s)) + net.period + net.delay
  }

  lemma {:induction false} FirstDueAppend(q: seq<Message>, m: Message, st: State, otherwise: int, otherwise': int)
    requires m.state == st ==> m.due <= otherwise
    requires m.state != st ==> otherwise' <= otherwise
    ensures FirstDue(q + [m], st, otherwise') <= FirstDue(q, st, otherwise)
  {
    if q == [] {
    } else {
      assert (q + [m])[1..] == q[1..] + [m];
      FirstDueAppend(q[1..], m, st, otherwise, otherwise');
    }
  }

  lemma {:induction false} FirstDueBounds(q: seq<Message>, st: State, otherwise: int, lo: int, hi: int)
    requires DueWithin(q, lo, hi) && lo <= otherwise
    ensures lo <= FirstDue(q, st, otherwise)
    ensures FirstDue(q, st, otherwise) <= hi || FirstDue(q, st, otherwise) == otherwise
  {
    if q == [] {
    } else {
      FirstDueBounds(q[1..], st, otherwise, lo, hi);
    }
  }

  lemma {:induction false} FirstDueAbsent(q: seq<Message>, st: State, otherwise: int)
    requires forall i :: 0 <= i < |q| ==> q[i].state != st
    ensures FirstDue(q, st, otherwise) == otherwise
  {
    if q == [] {
    } else {
      FirstDueAbsent(q[1..], st, otherwise);
    }
  }

  lemma LearnsInTime(net: Net, s: Pair, x: Side)
    requires Inv(net, s) && s.BothUp()
    ensures s.now <= LearnsBy(net, s, x) <= s.now + net.period + net.delay
  {
    FirstDueBounds(s.In(x), s.State(Peer(x)), s.At(Peer(x)).sendBy + net.delay, s.now, s.now + net.delay);
  }

  /** Progress towards `t`: the pair has settled, or will by the time promised before. */
  predicate Closer(net: Net, s: Pair, t: Pair) {
    t.BothUp() && (Settled(t) || SettlesBy(net, t) <= SettlesBy(net, s))
  }

  lemma CloserByPublish(net: Net, s: Pair, x: Side)
    requires Inv(net, s) && s.BothUp() && !Settled(s)
    ensures Closer(net, s, Apply(net, s, Publish(x)))
  {
    var t := Apply(net, s, Publish(x));
    var y := Peer(x);
    FirstDueAppend(s.In(y), Message(s.State(x), s.now + net.delay), s.State(x),
                   s.At(x).sendBy + net.delay, t.At(x).sendBy + net.delay);
    assert LearnsBy(net, t, y) <= LearnsBy(net, s, y);
    assert t.In(x) == s.In(x) && t.At(y) == s.At(y);
    assert LearnsBy(net, t, x) == LearnsBy(net, s, x);
  }

  lemma CloserByClient(net: Net, s: Pair, x: Side)
    requires Inv(net, s) && s.BothUp() && !Settled(s)
    ensures Closer(net, s, Apply(net, s, Client(x)))
  {
    var t := Apply(net, s, Client(x));
    var y := Peer(x);
    NoLapseWhenWrong(net, s, x);
    if t.State(x) != s.State(x) {
      assert Inv(net, t) by { InvClient(net, s, x); }
      LearnsInTime(net, t, y);
      LearnsInTime(net, s, Heir(s));
    } else {
      assert t == s;
    }
  }

  /** A node that has just become Active has not said so yet, so its peer learns of it in time. */
  lemma CloserByTakeover(net: Net, s: Pair, x: Side, t: Pair)
    requires Inv(net, s) && s.BothUp() && !Settled(s) && s.In(x) != [] && s.In(x)[0].state == s.State(Peer(x))
    requires Inv(net, t) && t.BothUp() && t.now == s.now
    requires !s.State(x).Active? && t.State(x).Active? && t.State(Peer(x)) == s.State(Peer(x)) == StartState(Peer(x))
    ensures Closer(net, s, t)
  {
    LearnsInTime(net, t, Peer(x));
    LearnsInTime(net, s, Heir(s));
  }

  lemma CloserByNews(net: Net, s: Pair, x: Side, t: Pair)
    requires Inv(net, s) && s.BothUp() && !Settled(s) && s.In(x) != []
    requires Inv(net, t) && t.BothUp() && t.now == s.now
    requires t.In(x) == s.In(x)[1..] && t.In(Peer(x)) == s.In(Peer(x)) && t.At(Peer(x)) == s.At(Peer(x))
    requires t.State(x) == Next(net.variant, s.State(x), PeerEvent(s.In(x)[0].state), false)
    requires t.At(x).sendBy == s.At(x).sendBy
    ensures Closer(net, s, t)
  {
    var y := Peer(x);
    if t.State(x) == s.State(x) {
      assert LearnsBy(net, t, y) == LearnsBy(net, s, y);
      if s.In(x)[0].state != s.State(y) {
        assert LearnsBy(net, t, x) == LearnsBy(net, s, x);
      }
    } else if t.State(x).Active? {
      CloserByTakeover(net, s, x, t);
    }
  }

  lemma CloserByDelivery(net: Net, s: Pair, x: Side)
    requires net.Prompt() && Inv(net, s) && s.BothUp() && !Settled(s) && s.In(x) != []
    ensures Closer(net, s, Apply(net, s, Deliver(x, 0)))
  {
    var t := Apply(net, s, Deliver(x, 0));
    InvDeliver(net, s, x);
    DeliveryFrame(net, s, x);
    assert t.BothUp();
    CloserByNews(net, s, x, t);
  }

  lemma CloserByStep(net: Net, s: Pair, step: Step)
    requires net.Prompt() && Inv(net, s) && Timely(s, step) && CrashFree([step])
    requires s.BothUp() && !Settled(s)
    ensures Closer(net, s, Apply(net, s, step))
  {
    assert step == [step][0];
    match step
    case Publish(x) => CloserByPublish(net, s, x);
    case Client(x) => CloserByClient(net, s, x);
    case Deliver(x, _) => CloserByDelivery(net, s, x);
    case Tick(_) =>
  }

  /** Nothing under way between settled nodes makes either change its state. */
  lemma SettledByDelivery(net: Net, s: Pair, x: Side)
    requires net.Prompt() && Inv(net, s) && Settled(s) && s.In(x) != []
    ensures var t := Apply(net, s, Deliver(x, 0));
            Settled(t) && t.State(PrimarySide) == s.State(PrimarySide)
  {
    DeliveryFrame(net, s, x);
  }

  lemma SettledByClient(net: Net, s: Pair, x: Side)
    requires Inv(net, s) && Settled(s)
    ensures var t := Apply(net, s, Client(x));
            Settled(t) && t.State(PrimarySide) == s.State(PrimarySide)
  {
    NoLapseWhenWrong(net, s, x);
  }

  /** Once settled, the same node stays Active. */
  lemma SettledStays(net: Net, s: Pair, step: Step)
    requires net.Prompt() && Inv(net, s) && Timely(s, step) && CrashFree([step]) && Settled(s)
    ensures var t := Apply(net, s, step);
            Settled(t) && t.State(PrimarySide) == s.State(PrimarySide)
  {
    assert step == [step][0];
    match step
    case Deliver(x, _) => SettledByDelivery(net, s, x);
    case Client(x) => SettledByClient(net, s, x);
    case _ =>
  }

  lemma {:induction false} SettledForGood(net: Net, s: Pair, steps: seq<Step>)
    requires net.Prompt() && Inv(net, s) && Settled(s)
    requires TimelyRun(net, s, steps) && CrashFree(steps)
    ensures PossibleRun(net, s, steps)
    ensures var t := Final(net, s, steps);
            Settled(t) && t.State(PrimarySide) == s.State(PrimarySide)
    decreases |steps|
  {
    if steps == [] {
    } else {
      SettledStays(net, s, steps[0]);
      InvStep(net, s, steps[0]);
      SettledForGood(net, Apply(net, s, steps[0]), steps[1..]);
    }
  }

  lemma {:induction false} SettlesInTime(net: Net, s: Pair, steps: seq<Step>)
    requires net.Prompt() && Inv(net, s) && s.BothUp()
    requires TimelyRun(net, s, steps) && CrashFree(steps)
    ensures PossibleRun(net, s, steps)
    ensures Settled(Final(net, s, steps)) || (!Settled(s) && Final(net, s, steps).now <= SettlesBy(net, s))
    decreases |steps|
  {
    TimelyIsPossible(net, s, steps);
    if Settled(s) {
      SettledForGood(net, s, steps);
    } else if steps == [] {
      LearnsInTime(net, s, PrimarySide);
      LearnsInTime(net, s, BackupSide);
    } else {
      CloserByStep(net, s, steps[0]);
      InvStep(net, s, steps[0]);
      SettlesInTime(net, Apply(net, s, steps[0]), steps[1..]);
    }
  }

  /**
    Convergence.  From any state a prompt network can bring the pair to, with both nodes up and no
    further crash, one node is Active and the other Passive once 2 * (period + delay) have passed.
   */
  lemma Converges(net: Net, s: Pair, before: seq<Step>, steps: seq<Step>)
    requires net.Prompt() && Initial(s) && TimelyRun(net, s, before) && PossibleRun(net, s, before)
    requires Final(net, s, before).BothUp()
    requires TimelyRun(net, Final(net, s, before), steps) && CrashFree(steps)
    ensures PossibleRun(net, Final(net, s, before), steps)
    ensures var m := Final(net, s, before);
            var t := Final(net, m, steps);
            t.now > m.now + 2 * (net.period + net.delay) ==> Settled(t)
  {
    InvRun(net, s, before);
    var m := Final(net, s, before);
    SettlesInTime(net, m, steps);
    LearnsInTime(net, m, PrimarySide);
    LearnsInTime(net, m, BackupSide);
  }

  /**
    The window in which server1 answers twice is bounded: when the primary side is waiting and the
    backup side is Active, the primary side is Passive once period + delay have passed.
   */
  lemma DoubleAnswersEnd(net: Net, s: Pair, before: seq<Step>, steps: seq<Step>)
    requires net.Prompt() && Initial(s) && TimelyRun(net, s, before) && PossibleRun(net, s, before)
    requires var m := Final(net, s, before);
             m.BothUp() && m.State(PrimarySide).Primary? && m.State(BackupSide).Active?
    requires TimelyRun(net, Final(net, s, before), steps) && CrashFree(steps)
    ensures PossibleRun(net, Final(net, s, before), steps)
    ensures var m := Final(net, s, before);
            var t := Final(net, m, steps);
            t.now > m.now + net.period + net.delay ==> t.State(PrimarySide).Passive? && t.State(BackupSide).Active?
  {
    InvRun(net, s, before);
    var m := Final(net, s, before);
    SettlesInTime(net, m, steps);
    LearnsInTime(net, m, PrimarySide);
    ActiveIsForever(net, m, BackupSide, steps);
  }

  /** With either server, two answering nodes are a thing of the past once the pair has had time to settle. */
  lemma DoubleAnswersNeverReturn(net: Net, s: Pair, before: seq<Step>, steps: seq<Step>)
    requires net.Prompt() && Initial(s) && TimelyRun(net, s, before) && PossibleRun(net, s, before)
    requires Final(net, s, before).BothUp()
    requires TimelyRun(net, Final(net, s, before), steps) && CrashFree(steps)
    ensures PossibleRun(net, Final(net, s, before), steps)
    ensures var m := Final(net, s, before);
            var t := Final(net, m, steps);
            t.now > m.now + 2 * (net.period + net.delay) ==>
              (t.Answers(net.variant, PrimarySide) <==> !t.Answers(net.variant, BackupSide))
  {
    InvRun(net, s, before);
    var m := Final(net, s, before);
    InvRun(net, m, steps);
    Converges(net, s, before, steps);
    var t := Final(net, m, steps);
    if Settled(t) {
      NoLapseWhenWrong(net, t, PrimarySide);
      NoLapseWhenWrong(net, t, BackupSide);
    }
  }

  /** An Active node leaves that state only by going down. */
  lemma {:induction false} ActiveIsForever(net: Net, s: Pair, x: Side, steps: seq<Step>)
    requires PossibleRun(net, s, steps) && CrashFree(steps)
    requires s.State(x).Active?
    ensures Final(net, s, steps).State(x).Active?
    decreases |steps|
  {
    if steps == [] {
    } else {
      ActiveIsForever(net, Apply(net, s, steps[0]), x, steps[1..]);
    }
  }

  /**
    Nothing heals a split: server2 logs "dual actives, aborting" but drops the verdict, so two
    Active nodes stay Active in every crash-free run.
   */
  lemma SplitIsForever(net: Net, s: Pair, steps: seq<Step>)
    requires net.variant.Server2? && s.BothIn(Active)
    requires PossibleRun(net, s, steps) && CrashFree(steps)
    ensures Final(net, s, steps).BothIn(Active)
  {
    ActiveIsForever(net, s, PrimarySide, steps);
    ActiveIsForever(net, s, BackupSide, steps);
    StaysUp(net, s, steps);
  }

  lemma {:induction false} StaysUp(net: Net, s: Pair, steps: seq<Step>)
    requires net.variant.Server2? && s.BothUp()
    requires PossibleRun(net, s, steps) && CrashFree(steps)
    ensures Final(net, s, steps).BothUp()
    decreases |steps|
  {
    if steps == [] {
    } else {
      StaysUp(net, Apply(net, s, steps[0]), steps[1..]);
    }
  }

  // ------------------------------------------------------------------ time can always pass

  /** Publish if it is time to. */
  lemma PublishIfDue(net: Net, s: Pair, x: Side) returns (steps: seq<Step>)
    requires net.Prompt() && net.period >= 1 && Inv(net, s) && s.BothUp()
    ensures PacedRun(net, s, steps) && CrashFree(steps) && PossibleRun(net, s, steps)
    ensures var t := Final(net, s, steps);
            && Inv(net, t) && t.BothUp() && t.now == s.now
            && t.At(x).sendBy > t.now && t.At(Peer(x)) == s.At(Peer(x))
  {
    if s.At(x).sendBy == s.now {
      InvStep(net, s, Publish(x));
      PacedCons(net, s, Publish(x), []);
      steps := [Publish(x)] + [];
    } else {
      assert InRange(net, s, x);
      steps := [];
    }
  }

  /** Publish what is due, deliver everything, then let one millisecond pass. */
  lemma TimePasses(net: Net, s: Pair) returns (steps: seq<Step>)
    requires net.Prompt() && net.period >= 1 && Inv(net, s) && s.BothUp()
    ensures PacedRun(net, s, steps) && CrashFree(steps) && PossibleRun(net, s, steps)
    ensures Final(net, s, steps).now == s.now + 1
  {
    var first := PublishIfDue(net, s, PrimarySide);
    var s1 := Final(net, s, first);
    var second := PublishIfDue(net, s1, BackupSide);
    var rest := DrainAndTick(net, Final(net, s1, second));
    PacedAppend(net, s1, second, rest);
    PacedAppend(net, s, first, second + rest);
    steps := first + (second + rest);
  }

  lemma {:induction false} DrainAndTick(net: Net, s: Pair) returns (steps: seq<Step>)
    requires net.Prompt() && Inv(net, s) && s.BothUp()
    requires s.primary.sendBy > s.now && s.backup.sendBy > s.now
    ensures PacedRun(net, s, steps) && CrashFree(steps) && PossibleRun(net, s, steps)
    ensures Final(net, s, steps).now == s.now + 1
    decreases |s.toPrimary| + |s.toBackup|
  {
    if s.toPrimary == [] && s.toBackup == [] {
      PacedCons(net, s, Tick(1), []);
      steps := [Tick(1)] + [];
    } else {
      var x := if s.toPrimary != [] then PrimarySide else BackupSide;
      InvStep(net, s, Deliver(x, 0));
      steps := DrainAndTick(net, Apply(net, s, Deliver(x, 0)));
      PacedCons(net, s, Deliver(x, 0), steps);
      steps := [Deliver(x, 0)] + steps;
    }
  }

  lemma {:induction false} TimePassesTo(net: Net, s: Pair, until: int) returns (steps: seq<Step>)
    requires net.Prompt() && net.period >= 1 && Inv(net, s) && s.BothUp() && s.now <= until
    ensures PacedRun(net, s, steps) && CrashFree(steps) && PossibleRun(net, s, steps)
    ensures Final(net, s, steps).now == until
    decreases until - s.now
  {
    if s.now == until {
      steps := [];
    } else {
      var first := TimePasses(net, s);
      PacedIsTimely(net, s, first);
      InvRun(net, s, first);
      BothStayUp(net, s, first);
      var rest := TimePassesTo(net, Final(net, s, first), until);
      PacedAppend(net, s, first, rest);
      steps := first + rest;
    }
  }

  lemma {:induction false} BothStayUp(net: Net, s: Pair, steps: seq<Step>)
    requires net.Prompt() && Inv(net, s) && s.BothUp()
    requires TimelyRun(net, s, steps) && CrashFree(steps) && PossibleRun(net, s, steps)
    ensures Final(net, s, steps).BothUp()
    decreases |steps|
  {
    if steps == [] {
    } else {
      if Settled(s) {
        SettledStays(net, s, steps[0]);
      } else {
        CloserByStep(net, s, steps[0]);
      }
      InvStep(net, s, steps[0]);
      BothStayUp(net, Apply(net, s, steps[0]), steps[1..]);
    }
  }

  /**
    Convergence is not vacuous: every reachable state with both nodes up has a run that settles, in
    which both publish on schedule.
   */
  lemma CanSettle(net: Net, s: Pair, before: seq<Step>) returns (steps: seq<Step>)
    requires net.Prompt() && net.period >= 1 && Initial(s)
    requires TimelyRun(net, s, before) && PossibleRun(net, s, before) && Final(net, s, before).BothUp()
    ensures var m := Final(net, s, before);
            PacedRun(net, m, steps) && CrashFree(steps) && PossibleRun(net, m, steps) && Settled(Final(net, m, steps))
  {
    InvRun(net, s, before);
    var m := Final(net, s, before);
    steps := TimePassesTo(net, m, m.now + 2 * (net.period + net.delay) + 1);
    PacedIsTimely(net, m, steps);
    Converges(net, s, before, steps);
  }
}
