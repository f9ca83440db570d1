/**
  What the Binary Star pair does when a peer goes silent, and what becomes of two Active nodes.

  When a node started or last heard from its peer is read off the run itself (`HeardAt`), not off the
  node's expiry, and the statements hold over every possible run, prompt or not.
 */
module BinaryStarFailover {
  import opened BinaryStar
  import opened BinaryStarPair

  /** How long a node waits for its peer. */
  const PATIENCE := 3 * HEARTBEAT

  /** `x` starts, or hears from its peer. */
  predicate Hears(s: Pair, step: Step, x: Side) {
    step == Restart(x) || (step.Deliver? && step.x == x && s.At(x).up)
  }

  /** The last time in the run at which `x` started or heard from its peer; before it, `since`. */
  function HeardAt(net: Net, s: Pair, steps: seq<Step>, x: Side, since: int): int
    requires PossibleRun(net, s, steps)
    decreases |steps|
  {
    if steps == [] then since
    else HeardAt(net, Apply(net, s, steps[0]), steps[1..], x, if Hears(s, steps[0], x) then s.now else since)
  }

  /** The expiry of a node that looks at it is its patience past `since`. */
  predicate ExpiryOk(net: Net, s: Pair, x: Side, since: int) {
    s.At(x).up && (net.variant.Server2? || s.State(x).Passive?) ==> s.At(x).fsm.expiry == since + PATIENCE
  }

  lemma ExpiryStep(net: Net, s: Pair, step: Step, x: Side, since: int)
    requires Possible(s, step) && ExpiryOk(net, s, x, since)
    ensures ExpiryOk(net, Apply(net, s, step), x, if Hears(s, step, x) then s.now else since)
  {
  }

  lemma {:induction false} ExpiryRun(net: Net, s: Pair, steps: seq<Step>, x: Side, since: int)
    requires PossibleRun(net, s, steps) && ExpiryOk(net, s, x, since)
    ensures ExpiryOk(net, Final(net, s, steps), x, HeardAt(net, s, steps, x, since))
    decreases |steps|
  {
    if steps == [] {
    } else {
      ExpiryStep(net, s, steps[0], x, since);
      ExpiryRun(net, Apply(net, s, steps[0]), steps[1..], x, if Hears(s, steps[0], x) then s.now else since);
    }
  }

  /** `x` has been left without news for longer than its patience. */
  predicate OutOfPatience(net: Net, s: Pair, steps: seq<Step>, x: Side)
    requires PossibleRun(net, s, steps)
  {
    Final(net, s, steps).now > HeardAt(net, s, steps, x, 0) + PATIENCE
  }

  /**
    In every reachable state, a client request leaves a node Active exactly if it was, or if it is out
    of patience and Passive, or, with server2, still Primary.  server2 answers exactly then; server1
    answers from Primary as well, at any time and without becoming Active.
   */
  lemma TakesOverExactly(net: Net, s: Pair, before: seq<Step>, x: Side)
    requires Initial(s) && PossibleRun(net, s, before) && Final(net, s, before).At(x).up
    ensures var m := Final(net, s, before);
            var late := OutOfPatience(net, s, before, x);
            var active := Apply(net, m, Client(x)).State(x) == Active;
            && (net.variant == Server2 ==>
                  && (active <==> m.State(x) == Active || ((m.State(x) == Primary || m.State(x) == Passive) && late))
                  && (m.Answers(Server2, x) <==> active))
            && (net.variant == Server1 ==>
                  && (active <==> m.State(x) == Active || (m.State(x) == Passive && late))
                  && (m.Answers(Server1, x) <==> active || m.State(x) == Primary))
  {
    ExpiryRun(net, s, before, x, 0);
  }

  // ------------------------------------------------------------------ a node left alone

  /** The peer is down and nothing is under way from it. */
  predicate Alone(s: Pair, x: Side) {
    s.At(x).up && !s.At(Peer(x)).up && s.In(x) == []
  }

  predicate StaysAlone(steps: seq<Step>, x: Side) {
    forall i :: 0 <= i < |steps| ==> steps[i] != Restart(Peer(x)) && !(steps[i].Crash? && steps[i].x == x)
  }

  lemma AloneStep(net: Net, s: Pair, step: Step, x: Side)
    requires Alone(s, x) && Possible(s, step) && StaysAlone([step], x)
    ensures Alone(Apply(net, s, step), x) && !Hears(s, step, x)
    ensures var t := Apply(net, s, step);
            t.State(x) == s.State(x) || (t.State(x) == Active && s.State(x) != Backup)
  {
    assert step == [step][0];
  }

  lemma {:induction false} AloneRun(net: Net, s: Pair, steps: seq<Step>, x: Side, since: int)
    requires Alone(s, x) && PossibleRun(net, s, steps) && StaysAlone(steps, x) && ExpiryOk(net, s, x, since)
    ensures Alone(Final(net, s, steps), x) && ExpiryOk(net, Final(net, s, steps), x, since)
    ensures var t := Final(net, s, steps);
            t.State(x) == s.State(x) || (t.State(x) == Active && s.State(x) != Backup)
    decreases |steps|
  {
    if steps == [] {
    } else {
      AloneStep(net, s, steps[0], x);
      ExpiryStep(net, s, steps[0], x, since);
      AloneRun(net, Apply(net, s, steps[0]), steps[1..], x, since);
    }
  }

  /**
    Failover.  A node whose peer went down and stays down answers its clients once its patience is
    over, unless it is still Backup, in which case it never does; and the first request makes it
    Active, unless it is a server1 that is still Primary.
   */
  lemma FailsOver(net: Net, s: Pair, before: seq<Step>, after: seq<Step>, x: Side)
    requires Initial(s) && PossibleRun(net, s, before) && Alone(Final(net, s, before), x)
    requires PossibleRun(net, Final(net, s, before), after) && StaysAlone(after, x)
    ensures var m := Final(net, s, before);
            var t := Final(net, m, after);
            && t.At(x).up
            && (m.State(x) == Backup ==> !t.Answers(net.variant, x))
            && (m.State(x) != Backup && t.now > HeardAt(net, s, before, x, 0) + PATIENCE ==>
                  && t.Answers(net.variant, x)
                  && (net.variant == Server2 || m.State(x) != Primary ==>
                        Apply(net, t, Client(x)).State(x) == Active))
  {
    ExpiryRun(net, s, before, x, 0);
    AloneRun(net, Final(net, s, before), after, x, HeardAt(net, s, before, x, 0));
  }

  // ------------------------------------------------------------------ two Active nodes

  /** server1 ends its process exactly on hearing its own state where that is Active or Passive; server2 never does. */
  lemma DiesExactly(net: Net, s: Pair, x: Side, i: nat)
    requires s.At(x).up && i < |s.In(x)|
    ensures !Apply(net, s, Deliver(x, i)).At(x).up <==>
            net.variant == Server1 && s.State(x) == s.In(x)[i].state && (s.State(x) == Active || s.State(x) == Passive)
  {
  }

  lemma RangeByDelivery(net: Net, s: Pair, y: Side, x: Side)
    requires InRange(net, s, x) && s.In(y) != []
    ensures InRange(net, Apply(net, s, Deliver(y, 0)), x)
  {
    DeliveryShape(net, s, y);
    if y == x {
      DueLater(s.In(x), s.now, s.now + net.delay);
      if s.At(x).up {
        ReceiveState(net, s.At(x), s.In(x)[0], s.now);
      }
    }
  }

  lemma RangeStep(net: Net, s: Pair, step: Step, x: Side)
    requires InRange(net, s, x) && Timely(s, step)
    ensures InRange(net, Apply(net, s, step), x)
  {
    match step
    case Publish(y) =>
      if y == x {
        PublishNews(net, s, x);
      }
    case Deliver(y, _) => RangeByDelivery(net, s, y, x);
    case _ =>
  }

  lemma {:induction false} RangeRun(net: Net, s: Pair, steps: seq<Step>)
    requires InRange(net, s, PrimarySide) && InRange(net, s, BackupSide) && TimelyRun(net, s, steps)
    ensures PossibleRun(net, s, steps)
    ensures InRange(net, Final(net, s, steps), PrimarySide) && InRange(net, Final(net, s, steps), BackupSide)
    decreases |steps|
  {
    if steps == [] {
    } else {
      RangeStep(net, s, steps[0], PrimarySide);
      RangeStep(net, s, steps[0], BackupSide);
      RangeRun(net, Apply(net, s, steps[0]), steps[1..]);
    }
  }

  /** `x` learns that its peer is Active no later than it was bound to, if both survive the step. */
  lemma SplitStep(net: Net, s: Pair, step: Step, x: Side)
    requires net.variant.Server1? && s.BothIn(Active) && InRange(net, s, Peer(x))
    requires Timely(s, step) && CrashFree([step])
    ensures var t := Apply(net, s, step);
            !t.BothUp() || (t.BothIn(Active) && LearnsBy(net, t, x) <= LearnsBy(net, s, x))
  {
    assert step == [step][0];
    match step
    case Publish(y) =>
      if y == Peer(x) {
        var t := Apply(net, s, step);
        FirstDueAppend(s.In(x), Message(Active, s.now + net.delay), Active,
                       s.At(y).sendBy + net.delay, t.At(y).sendBy + net.delay);
      }
    case Deliver(y, _) =>
      DeliveryShape(net, s, y);
      DiesExactly(net, s, y, 0);
    case _ =>
  }

  lemma {:induction false} DownStays(net: Net, s: Pair, steps: seq<Step>)
    requires PossibleRun(net, s, steps) && CrashFree(steps) && !s.BothUp()
    ensures !Final(net, s, steps).BothUp()
    decreases |steps|
  {
    if steps == [] {
    } else {
      DownStays(net, Apply(net, s, steps[0]), steps[1..]);
    }
  }

  lemma {:induction false} SplitRun(net: Net, s: Pair, steps: seq<Step>, x: Side)
    requires net.variant.Server1? && s.BothIn(Active) && InRange(net, s, PrimarySide) && InRange(net, s, BackupSide)
    requires TimelyRun(net, s, steps) && PossibleRun(net, s, steps) && CrashFree(steps)
    ensures Final(net, s, steps).BothUp() ==> Final(net, s, steps).now <= LearnsBy(net, s, x)
    decreases |steps|
  {
    if steps == [] {
      FirstDueBounds(s.In(x), Active, s.At(Peer(x)).sendBy + net.delay, s.now, s.now + net.delay);
    } else {
      SplitStep(net, s, steps[0], x);
      var t := Apply(net, s, steps[0]);
      if t.BothUp() {
        RangeStep(net, s, steps[0], PrimarySide);
        RangeStep(net, s, steps[0], BackupSide);
        SplitRun(net, t, steps[1..], x);
      } else {
        DownStays(net, t, steps[1..]);
      }
    }
  }

  /**
    With server1 a split does not last: two Active nodes do not both survive period + delay, on any
    network that keeps its promises, prompt or not.
   */
  lemma SplitEnds(net: Net, s: Pair, before: seq<Step>, after: seq<Step>)
    requires net.variant == Server1 && Initial(s) && TimelyRun(net, s, before) && PossibleRun(net, s, before)
    requires Final(net, s, before).BothIn(Active)
    requires TimelyRun(net, Final(net, s, before), after) && CrashFree(after)
    ensures PossibleRun(net, Final(net, s, before), after)
    ensures var m := Final(net, s, before);
            var t := Final(net, m, after);
            t.now > m.now + net.period + net.delay ==> !t.BothUp()
  {
    RangeRun(net, s, before);
    var m := Final(net, s, before);
    RangeRun(net, m, after);
    SplitRun(net, m, after, PrimarySide);
    FirstDueBounds(m.toPrimary, Active, m.backup.sendBy + net.delay, m.now, m.now + net.delay);
  }
}
