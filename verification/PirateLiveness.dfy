/**
  One live worker of the Paranoid Pirate and the broker's queue, over time.

  The worker turns its loop at least every HEARTBEAT_INTERVAL and beats when its guard lets it; a
  beat takes at most `delay`, and beats arrive in order.  Everything else that happens to the queue,
  the other workers' messages, the requests and the purges, may happen at any moment.
 */
module PirateLiveness {
  import opened Wrappers
  import opened PirateQueue
  import opened PirateWorker
  import PirateBroker

  datatype Env = Env(worker: string, delay: nat)

  /**
    `turnBy` is the latest time of the worker's next turn, `life` its own opinion of the broker, and
    `underWay` the latest arrivals of its beats that have not arrived, oldest first.
   */
  datatype System = System(now: int, queue: Queue, turnBy: int, heartbeatAt: int, life: Life, underWay: seq<int>)

  /**
    `WorkerTurn` is a turn of the worker, in which it hears from the broker or not; `Join` the arrival
    of its READY or of its reply; `Other` anything that is not about this worker's beats.
   */
  datatype Step = WorkerTurn(heard: bool) | BeatArrives | Join(frames: Message) | Other(e: Event) | Tick(d: nat)

  /** A message of another worker, a request that takes the front, or a purge. */
  predicate OfOthers(env: Env, now: int, e: Event) {
    match e
    case Ready(id, t) => id != env.worker && t == now
    case Reply(id, t) => id != env.worker && t == now
    case Heartbeat(id, t) => id != env.worker && t == now
    case Pop => true
    case Purge(t) => t == now
  }

  /** A READY or a reply comes only from a worker that is not queued; the worker never reconnects. */
  predicate Enabled(env: Env, s: System, step: Step) {
    match step
    case WorkerTurn(heard) => heard || !s.life.GivesUp()
    case BeatArrives => s.underWay != []
    case Join(frames) => !Has(s.queue, env.worker) && (frames == [READY] || |frames| >= 2)
    case Other(e) => OfOthers(env, s.now, e) && Possible(s.queue, e)
    case Tick(d) => s.now + d <= s.turnBy && forall i :: 0 <= i < |s.underWay| ==> s.now + d <= s.underWay[i]
  }

  function Apply(env: Env, s: System, step: Step): System
    requires Enabled(env, s, step)
  {
    match step
    case WorkerTurn(heard) =>
      var t := s.(turnBy := s.now + HEARTBEAT_INTERVAL,
                  life := if heard then s.life.Hears([HEARTBEAT]) else s.life.Silence());
      t.(heartbeatAt := BeatAtNext(s.heartbeatAt, s.now),
         underWay := s.underWay + if BeatDue(s.heartbeatAt, s.now) then [s.now + env.delay] else [])
    case BeatArrives =>
      s.(queue := PirateBroker.AfterBackend(s.queue, [env.worker, HEARTBEAT], s.now), underWay := s.underWay[1..])
    case Join(frames) => s.(queue := PirateBroker.AfterBackend(s.queue, [env.worker] + frames, s.now))
    case Other(e) => s.(queue := Next(s.queue, e))
    case Tick(d) => s.(now := s.now + d)
  }

  predicate Run(env: Env, s: System, steps: seq<Step>)
    decreases |steps|
  {
    steps == [] || (Enabled(env, s, steps[0]) && Run(env, Apply(env, s, steps[0]), steps[1..]))
  }

  function Final(env: Env, s: System, steps: seq<Step>): System
    requires Run(env, s, steps)
    decreases |steps|
  {
    if steps == [] then s else Final(env, Apply(env, s, steps[0]), steps[1..])
  }

  /** The worker has just started; nobody is queued. */
  predicate Initial(s: System) {
    s.queue == [] && s.turnBy == s.heartbeatAt == s.now + HEARTBEAT_INTERVAL && s.life == FRESH && s.underWay == []
  }

  /** A purge would now throw the live worker out. */
  predicate Loses(env: Env, s: System) {
    Has(s.queue, env.worker) && !Has(Purged(s.queue, s.now), env.worker)
  }

  // ------------------------------------------------------------------ the invariant

  /** The latest time at which the broker next hears of the worker. */
  function NextBeat(env: Env, s: System): int {
    if s.underWay == [] then s.heartbeatAt + HEARTBEAT_INTERVAL + env.delay else s.underWay[0]
  }

  predicate OnTime(env: Env, s: System) {
    && s.now <= s.turnBy <= s.heartbeatAt + HEARTBEAT_INTERVAL && s.heartbeatAt <= s.now + HEARTBEAT_INTERVAL
    && forall i :: 0 <= i < |s.underWay| ==> s.now <= s.underWay[i] <= s.now + env.delay
  }

  /** `r` is what the queue refines; in it the worker expires no earlier than it is next heard of. */
  ghost predicate Covered(env: Env, s: System, r: Roll) {
    Refines(s.queue, r) && (env.worker in r.members ==> NextBeat(env, s) <= r.members[env.worker].when)
  }

  lemma OnTimeStep(env: Env, s: System, step: Step)
    requires OnTime(env, s) && Enabled(env, s, step)
    ensures OnTime(env, Apply(env, s, step))
    ensures !step.BeatArrives? ==> NextBeat(env, Apply(env, s, step)) <= NextBeat(env, s)
  {
  }

  /** Whatever happens to the others, this worker keeps its expiry or leaves. */
  lemma OthersKeep(env: Env, r: Roll, now: int, e: Event, r': Roll)
    requires OfOthers(env, now, e) && RollNext(r, e, r')
    ensures env.worker in r'.members ==>
              env.worker in r.members && r'.members[env.worker].when == r.members[env.worker].when
  {
  }

  /** A message of the worker's own gives it a whole lifetime, if it is queued. */
  lemma OwnRenews(env: Env, r: Roll, frames: Message, now: int, r': Roll)
    requires frames == [READY] || frames == [HEARTBEAT] || (|frames| >= 2 && env.worker !in r.members)
    requires PirateBroker.Means(r, [env.worker] + frames, now, r')
    ensures env.worker in r'.members ==> r'.members[env.worker].when == now + LIFETIME
  {
  }

  lemma CoveredStep(env: Env, s: System, step: Step, r: Roll) returns (r': Roll)
    requires 2 * HEARTBEAT_INTERVAL + env.delay <= LIFETIME
    requires OnTime(env, s) && Covered(env, s, r) && Enabled(env, s, step)
    ensures Covered(env, Apply(env, s, step), r')
  {
    OnTimeStep(env, s, step);
    match step
    case BeatArrives =>
      r' := PirateBroker.BackendRefines(s.queue, r, [env.worker, HEARTBEAT], s.now);
      assert [env.worker] + [HEARTBEAT] == [env.worker, HEARTBEAT];
      OwnRenews(env, r, [HEARTBEAT], s.now, r');
    case Join(frames) =>
      MembersQueued(s.queue, r, env.worker);
      r' := PirateBroker.BackendRefines(s.queue, r, [env.worker] + frames, s.now);
      OwnRenews(env, r, frames, s.now, r');
    case Other(e) =>
      r' := StepRefines(s.queue, r, e);
      OthersKeep(env, r, s.now, e, r');
    case _ => r' := r;
  }

  lemma MembersQueued(q: Queue, r: Roll, id: string)
    requires Refines(q, r)
    ensures id in r.members <==> Has(q, id)
  {
  }

  lemma {:induction false} CoveredRun(env: Env, s: System, steps: seq<Step>, r: Roll) returns (r': Roll)
    requires 2 * HEARTBEAT_INTERVAL + env.delay <= LIFETIME
    requires OnTime(env, s) && Covered(env, s, r) && Run(env, s, steps)
    ensures var t := Final(env, s, steps);
            OnTime(env, t) && Covered(env, t, r')
    decreases |steps|
  {
    if steps == [] {
      r' := r;
    } else {
      var m := CoveredStep(env, s, steps[0], r);
      OnTimeStep(env, s, steps[0]);
      r' := CoveredRun(env, Apply(env, s, steps[0]), steps[1..], m);
    }
  }

  lemma CoveredStays(env: Env, s: System, r: Roll)
    requires OnTime(env, s) && Covered(env, s, r)
    ensures !Loses(env, s)
  {
    if Has(s.queue, env.worker) {
      MembersQueued(s.queue, r, env.worker);
      var i :| 0 <= i < |s.queue| && s.queue[i].identity == env.worker;
      FilterHas(s.queue, Unexpired(s.now), i);
    }
  }

  /** A live worker whose beats travel fast enough is never thrown out of the queue, in any run. */
  lemma LiveWorkerStays(env: Env, s: System, steps: seq<Step>)
    requires 2 * HEARTBEAT_INTERVAL + env.delay <= LIFETIME && Initial(s) && Run(env, s, steps)
    ensures !Loses(env, Final(env, s, steps))
  {
    var r := CoveredRun(env, s, steps, Roll(map[], 0));
    CoveredStays(env, Final(env, s, steps), r);
  }

  // ------------------------------------------------------------------ the bound is exact

  lemma RunCons(env: Env, s: System, step: Step, rest: seq<Step>)
    requires Enabled(env, s, step) && Run(env, Apply(env, s, step), rest)
    ensures Run(env, s, [step] + rest)
    ensures Final(env, s, [step] + rest) == Final(env, Apply(env, s, step), rest)
  {
    assert ([step] + rest)[1..] == rest;
  }

  /**
    The worker joined at time 0 and turns exactly every HEARTBEAT_INTERVAL, hearing from the broker
    each time; its strict guard lets it beat at every second turn only, too late for the broker.
   */
  predicate Fading(env: Env, s: System, turns: nat) {
    && s.queue == [Worker(env.worker, LIFETIME)]
    && s.now == HEARTBEAT_INTERVAL * turns && s.turnBy == s.now + HEARTBEAT_INTERVAL
    && s.now <= s.heartbeatAt && (turns < 2 ==> s.heartbeatAt == HEARTBEAT_INTERVAL)
    && forall i :: 0 <= i < |s.underWay| ==> s.underWay[i] > LIFETIME
  }

  lemma FadingTurn(env: Env, s: System, turns: nat)
    requires 2 * HEARTBEAT_INTERVAL + env.delay > LIFETIME && Fading(env, s, turns) && turns < HEARTBEAT_LIVENESS
    ensures Enabled(env, s, Tick(HEARTBEAT_INTERVAL))
    ensures Fading(env, Apply(env, Apply(env, s, Tick(HEARTBEAT_INTERVAL)), WorkerTurn(true)), turns + 1)
  {
  }

  lemma {:induction false} FadeAway(env: Env, s: System, turns: nat) returns (steps: seq<Step>)
    requires 2 * HEARTBEAT_INTERVAL + env.delay > LIFETIME && Fading(env, s, turns) && turns <= HEARTBEAT_LIVENESS
    ensures Run(env, s, steps) && Loses(env, Final(env, s, steps))
    decreases HEARTBEAT_LIVENESS - turns
  {
    if turns == HEARTBEAT_LIVENESS {
      RunCons(env, s, Tick(1), []);
      steps := [Tick(1)] + [];
      assert s.queue[0].identity == env.worker;
      FilterAppend([], s.queue[0], Unexpired(s.now + 1));
      assert [] + [s.queue[0]] == s.queue;
    } else {
      FadingTurn(env, s, turns);
      var s1 := Apply(env, s, Tick(HEARTBEAT_INTERVAL));
      steps := FadeAway(env, Apply(env, s1, WorkerTurn(true)), turns + 1);
      RunCons(env, s1, WorkerTurn(true), steps);
      steps := [WorkerTurn(true)] + steps;
      RunCons(env, s, Tick(HEARTBEAT_INTERVAL), steps);
      steps := [Tick(HEARTBEAT_INTERVAL)] + steps;
    }
  }

  ghost predicate CanLose(env: Env) {
    exists s: System, steps: seq<Step> :: Initial(s) && Run(env, s, steps) && Loses(env, Final(env, s, steps))
  }

  /**
    The strict guard makes a worker's beats up to two intervals apart, so some run throws a live
    worker out of the queue exactly when that and the delay exceed the lifetime of its entry.
   */
  lemma LiveWorkerStaysExactly(env: Env)
    ensures CanLose(env) <==> 2 * HEARTBEAT_INTERVAL + env.delay > LIFETIME
  {
    if 2 * HEARTBEAT_INTERVAL + env.delay <= LIFETIME {
      forall s, steps | Initial(s) && Run(env, s, steps) ensures !Loses(env, Final(env, s, steps)) {
        LiveWorkerStays(env, s, steps);
      }
    } else {
      var s := System(0, [], HEARTBEAT_INTERVAL, HEARTBEAT_INTERVAL, FRESH, []);
      var t := Apply(env, s, Join([READY]));
      assert t.queue == [Worker(env.worker, LIFETIME)];
      var steps := FadeAway(env, t, 0);
      RunCons(env, s, Join([READY]), steps);
      assert Initial(s) && Loses(env, Final(env, s, [Join([READY])] + steps));
    }
  }
}
