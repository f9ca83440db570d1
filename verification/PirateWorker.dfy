/**
  A Paranoid Pirate worker: it echoes requests, and reconnects, waiting ever longer, when the
  broker has been silent for too long.
 */
module PirateWorker {
  import opened Wrappers
  import opened PirateQueue

  const READY := "READY"
  const HEARTBEAT := "HEARTBEAT"

  const INTERVAL_INIT := 1000
  const INTERVAL_MAX := 32000

  /** A single frame is for the worker itself; anything else is a request, sent back as it is. */
  function Echo(frames: Message): seq<Message> {
    if |frames| == 1 then [] else [frames]
  }

  /** Polls left before the broker counts as gone, and how long to wait before reconnecting. */
  datatype Life = Life(liveness: int, interval: int) {
    /** A frame the worker does not know resets the waiting time but proves no liveness. */
    function Hears(frames: Message): Life {
      Life(if |frames| == 1 && frames[0] != HEARTBEAT then liveness else HEARTBEAT_LIVENESS, INTERVAL_INIT)
    }

    predicate GivesUp() {
      liveness == 1
    }

    function Silence(): Life {
      if GivesUp() then Life(HEARTBEAT_LIVENESS, if interval < INTERVAL_MAX then 2 * interval else interval)
      else Life(liveness - 1, interval)
    }
  }

  const FRESH := Life(HEARTBEAT_LIVENESS, INTERVAL_INIT)

  /** The guard is strict: a turn at the very moment does not beat. */
  predicate BeatDue(heartbeatAt: int, now: int) {
    now > heartbeatAt
  }

  function BeatAtNext(heartbeatAt: int, now: int): int {
    if BeatDue(heartbeatAt, now) then now + HEARTBEAT_INTERVAL else heartbeatAt
  }

  class PpWorker {
    var liveness: int
    var interval: int
    var heartbeatAt: int

    function Value(): Life
      reads this
    {
      Life(liveness, interval)
    }

    constructor (now: int)
      ensures Value() == FRESH && heartbeatAt == now + HEARTBEAT_INTERVAL
    {
      liveness, interval, heartbeatAt := HEARTBEAT_LIVENESS, INTERVAL_INIT, now + HEARTBEAT_INTERVAL;
    }

    /** One turn of the loop; `slept` is how long the worker waited before it reconnected. */
    method Turn(msg: Option<Message>, now: int) returns (sent: seq<Message>, slept: int)
      modifies this
      ensures Value() == if msg.Some? then old(Value()).Hears(msg.value) else old(Value()).Silence()
      ensures slept == if msg.None? && old(Value()).GivesUp() then old(interval) else 0
      ensures sent == (if msg.Some? then Echo(msg.value) else if old(Value()).GivesUp() then [[READY]] else []) +
                      (if BeatDue(old(heartbeatAt), now) then [[HEARTBEAT]] else [])
      ensures heartbeatAt == BeatAtNext(old(heartbeatAt), now)
    {
      sent, slept := [], 0;
      if msg.Some? {
        interval := INTERVAL_INIT;
        if |msg.value| == 1 {
          if msg.value[0] == HEARTBEAT {
            liveness := HEARTBEAT_LIVENESS;
          }
        } else {
          sent := [msg.value];
          liveness := HEARTBEAT_LIVENESS;
        }
      } else {
        liveness := liveness - 1;
        if liveness == 0 {
          slept := interval;
          if interval < INTERVAL_MAX {
            interval := interval * 2;
          }
          sent := [[READY]];
          liveness := HEARTBEAT_LIVENESS;
        }
      }
      if now > heartbeatAt {
        sent := sent + [[HEARTBEAT]];
        heartbeatAt := now + HEARTBEAT_INTERVAL;
      }
    }
  }

  /** `n` silent polls in a row. */
  function Silences(l: Life, n: nat): Life {
    if n == 0 then l else Silences(l, n - 1).Silence()
  }

  function Reconnects(l: Life, n: nat): nat {
    if n == 0 then 0 else Reconnects(l, n - 1) + if Silences(l, n - 1).GivesUp() then 1 else 0
  }

  function Doubled(k: nat): int {
    if k == 0 then INTERVAL_INIT else 2 * Doubled(k - 1)
  }

  function Min(a: int, b: int): int {
    if a < b then a else b
  }

  lemma {:induction false} DoubledGrows(k: nat)
    ensures k >= 5 ==> Doubled(k) >= INTERVAL_MAX
    ensures k < 5 ==> Doubled(k) < INTERVAL_MAX
  {
    if k > 5 {
      DoubledGrows(k - 1);
    } else {
      assert Doubled(1) == 2000;
      assert Doubled(3) == 8000;
      assert Doubled(5) == 32000;
    }
  }

  /**
    During an outage of any length the worker reconnects at every fifth silent poll, and its wait
    doubles each time up to INTERVAL_MAX.
   */
  lemma {:induction false} BackoffDuringOutage(n: nat)
    ensures Reconnects(FRESH, n) == n / HEARTBEAT_LIVENESS
    ensures Silences(FRESH, n) ==
            Life(HEARTBEAT_LIVENESS - n % HEARTBEAT_LIVENESS, Min(Doubled(n / HEARTBEAT_LIVENESS), INTERVAL_MAX))
  {
    if n == 0 {
    } else {
      BackoffDuringOutage(n - 1);
      var k := (n - 1) / HEARTBEAT_LIVENESS;
      DoubledGrows(k);
      DoubledGrows(k + 1);
      if k == 4 {
        assert Doubled(3) == 8000;
        assert Doubled(5) == 32000;
      }
    }
  }

  // ------------------------------------------------------------------ any sequence of polls

  /** The message proves that the broker is alive: its heartbeat, or a request. */
  predicate ProvesLife(poll: Option<Message>) {
    poll.Some? && (|poll.value| != 1 || poll.value == ["HEARTBEAT"])
  }

  /** The worker after its first `n` polls. */
  function LifeAfter(polls: seq<Option<Message>>, n: nat): Life
    requires n <= |polls|
  {
    if n == 0 then FRESH
    else
      var l := LifeAfter(polls, n - 1);
      if polls[n - 1].Some? then l.Hears(polls[n - 1].value) else l.Silence()
  }

  predicate ReconnectsAt(polls: seq<Option<Message>>, n: nat)
    requires n < |polls|
  {
    polls[n].None? && LifeAfter(polls, n).GivesUp()
  }

  /** How many of the polls from `a` up to `b` found nothing. */
  function Silents(polls: seq<Option<Message>>, a: nat, b: nat): nat
    requires a <= b <= |polls|
  {
    if a == b then 0 else Silents(polls, a, b - 1) + if polls[b - 1].None? then 1 else 0
  }

  function Reconnections(polls: seq<Option<Message>>, a: nat, b: nat): nat
    requires a <= b <= |polls|
  {
    if a == b then 0 else Reconnections(polls, a, b - 1) + if ReconnectsAt(polls, b - 1) then 1 else 0
  }

  /** The broker last proved to be alive in poll `a - 1`, or has not since the worker started. */
  predicate LastLife(polls: seq<Option<Message>>, a: nat, n: nat) {
    a <= n <= |polls| && (a > 0 ==> ProvesLife(polls[a - 1])) && forall j :: a <= j < n ==> !ProvesLife(polls[j])
  }

  lemma {:induction false} LivenessCounts(polls: seq<Option<Message>>, a: nat, n: nat)
    requires LastLife(polls, a, n)
    ensures LifeAfter(polls, n).liveness == HEARTBEAT_LIVENESS - Silents(polls, a, n) % HEARTBEAT_LIVENESS
    decreases n - a
  {
    if n == a {
    } else {
      LivenessCounts(polls, a, n - 1);
    }
  }

  /**
    The worker reconnects in a poll exactly when the poll finds nothing and is, counting from the last
    proof of the broker's life, the fifth silent one, or the fifth since it last reconnected.
   */
  lemma ReconnectsExactly(polls: seq<Option<Message>>, a: nat, n: nat)
    requires n < |polls| && LastLife(polls, a, n)
    ensures ReconnectsAt(polls, n) <==> polls[n].None? && Silents(polls, a, n + 1) % 5 == 0
  {
    LivenessCounts(polls, a, n);
  }

  /** Where the broker last proved to be alive. */
  lemma {:induction false} LastLifeExists(polls: seq<Option<Message>>, n: nat) returns (a: nat)
    requires n <= |polls|
    ensures LastLife(polls, a, n)
  {
    if n == 0 {
      a := 0;
    } else if ProvesLife(polls[n - 1]) {
      a := n;
    } else {
      a := LastLifeExists(polls, n - 1);
    }
  }

  lemma {:induction false} SilentsBound(polls: seq<Option<Message>>, a: nat, b: nat)
    requires a <= b <= |polls|
    ensures Silents(polls, a, b) <= b - a
    decreases b - a
  {
    if a == b {
    } else {
      SilentsBound(polls, a, b - 1);
    }
  }

  /** One of the five polls from `i` on proves that the broker is alive. */
  predicate LifeAmongFive(polls: seq<Option<Message>>, i: nat)
    requires i + 5 <= |polls|
  {
    exists j :: i <= j < i + 5 && ProvesLife(polls[j])
  }

  /** A worker that hears a heartbeat or a request in every five polls in a row never reconnects. */
  lemma HeartbeatsKeepConnected(polls: seq<Option<Message>>, n: nat)
    requires n < |polls|
    requires forall i: nat :: i + 5 <= |polls| ==> LifeAmongFive(polls, i)
    ensures !ReconnectsAt(polls, n)
  {
    var a := LastLifeExists(polls, n);
    ReconnectsExactly(polls, a, n);
    SilentsBound(polls, a, n + 1);
    assert a + 5 <= |polls| ==> LifeAmongFive(polls, a);
  }

  /**
    Before each reconnect the worker waits twice as long as before the last, up to the maximum, and
    starts over whenever any message came: `b` is behind the last one.
   */
  lemma {:induction false} WaitsDouble(polls: seq<Option<Message>>, b: nat, n: nat)
    requires b <= n <= |polls| && (b > 0 ==> polls[b - 1].Some?) && forall j :: b <= j < n ==> polls[j].None?
    ensures LifeAfter(polls, n).interval == Min(Doubled(Reconnections(polls, b, n)), INTERVAL_MAX)
    decreases n - b
  {
    if n == b {
    } else {
      WaitsDouble(polls, b, n - 1);
      DoubledGrows(Reconnections(polls, b, n - 1));
      DoubledGrows(Reconnections(polls, b, n));
      DoubledSteps(Reconnections(polls, b, n - 1));
    }
  }

  lemma DoubledSteps(k: nat)
    ensures k < 5 ==> 2 * Doubled(k) <= INTERVAL_MAX
  {
    if k < 5 {
      DoubledGrows(k);
      assert Doubled(2) == 4000;
      assert Doubled(4) == 16000;
    }
  }
}
