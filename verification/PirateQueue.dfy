/**
  The Paranoid Pirate broker's queue of available workers, least recently ready first.

  `WorkerQueue` is the object; the functions on `seq<Worker>` say what its methods do; `Roll` is
  an order-free specification, a map from worker to when it joined, that the queue refines.
 */
module PirateQueue {
  import opened Wrappers

  const HEARTBEAT_LIVENESS := 5
  const HEARTBEAT_INTERVAL := 1000
  const LIFETIME := HEARTBEAT_LIVENESS * HEARTBEAT_INTERVAL

  datatype Worker = Worker(identity: string, when: int)

  type Queue = seq<Worker>

  predicate Has(q: Queue, id: string) {
    exists i :: 0 <= i < |q| && q[i].identity == id
  }

  predicate Distinct(q: Queue) {
    forall i, j :: 0 <= i < j < |q| ==> q[i].identity != q[j].identity
  }

  function Pushed(q: Queue, id: string, now: int): Queue {
    if Has(q, id) then q else q + [Worker(id, now + LIFETIME)]
  }

  /** Keep the entries that pass `keep`, in order. */
  function Filter(q: Queue, keep: Worker -> bool): Queue {
    if q == [] then [] else (if keep(q[0]) then [q[0]] else []) + Filter(q[1..], keep)
  }

  function Other(id: string): Worker -> bool {
    (w: Worker) => w.identity != id
  }

  function Unexpired(now: int): Worker -> bool {
    (w: Worker) => w.when >= now
  }

  function Erased(q: Queue, id: string): Queue {
    Filter(q, Other(id))
  }

  function Purged(q: Queue, now: int): Queue {
    Filter(q, Unexpired(now))
  }

  /** Only the first entry for `id` is refreshed. */
  function Refreshed(q: Queue, id: string, now: int): Queue {
    if q == [] then []
    else if q[0].identity == id then [q[0].(when := now + LIFETIME)] + q[1..]
    else [q[0]] + Refreshed(q[1..], id, now)
  }

  lemma {:induction false} FilterAppend(q: Queue, w: Worker, keep: Worker -> bool)
    ensures Filter(q + [w], keep) == Filter(q, keep) + if keep(w) then [w] else []
  {
    if q == [] {
      assert Filter([w], keep) == (if keep(w) then [w] else []) + Filter([], keep);
    } else {
      assert (q + [w])[0] == q[0] && (q + [w])[1..] == q[1..] + [w];
      FilterAppend(q[1..], w, keep);
      ConcatAssoc(if keep(q[0]) then [q[0]] else [], Filter(q[1..], keep), if keep(w) then [w] else []);
    }
  }

  lemma {:induction false} RefreshedAt(q: Queue, id: string, now: int, k: nat)
    requires k <= |q| && (k < |q| ==> q[k].identity == id)
    requires forall i :: 0 <= i < k ==> q[i].identity != id
    ensures Refreshed(q, id, now) == if k < |q| then q[k := q[k].(when := now + LIFETIME)] else q
  {
    if k == 0 {
    } else {
      assert k < |q| ==> q[1..][k - 1] == q[k];
      RefreshedAt(q[1..], id, now, k - 1);
      if k < |q| {
        UpdateBehind(q, k, q[k].(when := now + LIFETIME));
      }
    }
  }

  lemma UpdateBehind<T>(q: seq<T>, k: nat, x: T)
    requires 0 < k < |q|
    ensures [q[0]] + q[1..][k - 1 := x] == q[k := x]
  {
  }

  class WorkerQueue {
    var queue: Queue

    constructor ()
      ensures queue == []
    {
      queue := [];
    }

    method Size() returns (n: nat)
      ensures n == |queue|
    {
      n := |queue|;
    }

    /** The position of the first entry for `id`, or the end. */
    method Find(id: string) returns (k: nat)
      ensures k <= |queue| && (k < |queue| ==> queue[k].identity == id)
      ensures forall i :: 0 <= i < k ==> queue[i].identity != id
    {
      k := 0;
      while k < |queue| && queue[k].identity != id
        invariant k <= |queue|
        invariant forall i :: 0 <= i < k ==> queue[i].identity != id
      {
        k := k + 1;
      }
    }

    /** A worker already queued keeps its place and its expiry. */
    method Push(id: string, now: int)
      modifies this
      ensures queue == Pushed(old(queue), id, now)
    {
      var k := Find(id);
      if k == |queue| {
        queue := queue + [Worker(id, now + LIFETIME)];
      }
    }

    method Erase(id: string)
      modifies this
      ensures queue == Erased(old(queue), id)
    {
      var kept := [];
      for i := 0 to |queue|
        invariant queue == old(queue)
        invariant kept == Erased(queue[..i], id)
      {
        assert queue[..i + 1] == queue[..i] + [queue[i]];
        FilterAppend(queue[..i], queue[i], Other(id));
        if queue[i].identity != id {
          kept := kept + [queue[i]];
        }
      }
      assert queue[..|queue|] == queue;
      queue := kept;
    }

    method Refresh(id: string, now: int)
      modifies this
      ensures queue == Refreshed(old(queue), id, now)
    {
      var k := Find(id);
      RefreshedAt(queue, id, now, k);
      if k < |queue| {
        queue := queue[k := queue[k].(when := now + LIFETIME)];
      }
    }

    method Pop() returns (id: string)
      requires queue != []
      modifies this
      ensures id == old(queue)[0].identity && queue == old(queue)[1..]
    {
      id := queue[0].identity;
      queue := queue[1..];
    }

    method Purge(now: int)
      modifies this
      ensures queue == Purged(old(queue), now)
    {
      var kept := [];
      for i := 0 to |queue|
        invariant queue == old(queue)
        invariant kept == Purged(queue[..i], now)
      {
        assert queue[..i + 1] == queue[..i] + [queue[i]];
        FilterAppend(queue[..i], queue[i], Unexpired(now));
        if queue[i].when >= now {
          kept := kept + [queue[i]];
        }
      }
      assert queue[..|queue|] == queue;
      queue := kept;
    }
  }

  // ------------------------------------------------------------------ what the queue refines

  /** When a worker joined, as a serial number, and when it expires. */
  datatype Entry = Entry(joined: nat, when: int)

  datatype Roll = Roll(members: map<string, Entry>, serial: nat)

  datatype Event = Ready(id: string, now: int) | Reply(id: string, now: int) | Heartbeat(id: string, now: int)
                 | Pop | Purge(now: int)

  predicate Possible(q: Queue, e: Event) {
    e.Pop? ==> q != []
  }

  function Next(q: Queue, e: Event): Queue
    requires Possible(q, e)
  {
    match e
    case Ready(id, now) => Pushed(Erased(q, id), id, now)
    case Reply(id, now) => Pushed(q, id, now)
    case Heartbeat(id, now) => Refreshed(q, id, now)
    case Pop => q[1..]
    case Purge(now) => Purged(q, now)
  }

  /** `id` joined before every other member. */
  predicate Longest(r: Roll, id: string) {
    id in r.members && forall x :: x in r.members && x != id ==> r.members[id].joined < r.members[x].joined
  }

  /**
    The specification: READY joins anew, a reply joins only if absent, a heartbeat prolongs, a pop
    takes a member that waited longest, a purge takes exactly the expired.
   */
  ghost predicate RollNext(r: Roll, e: Event, r': Roll) {
    match e
    case Ready(id, now) =>
      r' == Roll(r.members[id := Entry(r.serial, now + LIFETIME)], r.serial + 1)
    case Reply(id, now) =>
      r' == if id in r.members then r else Roll(r.members[id := Entry(r.serial, now + LIFETIME)], r.serial + 1)
    case Heartbeat(id, now) =>
      r' == if id in r.members then r.(members := r.members[id := r.members[id].(when := now + LIFETIME)]) else r
    case Pop => exists id :: Longest(r, id) && r' == r.(members := r.members - {id})
    case Purge(now) => r' == r.(members := map id | id in r.members && r.members[id].when >= now :: r.members[id])
  }

  /** The queue lists the members in the order in which they joined. */
  ghost predicate Refines(q: Queue, r: Roll) {
    && (forall i :: 0 <= i < |q| ==>
      q[i].identity in r.members && r.members[q[i].identity].when == q[i].when &&
      r.members[q[i].identity].joined < r.serial)
    && (forall i, j :: 0 <= i < j < |q| ==>
      q[i].identity in r.members && q[j].identity in r.members &&
      r.members[q[i].identity].joined < r.members[q[j].identity].joined)
    && (forall id {:trigger Has(q, id)} :: id in r.members ==> Has(q, id))
  }

  lemma RefinesDistinct(q: Queue, r: Roll)
    requires Refines(q, r)
    ensures Distinct(q)
  {
  }

  /** Where the `i`-th entry of a filtered queue stood before. */
  function Origin(q: Queue, keep: Worker -> bool, i: nat): (k: nat)
    requires i < |Filter(q, keep)|
    ensures k < |q| && q[k] == Filter(q, keep)[i] && keep(q[k])
  {
    if keep(q[0]) then
      if i == 0 then 0 else 1 + Origin(q[1..], keep, i - 1)
    else 1 + Origin(q[1..], keep, i)
  }

  lemma {:induction false} OriginGrows(q: Queue, keep: Worker -> bool, i: nat, j: nat)
    requires i < j < |Filter(q, keep)|
    ensures Origin(q, keep, i) < Origin(q, keep, j)
  {
    if keep(q[0]) {
      if i > 0 {
        OriginGrows(q[1..], keep, i - 1, j - 1);
      }
    } else {
      OriginGrows(q[1..], keep, i, j);
    }
  }

  lemma {:induction false} FilterHas(q: Queue, keep: Worker -> bool, k: nat)
    requires k < |q| && keep(q[k])
    ensures Has(Filter(q, keep), q[k].identity)
  {
    var f := Filter(q, keep);
    if k == 0 {
      assert f[0] == q[0];
    } else {
      FilterHas(q[1..], keep, k - 1);
      var g := Filter(q[1..], keep);
      var i :| 0 <= i < |g| && g[i].identity == q[k].identity;
      assert f[if keep(q[0]) then i + 1 else i] == g[i];
    }
  }

  /** `members` are the members of `r` whose entries in `q` pass `keep`. */
  ghost predicate Kept(q: Queue, r: Roll, keep: Worker -> bool, members: map<string, Entry>) {
    && (forall i :: 0 <= i < |q| ==> (q[i].identity in members <==> keep(q[i])))
    && (forall id :: id in members ==> id in r.members && members[id] == r.members[id])
  }

  lemma KeptEntry(q: Queue, r: Roll, keep: Worker -> bool, members: map<string, Entry>, i: nat)
    requires Refines(q, r) && Kept(q, r, keep, members) && i < |Filter(q, keep)|
    ensures var w := Filter(q, keep)[i];
            w.identity in members && members[w.identity].when == w.when && members[w.identity].joined < r.serial
  {
    var k := Origin(q, keep, i);
  }

  lemma KeptOrder(q: Queue, r: Roll, keep: Worker -> bool, members: map<string, Entry>, i: nat, j: nat)
    requires Refines(q, r) && Kept(q, r, keep, members) && i < j < |Filter(q, keep)|
    ensures var a, b := Filter(q, keep)[i].identity, Filter(q, keep)[j].identity;
            a in members && b in members && members[a].joined < members[b].joined
  {
    OriginGrows(q, keep, i, j);
    var k, l := Origin(q, keep, i), Origin(q, keep, j);
  }

  lemma KeptMember(q: Queue, r: Roll, keep: Worker -> bool, members: map<string, Entry>, id: string)
    requires Refines(q, r) && Kept(q, r, keep, members) && id in members
    ensures Has(Filter(q, keep), id)
  {
    assert Has(q, id);
    var k :| 0 <= k < |q| && q[k].identity == id;
    FilterHas(q, keep, k);
  }

  /** Dropping some entries in order refines dropping the same members. */
  lemma RefinesFilter(q: Queue, r: Roll, keep: Worker -> bool, members: map<string, Entry>)
    requires Refines(q, r) && Kept(q, r, keep, members)
    ensures Refines(Filter(q, keep), r.(members := members))
  {
    var f := Filter(q, keep);
    forall i | 0 <= i < |f|
      ensures f[i].identity in members && members[f[i].identity].when == f[i].when &&
              members[f[i].identity].joined < r.serial
    {
      KeptEntry(q, r, keep, members, i);
    }
    forall i, j | 0 <= i < j < |f|
      ensures f[i].identity in members && f[j].identity in members &&
              members[f[i].identity].joined < members[f[j].identity].joined
    {
      KeptOrder(q, r, keep, members, i, j);
    }
    forall id | id in members ensures Has(f, id) {
      KeptMember(q, r, keep, members, id);
    }
  }

  lemma ErasedRefines(q: Queue, r: Roll, id: string)
    requires Refines(q, r)
    ensures Refines(Erased(q, id), r.(members := r.members - {id}))
  {
    RefinesFilter(q, r, Other(id), r.members - {id});
  }

  lemma PushedRefines(q: Queue, r: Roll, id: string, now: int)
    requires Refines(q, r) && id !in r.members
    ensures Refines(Pushed(q, id, now), Roll(r.members[id := Entry(r.serial, now + LIFETIME)], r.serial + 1))
  {
    var q' := q + [Worker(id, now + LIFETIME)];
    assert Pushed(q, id, now) == q';
    var members := r.members[id := Entry(r.serial, now + LIFETIME)];
    forall x | x in members ensures Has(q', x) {
      if x == id {
        assert q'[|q|].identity == id;
      } else {
        assert Has(q, x);
        var i :| 0 <= i < |q| && q[i].identity == x;
        assert q'[i].identity == x;
      }
    }
  }

  lemma ReadyRefines(q: Queue, r: Roll, id: string, now: int)
    requires Refines(q, r)
    ensures Refines(Next(q, Ready(id, now)), Roll(r.members[id := Entry(r.serial, now + LIFETIME)], r.serial + 1))
  {
    ErasedRefines(q, r, id);
    var r' := r.(members := r.members - {id});
    PushedRefines(Erased(q, id), r', id, now);
    Replaced(r.members, id, Entry(r.serial, now + LIFETIME));
  }

  lemma Replaced(m: map<string, Entry>, id: string, e: Entry)
    ensures (m - {id})[id := e] == m[id := e]
  {
  }

  lemma HeartbeatRefines(q: Queue, r: Roll, id: string, now: int)
    requires Refines(q, r) && id in r.members
    ensures Refines(Refreshed(q, id, now),
                    r.(members := r.members[id := r.members[id].(when := now + LIFETIME)]))
  {
    assert Has(q, id);
    var k :| 0 <= k < |q| && q[k].identity == id;
    RefinesDistinct(q, r);
    RefreshedAt(q, id, now, k);
    RestampedRefines(q, r, k, now + LIFETIME);
  }

  /** A new expiry for one member changes nobody's place. */
  lemma RestampedRefines(q: Queue, r: Roll, k: nat, when: int)
    requires Refines(q, r) && Distinct(q) && k < |q|
    ensures var id := q[k].identity;
            Refines(q[k := q[k].(when := when)], r.(members := r.members[id := r.members[id].(when := when)]))
  {
    var id := q[k].identity;
    var q' := q[k := q[k].(when := when)];
    var members := r.members[id := r.members[id].(when := when)];
    assert forall x :: x in r.members ==> x in members && members[x].joined == r.members[x].joined;
    forall i | 0 <= i < |q|
      ensures q'[i].identity == q[i].identity && q[i].identity in members && members[q[i].identity].when == q'[i].when
    {
      assert i != k ==> q[i].identity != id;
    }
    SameIdentities(q, q');
  }

  lemma SameIdentities(q: Queue, q': Queue)
    requires |q'| == |q| && forall i :: 0 <= i < |q| ==> q'[i].identity == q[i].identity
    ensures forall x :: Has(q, x) <==> Has(q', x)
  {
    forall x ensures Has(q, x) <==> Has(q', x) {
      if Has(q, x) {
        var i :| 0 <= i < |q| && q[i].identity == x;
        assert q'[i].identity == x;
      }
      if Has(q', x) {
        var i :| 0 <= i < |q'| && q'[i].identity == x;
        assert q[i].identity == x;
      }
    }
  }

  lemma HeartbeatOfStranger(q: Queue, r: Roll, id: string, now: int)
    requires Refines(q, r) && id !in r.members
    ensures Refreshed(q, id, now) == q
  {
    RefreshedAt(q, id, now, |q|);
  }

  lemma PopRefines(q: Queue, r: Roll)
    requires Refines(q, r) && q != []
    ensures Longest(r, q[0].identity)
    ensures Refines(q[1..], r.(members := r.members - {q[0].identity}))
  {
    RefinesDistinct(q, r);
    var id := q[0].identity;
    forall x | x in r.members && x != id
      ensures r.members[id].joined < r.members[x].joined
    {
      assert Has(q, x);
      var i :| 0 <= i < |q| && q[i].identity == x;
    }
    forall x | x in r.members - {id} ensures Has(q[1..], x) {
      assert Has(q, x);
      var i :| 0 <= i < |q| && q[i].identity == x;
      assert q[1..][i - 1].identity == x;
    }
  }

  /** Every operation on the queue is the specified change of the roll. */
  lemma StepRefines(q: Queue, r: Roll, e: Event) returns (r': Roll)
    requires Refines(q, r) && Possible(q, e)
    ensures RollNext(r, e, r') && Refines(Next(q, e), r')
  {
    match e
    case Ready(id, now) =>
      ReadyRefines(q, r, id, now);
      r' := Roll(r.members[id := Entry(r.serial, now + LIFETIME)], r.serial + 1);
    case Reply(id, now) =>
      if id in r.members {
        r' := r;
      } else {
        PushedRefines(q, r, id, now);
        r' := Roll(r.members[id := Entry(r.serial, now + LIFETIME)], r.serial + 1);
      }
    case Heartbeat(id, now) =>
      if id in r.members {
        HeartbeatRefines(q, r, id, now);
        r' := r.(members := r.members[id := r.members[id].(when := now + LIFETIME)]);
      } else {
        HeartbeatOfStranger(q, r, id, now);
        r' := r;
      }
    case Pop =>
      PopRefines(q, r);
      r' := r.(members := r.members - {q[0].identity});
    case Purge(now) =>
      var members := map id | id in r.members && r.members[id].when >= now :: r.members[id];
      RefinesFilter(q, r, Unexpired(now), members);
      r' := r.(members := members);
  }

  predicate PossibleRun(q: Queue, es: seq<Event>)
    decreases |es|
  {
    es == [] || (Possible(q, es[0]) && PossibleRun(Next(q, es[0]), es[1..]))
  }

  function Final(q: Queue, es: seq<Event>): Queue
    requires PossibleRun(q, es)
    decreases |es|
  {
    if es == [] then q else Final(Next(q, es[0]), es[1..])
  }

  ghost predicate RollRun(r: Roll, es: seq<Event>, r': Roll)
    decreases |es|
  {
    if es == [] then r' == r
    else exists m :: RollNext(r, es[0], m) && RollRun(m, es[1..], r')
  }

  /**
    Over any sequence of READY, replies, heartbeats, pops and purges, the queue lists exactly the
    members the specification leaves, each once, in the order in which they last joined.
   */
  lemma {:induction false} QueueRefinesRoll(q: Queue, r: Roll, es: seq<Event>) returns (r': Roll)
    requires Refines(q, r) && PossibleRun(q, es)
    ensures RollRun(r, es, r') && Refines(Final(q, es), r') && Distinct(Final(q, es))
    decreases |es|
  {
    if es == [] {
      r' := r;
      RefinesDistinct(q, r);
    } else {
      var m := StepRefines(q, r, es[0]);
      r' := QueueRefinesRoll(Next(q, es[0]), m, es[1..]);
    }
  }
}
