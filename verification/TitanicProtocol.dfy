/**
  The four Titanic actors running at the same time.

  Every access to a file, the pipe or the queue file is one step, and steps of different actors
  interleave freely.  Clients are constrained in two ways only: uuids are fresh, and a request is
  closed only after some poll for it was answered "200".
 */
module TitanicProtocol {
  import opened Wrappers
  import opened TitanicCodec
  import opened TitanicQueue

  /** request_worker: has saved a request, has put its uuid on the pipe. */
  datatype RequestPc = Receiving | Saved(uuid: string) | Enqueued(uuid: string)

  /** The dispatcher: between scans, at record `k`, waiting for a service, about to write '+'. */
  datatype ScanPc = Waiting | Scanning(k: nat) | Calling(k: nat, request: Message) | Flagging(k: nat) | Dead

  /** reply_worker: has looked for the reply file, and found it or not. */
  datatype ReplyPc = Listening | SawReply(uuid: string) | NoReply(uuid: string)

  /** close_worker: has removed the request file. */
  datatype ClosePc = Open | RequestGone(uuid: string)

  /** A poll, its answer, and whether the request had been closed by the time the answer was made. */
  datatype Poll = Poll(uuid: string, answer: Message, late: bool)

  datatype System = System(
    store: Store, pipe: seq<string>, queue: seq<Record>,
    requestPc: RequestPc, scanPc: ScanPc, replyPc: ReplyPc, closePc: ClosePc,
    // What has happened so far.
    submitted: map<string, Message>, acked: set<string>,
    successes: seq<string>, replies: map<string, Message>, sent: map<string, Message>,
    polled: set<string>, polls: seq<Poll>, delivered: set<string>,
    closing: set<string>, closed: set<string>)

  const START := System(Store(map[], map[]), [], [], Receiving, Waiting, Listening, Open,
                        map[], {}, [], map[], map[], {}, [], {}, {}, {})

  datatype Step =
    | Submit(uuid: string, msg: Message) | Enqueue | Acknowledge
    | Take | PollTimeout | SkipDone | CallBegin | CallEnd(a: Answer) | Flag | ScanEnd
    | PollBegin(uuid: string) | PollEnd
    | CloseBegin(uuid: string) | CloseEnd

  predicate Found(answer: Message) {
    answer != [] && answer[0] == OK
  }

  predicate Enabled(s: System, step: Step) {
    match step
    case Submit(u, msg) => s.requestPc.Receiving? && u !in s.submitted && u !in s.polled && msg != []
    case Enqueue => s.requestPc.Saved?
    case Acknowledge => s.requestPc.Enqueued?
    case Take => s.scanPc.Waiting? && s.pipe != []
    case PollTimeout => s.scanPc.Waiting? && s.pipe == []
    case SkipDone => s.scanPc.Scanning? && s.scanPc.k < |s.queue| && s.queue[s.scanPc.k].done
    case CallBegin => s.scanPc.Scanning? && s.scanPc.k < |s.queue| && !s.queue[s.scanPc.k].done
    case CallEnd(_) => s.scanPc.Calling? && s.scanPc.k < |s.queue|
    case Flag => s.scanPc.Flagging? && s.scanPc.k < |s.queue|
    case ScanEnd => s.scanPc.Scanning? && s.scanPc.k == |s.queue|
    case PollBegin(_) => s.replyPc.Listening?
    case PollEnd => !s.replyPc.Listening?
    case CloseBegin(u) => s.closePc.Open? && u in s.delivered
    case CloseEnd => s.closePc.RequestGone?
  }

  /** The second half of a poll: load the reply file seen before, or look for the request file. */
  function AnswerNow(s: System, u: string): Message {
    if s.replyPc.SawReply? then [OK] + Load(if u in s.store.rep then s.store.rep[u] else "")
    else if u in s.store.req then [NOT_YET]
    else [UNKNOWN]
  }

  /** The poll that ends now. */
  function PollNow(s: System): Poll
    requires !s.replyPc.Listening?
  {
    Poll(s.replyPc.uuid, AnswerNow(s, s.replyPc.uuid), s.replyPc.uuid in s.closed)
  }

  function Apply(s: System, step: Step): System
    requires Enabled(s, step)
  {
    match step
    case Submit(u, msg) =>
      s.(store := s.store.(req := s.store.req[u := Save(msg)]), requestPc := Saved(u),
         submitted := s.submitted[u := msg])
    case Enqueue => s.(pipe := s.pipe + [s.requestPc.uuid], requestPc := Enqueued(s.requestPc.uuid))
    case Acknowledge => s.(acked := s.acked + {s.requestPc.uuid}, requestPc := Receiving)
    case Take => s.(pipe := s.pipe[1..], queue := s.queue + [Record(false, s.pipe[0])], scanPc := Scanning(0))
    case PollTimeout => if s.queue == [] then s else s.(scanPc := Scanning(0))
    case SkipDone => s.(scanPc := Scanning(s.scanPc.k + 1))
    case CallBegin =>
      var request := Request(s.store, s.queue[s.scanPc.k].uuid);
      s.(scanPc := if request == [] then Dead else Calling(s.scanPc.k, request))
    case CallEnd(a) =>
      var u := s.queue[s.scanPc.k].uuid;
      if a.mmi != [] && a.mmi[0] == OK && a.reply != [] then
        s.(store := s.store.(rep := s.store.rep[u := Save(a.reply)]), scanPc := Flagging(s.scanPc.k),
           successes := s.successes + [u], replies := s.replies[u := a.reply], sent := s.sent[u := s.scanPc.request])
      else s.(scanPc := Scanning(s.scanPc.k + 1))
    case Flag => s.(queue := MarkDone(s.queue, s.scanPc.k), scanPc := Scanning(s.scanPc.k + 1))
    case ScanEnd => s.(scanPc := Waiting)
    case PollBegin(u) =>
      s.(polled := s.polled + {u}, replyPc := if u in s.store.rep then SawReply(u) else NoReply(u))
    case PollEnd =>
      var p := PollNow(s);
      s.(polls := s.polls + [p], replyPc := Listening,
         delivered := if Found(p.answer) then s.delivered + {p.uuid} else s.delivered)
    case CloseBegin(u) =>
      s.(store := s.store.(req := s.store.req - {u}), closePc := RequestGone(u), closing := s.closing + {u})
    case CloseEnd =>
      var u := s.closePc.uuid;
      s.(store := s.store.(rep := s.store.rep - {u}), closePc := Open, closed := s.closed + {u})
  }

  predicate Run(s: System, steps: seq<Step>)
    decreases |steps|
  {
    steps == [] || (Enabled(s, steps[0]) && Run(Apply(s, steps[0]), steps[1..]))
  }

  function Final(s: System, steps: seq<Step>): System
    requires Run(s, steps)
    decreases |steps|
  {
    if steps == [] then s else Final(Apply(s, steps[0]), steps[1..])
  }

  // ------------------------------------------------------------------ the invariant

  predicate NoDuplicates(a: seq<string>) {
    forall i, j :: 0 <= i < j < |a| ==> a[i] != a[j]
  }

  function Uuids(rs: seq<Record>): (a: seq<string>)
    ensures |a| == |rs| && forall i :: 0 <= i < |a| ==> a[i] == rs[i].uuid
  {
    seq(|rs|, i requires 0 <= i < |rs| => rs[i].uuid)
  }

  /** Every request in the order of its arrival: on disk, on the pipe, or about to be put there. */
  function Track(s: System): seq<string> {
    Uuids(s.queue) + s.pipe + if s.requestPc.Saved? then [s.requestPc.uuid] else []
  }

  ghost predicate TrackOk(s: System) {
    && NoDuplicates(Track(s))
    && (forall u :: u in s.submitted <==> u in Track(s))
    && (s.requestPc.Enqueued? ==> s.requestPc.uuid in s.submitted)
    && s.acked <= s.submitted.Keys
    && (s.requestPc.Saved? ==> s.requestPc.uuid !in s.acked)
  }

  predicate PcOk(s: System) {
    && !s.scanPc.Dead?
    && (s.scanPc.Scanning? ==> s.scanPc.k <= |s.queue|)
    && (s.scanPc.Calling? || s.scanPc.Flagging? ==> s.scanPc.k < |s.queue| && !s.queue[s.scanPc.k].done)
    && (s.scanPc.Calling? ==>
      var u := s.queue[s.scanPc.k].uuid;
      u !in s.replies && u in s.submitted && s.scanPc.request == Load(Save(s.submitted[u])))
  }

  /** Outside the moment between saving a reply and flagging it, '+' and a saved reply go together. */
  predicate FlagsOk(s: System) {
    forall i :: 0 <= i < |s.queue| ==>
      (s.queue[i].uuid in s.replies <==> s.queue[i].done || s.scanPc == Flagging(i))
  }

  ghost predicate SuccessesOk(s: System) {
    && NoDuplicates(s.successes)
    && (forall u :: u in s.successes <==> u in s.replies)
    && s.replies.Keys == s.sent.Keys
    && s.replies.Keys <= s.submitted.Keys
    && (forall u :: u in s.replies ==> u in Uuids(s.queue))
    && (forall u :: u in s.sent ==> s.sent[u] == Load(Save(s.submitted[u])))
  }

  predicate FilesOk(s: System) {
    && s.store.req.Keys == s.submitted.Keys - s.closing
    && s.store.rep.Keys == s.replies.Keys - s.closed
    && (forall u :: u in s.store.req ==> s.store.req[u] == Save(s.submitted[u]))
    && (forall u :: u in s.store.rep ==> s.store.rep[u] == Save(s.replies[u]))
    && s.closing == s.closed + (if s.closePc.RequestGone? then {s.closePc.uuid} else {})
    && s.closing <= s.delivered <= s.replies.Keys
    && (forall u :: u in s.submitted ==> s.submitted[u] != [])
  }

  predicate PollsOk(s: System) {
    && (forall i :: 0 <= i < |s.polls| ==> s.polls[i].uuid in s.polled)
    && (forall i :: 0 <= i < |s.polls| && Found(s.polls[i].answer) ==> s.polls[i].uuid in s.delivered)
    && (forall i :: 0 <= i < |s.polls| && Unknown(s.polls[i].answer) ==>
      s.polls[i].uuid in s.closed || s.polls[i].uuid !in s.submitted)
  }

  predicate Unknown(answer: Message) {
    answer == [UNKNOWN]
  }

  predicate ReplyOk(s: System) {
    && (!s.replyPc.Listening? ==> s.replyPc.uuid in s.polled)
    && (s.replyPc.SawReply? ==> s.replyPc.uuid in s.replies)
    && (s.replyPc.SawReply? ==>
      forall i :: 0 <= i < |s.polls| && s.polls[i].uuid == s.replyPc.uuid ==> !Unknown(s.polls[i].answer))
    && (s.replyPc.NoReply? ==>
      s.replyPc.uuid in s.closed || s.replyPc.uuid !in s.submitted || s.replyPc.uuid !in s.delivered)
  }

  ghost predicate Inv(s: System) {
    TrackOk(s) && PcOk(s) && FlagsOk(s) && SuccessesOk(s) && FilesOk(s) && PollsOk(s) && ReplyOk(s)
  }

  // ------------------------------------------------------------------ every step keeps the invariant

  /** A step only ever appends a fresh uuid to the track; moving one along leaves it as it is. */
  lemma TrackMoves(s: System, step: Step)
    requires Enabled(s, step)
    ensures Track(Apply(s, step)) == if step.Submit? then Track(s) + [step.uuid] else Track(s)
  {
    var t := Apply(s, step);
    match step
    case Submit(u, _) => assert Track(s) == Uuids(s.queue) + s.pipe;
    case Take =>
      assert Uuids(t.queue) == Uuids(s.queue) + [s.pipe[0]];
      assert s.pipe == [s.pipe[0]] + t.pipe;
    case Flag => assert Uuids(t.queue) == Uuids(s.queue);
    case _ =>
  }

  lemma TrackStep(s: System, step: Step)
    requires TrackOk(s) && Enabled(s, step)
    ensures TrackOk(Apply(s, step))
  {
    TrackMoves(s, step);
    var a := Track(s);
    if step.Enqueue? {
      assert a[|a| - 1] == s.requestPc.uuid;
    }
  }

  /** Where the uuids of the queue file and of the pipe stand in the track. */
  lemma TrackIndex(s: System)
    ensures |Track(s)| >= |s.queue| + |s.pipe|
    ensures forall i :: 0 <= i < |s.queue| ==> Track(s)[i] == s.queue[i].uuid
    ensures forall j :: 0 <= j < |s.pipe| ==> Track(s)[|s.queue| + j] == s.pipe[j]
    ensures s.requestPc.Saved? ==>
              |Track(s)| == |s.queue| + |s.pipe| + 1 && Track(s)[|Track(s)| - 1] == s.requestPc.uuid
  {
  }

  lemma TrackMembers(s: System)
    requires TrackOk(s)
    ensures forall i :: 0 <= i < |s.queue| ==> s.queue[i].uuid in s.submitted
    ensures forall j :: 0 <= j < |s.pipe| ==> s.pipe[j] in s.submitted
  {
    TrackIndex(s);
    forall i | 0 <= i < |s.queue| ensures s.queue[i].uuid in s.submitted {
      assert Track(s)[i] in Track(s);
    }
    forall j | 0 <= j < |s.pipe| ensures s.pipe[j] in s.submitted {
      assert Track(s)[|s.queue| + j] in Track(s);
    }
  }

  lemma TrackDistinct(s: System)
    requires NoDuplicates(Track(s))
    ensures forall i, j :: 0 <= i < j < |s.queue| ==> s.queue[i].uuid != s.queue[j].uuid
    ensures forall i, j :: 0 <= i < |s.queue| && 0 <= j < |s.pipe| ==> s.queue[i].uuid != s.pipe[j]
    ensures s.requestPc.Saved? ==>
              s.requestPc.uuid !in s.pipe && forall i :: 0 <= i < |s.queue| ==> s.queue[i].uuid != s.requestPc.uuid
  {
    TrackIndex(s);
    forall i, j | 0 <= i < j < |s.queue| ensures s.queue[i].uuid != s.queue[j].uuid {
      assert Track(s)[i] != Track(s)[j];
    }
    forall i, j | 0 <= i < |s.queue| && 0 <= j < |s.pipe| ensures s.queue[i].uuid != s.pipe[j] {
      assert Track(s)[i] != Track(s)[|s.queue| + j];
    }
    if s.requestPc.Saved? {
      forall i | 0 <= i < |s.queue| ensures s.queue[i].uuid != s.requestPc.uuid {
        assert Track(s)[i] != Track(s)[|Track(s)| - 1];
      }
      forall j | 0 <= j < |s.pipe| ensures s.pipe[j] != s.requestPc.uuid {
        assert Track(s)[|s.queue| + j] != Track(s)[|Track(s)| - 1];
      }
    }
  }

  /** What the track says about the queue file and the pipe. */
  lemma TrackAt(s: System)
    requires TrackOk(s)
    ensures forall i :: 0 <= i < |s.queue| ==> s.queue[i].uuid in s.submitted
    ensures forall i, j :: 0 <= i < j < |s.queue| ==> s.queue[i].uuid != s.queue[j].uuid
    ensures forall i, j :: 0 <= i < |s.queue| && 0 <= j < |s.pipe| ==> s.queue[i].uuid != s.pipe[j]
    ensures forall j :: 0 <= j < |s.pipe| ==> s.pipe[j] in s.submitted
    ensures s.requestPc.Saved? ==>
              s.requestPc.uuid !in s.pipe && forall i :: 0 <= i < |s.queue| ==> s.queue[i].uuid != s.requestPc.uuid
  {
    TrackMembers(s);
    TrackDistinct(s);
  }

  lemma PcBegin(s: System)
    requires TrackOk(s) && PcOk(s) && FlagsOk(s) && FilesOk(s) && Enabled(s, CallBegin)
    ensures PcOk(Apply(s, CallBegin))
  {
    TrackAt(s);
    var u := s.queue[s.scanPc.k].uuid;
    assert u in s.store.req;
    LoadSaves(s.submitted[u]);
  }

  lemma PcStep(s: System, step: Step)
    requires Inv(s) && Enabled(s, step)
    ensures PcOk(Apply(s, step))
  {
    if step.CallBegin? {
      PcBegin(s);
    }
  }

  /** A saved message with parts loads as one with parts. */
  lemma LoadSaves(m: Message)
    requires m != []
    ensures Load(Save(m)) != []
  {
    assert Save(m) != "";
  }

  lemma FlagsTake(s: System)
    requires TrackOk(s) && SuccessesOk(s) && FlagsOk(s) && Enabled(s, Take)
    ensures FlagsOk(Apply(s, Take))
  {
    NotYetAnswered(s, s.pipe[0]);
    var t := Apply(s, Take);
    assert forall i :: 0 <= i < |s.queue| ==> t.queue[i] == s.queue[i];
  }

  lemma FlagsEnd(s: System, a: Answer)
    requires TrackOk(s) && PcOk(s) && FlagsOk(s) && Enabled(s, CallEnd(a))
    ensures FlagsOk(Apply(s, CallEnd(a)))
  {
    TrackAt(s);
  }

  lemma FlagsStep(s: System, step: Step)
    requires TrackOk(s) && SuccessesOk(s) && PcOk(s) && FlagsOk(s) && Enabled(s, step)
    ensures FlagsOk(Apply(s, step))
  {
    match step
    case Take => FlagsTake(s);
    case CallEnd(a) => FlagsEnd(s, a);
    case _ =>
  }

  /** A request still on the pipe has no reply. */
  lemma NotYetAnswered(s: System, u: string)
    requires TrackOk(s) && SuccessesOk(s) && u in s.pipe
    ensures u !in s.replies
  {
    TrackAt(s);
    assert forall i :: 0 <= i < |s.queue| ==> Uuids(s.queue)[i] != u;
  }

  /** No step takes a request out of the queue file. */
  lemma QueueKeeps(s: System, step: Step)
    requires Enabled(s, step)
    ensures |s.queue| <= |Apply(s, step).queue|
    ensures forall u :: u in Uuids(s.queue) ==> u in Uuids(Apply(s, step).queue)
  {
    var t := Apply(s, step);
    forall u | u in Uuids(s.queue) ensures u in Uuids(t.queue) {
      var i :| 0 <= i < |s.queue| && Uuids(s.queue)[i] == u;
      assert Uuids(t.queue)[i] == u;
    }
  }

  lemma NoDuplicatesAppend(a: seq<string>, u: string)
    requires NoDuplicates(a) && u !in a
    ensures NoDuplicates(a + [u])
  {
  }

  lemma SuccessesEnd(s: System, a: Answer)
    requires PcOk(s) && SuccessesOk(s) && Enabled(s, CallEnd(a))
    ensures SuccessesOk(Apply(s, CallEnd(a)))
  {
    var u := s.queue[s.scanPc.k].uuid;
    assert Uuids(s.queue)[s.scanPc.k] == u;
    NoDuplicatesAppend(s.successes, u);
  }

  lemma SuccessesStep(s: System, step: Step)
    requires Inv(s) && Enabled(s, step)
    ensures SuccessesOk(Apply(s, step))
  {
    if step.CallEnd? {
      SuccessesEnd(s, step.a);
    } else {
      QueueKeeps(s, step);
    }
  }

  lemma FilesSubmit(s: System, u: string, msg: Message)
    requires FilesOk(s) && s.replies.Keys <= s.submitted.Keys && Enabled(s, Submit(u, msg))
    ensures FilesOk(Apply(s, Submit(u, msg)))
  {
    var t := Apply(s, Submit(u, msg));
    assert t.store.req.Keys == s.store.req.Keys + {u};
    assert t.submitted.Keys == s.submitted.Keys + {u};
  }

  lemma FilesEnd(s: System, a: Answer)
    requires PcOk(s) && FilesOk(s) && Enabled(s, CallEnd(a))
    ensures FilesOk(Apply(s, CallEnd(a)))
  {
    var t := Apply(s, CallEnd(a));
    var u := s.queue[s.scanPc.k].uuid;
    assert u !in s.closed;
    if t.scanPc.Flagging? {
      assert t.store.rep.Keys == s.store.rep.Keys + {u};
      assert t.replies.Keys == s.replies.Keys + {u};
    }
  }

  lemma FilesCloseBegin(s: System, u: string)
    requires FilesOk(s) && Enabled(s, CloseBegin(u))
    ensures FilesOk(Apply(s, CloseBegin(u)))
  {
    var t := Apply(s, CloseBegin(u));
    assert t.store.req.Keys == s.store.req.Keys - {u};
  }

  lemma FilesCloseEnd(s: System)
    requires FilesOk(s) && Enabled(s, CloseEnd)
    ensures FilesOk(Apply(s, CloseEnd))
  {
    var t := Apply(s, CloseEnd);
    assert t.store.rep.Keys == s.store.rep.Keys - {s.closePc.uuid};
  }

  lemma FilesStep(s: System, step: Step)
    requires Inv(s) && Enabled(s, step)
    ensures FilesOk(Apply(s, step))
  {
    match step
    case Submit(u, msg) => FilesSubmit(s, u, msg);
    case CallEnd(a) => FilesEnd(s, a);
    case CloseBegin(u) => FilesCloseBegin(s, u);
    case CloseEnd => FilesCloseEnd(s);
    case _ =>
  }

  lemma PollsEnd(s: System)
    requires FilesOk(s) && PollsOk(s) && ReplyOk(s) && Enabled(s, PollEnd)
    ensures PollsOk(Apply(s, PollEnd))
  {
    var u := s.replyPc.uuid;
    assert Unknown(PollNow(s).answer) ==> u in s.closed || u !in s.submitted;
  }

  lemma PollsStep(s: System, step: Step)
    requires FilesOk(s) && PollsOk(s) && ReplyOk(s) && Enabled(s, step)
    ensures PollsOk(Apply(s, step))
  {
    if step.PollEnd? {
      PollsEnd(s);
    }
  }

  lemma ReplyBegin(s: System, u: string)
    requires FilesOk(s) && PollsOk(s) && s.replies.Keys <= s.submitted.Keys && Enabled(s, PollBegin(u))
    ensures ReplyOk(Apply(s, PollBegin(u)))
  {
    assert u in s.store.rep ==> u in s.replies && u in s.submitted && u !in s.closed;
  }

  lemma ReplyStep(s: System, step: Step)
    requires FilesOk(s) && PollsOk(s) && ReplyOk(s) && s.replies.Keys <= s.submitted.Keys && Enabled(s, step)
    ensures ReplyOk(Apply(s, step))
  {
    if step.PollBegin? {
      ReplyBegin(s, step.uuid);
    }
  }

  lemma InvStep(s: System, step: Step)
    requires Inv(s) && Enabled(s, step)
    ensures Inv(Apply(s, step))
  {
    TrackStep(s, step);
    PcStep(s, step);
    FlagsStep(s, step);
    SuccessesStep(s, step);
    FilesStep(s, step);
    PollsStep(s, step);
    ReplyStep(s, step);
  }

  lemma {:induction false} InvRun(s: System, steps: seq<Step>)
    requires Inv(s) && Run(s, steps)
    ensures Inv(Final(s, steps))
    decreases |steps|
  {
    if steps == [] {
    } else {
      InvStep(s, steps[0]);
      InvRun(Apply(s, steps[0]), steps[1..]);
    }
  }

  lemma StartInv()
    ensures Inv(START)
  {
    assert Track(START) == [];
  }

  // ------------------------------------------------------------------ theorems over every run

  /** How often `u` occurs in `a`. */
  function Occurrences(a: seq<string>, u: string): nat {
    multiset(a)[u]
  }

  lemma {:induction false} OccursOnce(a: seq<string>, u: string)
    requires NoDuplicates(a)
    ensures Occurrences(a, u) == if u in a then 1 else 0
  {
    if a == [] {
    } else {
      assert a == [a[0]] + a[1..];
      OccursOnce(a[1..], u);
      if a[0] == u {
        assert u !in a[1..];
      }
    }
  }

  lemma SplitTrack(a: seq<string>, last: seq<string>, u: string)
    requires NoDuplicates(a + last) && u in a + last && u !in last
    ensures NoDuplicates(a) && u in a
  {
    forall i, j | 0 <= i < j < |a| ensures a[i] != a[j] {
      assert (a + last)[i] != (a + last)[j];
    }
  }

  lemma OnTrackOnce(t: System, u: string)
    requires TrackOk(t) && u in t.acked
    ensures Occurrences(t.pipe, u) + Occurrences(Uuids(t.queue), u) == 1
  {
    var a := Uuids(t.queue) + t.pipe;
    SplitTrack(a, if t.requestPc.Saved? then [t.requestPc.uuid] else [], u);
    OccursOnce(a, u);
  }

  /**
    No acknowledged request is lost or queued twice: its uuid is in the pipe or in the queue file,
    once over both.
   */
  lemma AcknowledgedOnce(steps: seq<Step>, u: string)
    requires Run(START, steps) && u in Final(START, steps).acked
    ensures var t := Final(START, steps);
            Occurrences(t.pipe, u) + Occurrences(Uuids(t.queue), u) == 1
  {
    StartInv();
    InvRun(START, steps);
    OnTrackOnce(Final(START, steps), u);
  }

  /** The dispatcher never finds a pending record without a request to send, so it never dies. */
  lemma DispatcherNeverThrows(steps: seq<Step>)
    requires Run(START, steps)
    ensures var t := Final(START, steps);
            && !t.scanPc.Dead?
            && forall i :: 0 <= i < |t.queue| && !t.queue[i].done && t.scanPc != Flagging(i) ==>
                 t.queue[i].uuid in t.submitted && Request(t.store, t.queue[i].uuid) != [] &&
                 Request(t.store, t.queue[i].uuid) == Load(Save(t.submitted[t.queue[i].uuid]))
  {
    StartInv();
    InvRun(START, steps);
    var t := Final(START, steps);
    TrackAt(t);
    forall i | 0 <= i < |t.queue| && !t.queue[i].done && t.scanPc != Flagging(i)
      ensures t.queue[i].uuid in t.submitted && Request(t.store, t.queue[i].uuid) != []
      ensures Request(t.store, t.queue[i].uuid) == Load(Save(t.submitted[t.queue[i].uuid]))
    {
      assert t.queue[i].uuid in t.store.req;
      LoadSaves(t.submitted[t.queue[i].uuid]);
    }
  }

  /**
    Each request is performed successfully at most once, on the frames the client submitted, and
    outside the moment between saving a reply and flagging it, a record is '+' exactly when its
    reply was saved.
   */
  lemma PerformedAtMostOnce(steps: seq<Step>, u: string)
    requires Run(START, steps)
    ensures var t := Final(START, steps);
            && Occurrences(t.successes, u) <= 1
            && (Occurrences(t.successes, u) == 1 ==>
                  u in t.submitted && u in t.sent && (OneLinePerPart(t.submitted[u]) ==> t.sent[u] == t.submitted[u]))
            && (!t.scanPc.Flagging? ==>
                  forall i :: 0 <= i < |t.queue| ==> (t.queue[i].done <==> t.queue[i].uuid in t.successes))
  {
    StartInv();
    InvRun(START, steps);
    var t := Final(START, steps);
    OccursOnce(t.successes, u);
    SentIntact(t, u);
  }

  lemma SentIntact(t: System, u: string)
    requires SuccessesOk(t)
    ensures u in t.successes ==>
              u in t.submitted && u in t.sent && (OneLinePerPart(t.submitted[u]) ==> t.sent[u] == t.submitted[u])
  {
    if u in t.successes {
      LoadSave(t.submitted[u]);
    }
  }

  /** Some call was answered 200 by the service lookup, and `reply` by the service. */
  predicate BrokerGave(steps: seq<Step>, reply: Message) {
    exists i :: 0 <= i < |steps| && steps[i].CallEnd? && steps[i].a.mmi != [] && steps[i].a.mmi[0] == "200" &&
                steps[i].a.reply == reply
  }

  lemma BrokerGaveCons(step: Step, rest: seq<Step>, reply: Message)
    requires BrokerGave(rest, reply) || BrokerGave([step], reply)
    ensures BrokerGave([step] + rest, reply)
  {
    var steps := [step] + rest;
    if BrokerGave(rest, reply) {
      var i :| 0 <= i < |rest| && rest[i].CallEnd? && rest[i].a.mmi != [] && rest[i].a.mmi[0] == "200" &&
               rest[i].a.reply == reply;
      assert steps[i + 1] == rest[i];
    } else {
      assert steps[0] == [step][0];
    }
  }

  lemma ReplyFromStep(s: System, step: Step, u: string)
    requires Enabled(s, step) && u in Apply(s, step).replies
    ensures (u in s.replies && s.replies[u] == Apply(s, step).replies[u]) ||
            BrokerGave([step], Apply(s, step).replies[u])
  {
    assert [step][0] == step;
  }

  lemma {:induction false} ReplyFrom(s: System, steps: seq<Step>, u: string)
    requires Run(s, steps) && u in Final(s, steps).replies
    ensures var reply := Final(s, steps).replies[u];
            (u in s.replies && s.replies[u] == reply) || BrokerGave(steps, reply)
    decreases |steps|
  {
    if steps == [] {
    } else {
      var t := Apply(s, steps[0]);
      var reply := Final(s, steps).replies[u];
      ReplyFrom(t, steps[1..], u);
      if !BrokerGave(steps[1..], reply) {
        ReplyFromStep(s, steps[0], u);
      }
      if BrokerGave(steps[1..], reply) || BrokerGave([steps[0]], reply) {
        BrokerGaveCons(steps[0], steps[1..], reply);
        assert [steps[0]] + steps[1..] == steps;
      }
    }
  }

  /**
    In every run, a request succeeds only on a call whose service lookup was answered 200, and what is
    saved is what the service returned to that call; where no lookup is, nothing is performed.
   */
  lemma RepliesComeFromServices(steps: seq<Step>, u: string)
    requires Run(START, steps) && u in Final(START, steps).successes
    ensures var t := Final(START, steps);
            u in t.replies && t.replies[u] != [] && BrokerGave(steps, t.replies[u])
  {
    StartInv();
    InvRun(START, steps);
    HistoryRun(START, steps);
    ReplyFrom(START, steps, u);
  }

  // ------------------------------------------------------------------ what the polls are answered

  function Stage(answer: Message): int {
    if Found(answer) then 1 else if Unknown(answer) then 2 else 0
  }

  /** The answers to polls for a known request never step back: 300, then 200, then 400. */
  predicate Ordered(polls: seq<Poll>, known: set<string>) {
    forall i, j :: 0 <= i < j < |polls| && polls[i].uuid == polls[j].uuid && polls[i].uuid in known ==>
      Stage(polls[i].answer) <= Stage(polls[j].answer)
  }

  predicate Answered(polls: seq<Poll>, u: string) {
    exists i :: 0 <= i < |polls| && polls[i].uuid == u && Found(polls[i].answer)
  }

  /**
    A 200 made before the request was closed carries the service's frames as they were saved; one
    whose reply file was removed in the middle of the poll carries none.  The first is never late.
   */
  predicate RepliesComplete(polls: seq<Poll>, replies: map<string, Message>) {
    forall i :: 0 <= i < |polls| && Found(polls[i].answer) ==>
      var p := polls[i];
      && p.uuid in replies
      && p.answer == [OK] + (if p.late then [] else Load(Save(replies[p.uuid])))
      && (p.late ==> Answered(polls[..i], p.uuid))
  }

  predicate OnlyThreeAnswers(polls: seq<Poll>) {
    forall i :: 0 <= i < |polls| ==>
      Found(polls[i].answer) || Unknown(polls[i].answer) || polls[i].answer == [NOT_YET]
  }

  /** The dispatcher saves no reply without parts. */
  predicate RepliesOk(replies: map<string, Message>) {
    forall u :: u in replies ==> replies[u] != []
  }

  ghost predicate HistoryOk(s: System) {
    && RepliesOk(s.replies)
    && Ordered(s.polls, s.submitted.Keys)
    && OnlyThreeAnswers(s.polls)
    && RepliesComplete(s.polls, s.replies)
    && (forall u :: u in s.delivered ==> Answered(s.polls, u))
  }

  /** What a poll that ends now is answered, given what was answered before. */
  lemma PollAnswer(s: System, u: string)
    requires PcOk(s) && FilesOk(s) && PollsOk(s) && ReplyOk(s)
    requires !s.replyPc.Listening? && s.replyPc.uuid == u
    ensures var answer := AnswerNow(s, u);
            && (Found(answer) || Unknown(answer) || answer == [NOT_YET])
            && (u in s.submitted && answer == [NOT_YET] ==> u !in s.delivered && u !in s.closed)
            && (Found(answer) ==>
                  forall i :: 0 <= i < |s.polls| && s.polls[i].uuid == u ==> !Unknown(s.polls[i].answer))
            && (Found(answer) ==>
                  u in s.replies && answer == [OK] + (if u in s.closed then [] else Load(Save(s.replies[u]))))
  {
    if s.replyPc.SawReply? {
      assert u in s.store.rep <==> u !in s.closed;
    }
  }

  lemma AnsweredAppend(polls: seq<Poll>, p: Poll, u: string)
    ensures Answered(polls + [p], u) <==> Answered(polls, u) || (p.uuid == u && Found(p.answer))
  {
    var q := polls + [p];
    assert forall i :: 0 <= i < |polls| ==> q[i] == polls[i];
    if p.uuid == u && Found(p.answer) {
      assert q[|polls|] == p;
    }
  }

  lemma OrderedEnd(s: System, u: string)
    requires PcOk(s) && FilesOk(s) && PollsOk(s) && ReplyOk(s)
    requires Ordered(s.polls, s.submitted.Keys) && OnlyThreeAnswers(s.polls)
    requires !s.replyPc.Listening? && s.replyPc.uuid == u
    ensures Ordered(s.polls + [PollNow(s)], s.submitted.Keys)
  {
    PollAnswer(s, u);
    forall i | 0 <= i < |s.polls| && s.polls[i].uuid == u && u in s.submitted
      ensures Stage(s.polls[i].answer) <= Stage(AnswerNow(s, u))
    {
    }
  }

  lemma RepliesEnd(s: System)
    requires PcOk(s) && FilesOk(s) && PollsOk(s) && ReplyOk(s) && RepliesComplete(s.polls, s.replies)
    requires forall u :: u in s.delivered ==> Answered(s.polls, u)
    requires !s.replyPc.Listening?
    ensures RepliesComplete(s.polls + [PollNow(s)], s.replies)
  {
    PollAnswer(s, s.replyPc.uuid);
    var polls := s.polls + [PollNow(s)];
    assert forall i :: 0 <= i < |s.polls| ==> polls[i] == s.polls[i] && polls[..i] == s.polls[..i];
    assert polls[..|s.polls|] == s.polls;
  }

  lemma ThreeAnswersEnd(s: System)
    requires FilesOk(s) && PcOk(s) && PollsOk(s) && ReplyOk(s) && OnlyThreeAnswers(s.polls) && !s.replyPc.Listening?
    ensures OnlyThreeAnswers(s.polls + [PollNow(s)])
  {
    PollAnswer(s, s.replyPc.uuid);
  }

  lemma DeliveredEnd(polls: seq<Poll>, delivered: set<string>, p: Poll)
    requires forall u :: u in delivered ==> Answered(polls, u)
    ensures forall u :: u in (if Found(p.answer) then delivered + {p.uuid} else delivered) ==> Answered(polls + [p], u)
  {
    forall u | u in (if Found(p.answer) then delivered + {p.uuid} else delivered) ensures Answered(polls + [p], u) {
      AnsweredAppend(polls, p, u);
    }
  }

  lemma HistoryEnd(s: System)
    requires FilesOk(s) && PcOk(s) && PollsOk(s) && ReplyOk(s) && Enabled(s, PollEnd) && HistoryOk(s)
    ensures HistoryOk(Apply(s, PollEnd))
  {
    OrderedEnd(s, s.replyPc.uuid);
    RepliesEnd(s);
    ThreeAnswersEnd(s);
    DeliveredEnd(s.polls, s.delivered, PollNow(s));
  }

  /** The other steps answer nothing; they may add a fresh request or a first reply. */
  lemma OtherSteps(s: System, step: Step)
    requires PcOk(s) && PollsOk(s) && Enabled(s, step) && !step.PollEnd?
    ensures var t := Apply(s, step);
            && t.polls == s.polls && t.delivered == s.delivered
            && (forall i :: 0 <= i < |s.polls| ==>
                  (s.polls[i].uuid in t.submitted <==> s.polls[i].uuid in s.submitted))
            && (forall u :: u in s.replies ==> u in t.replies && t.replies[u] == s.replies[u])
  {
  }

  lemma RepliesStep(s: System, step: Step)
    requires RepliesOk(s.replies) && Enabled(s, step)
    ensures RepliesOk(Apply(s, step).replies)
  {
  }

  lemma HistoryStep(s: System, step: Step)
    requires Inv(s) && Enabled(s, step) && HistoryOk(s)
    ensures HistoryOk(Apply(s, step))
  {
    if step.PollEnd? {
      HistoryEnd(s);
    } else {
      OtherSteps(s, step);
      RepliesStep(s, step);
    }
  }

  lemma {:induction false} HistoryRun(s: System, steps: seq<Step>)
    requires Inv(s) && HistoryOk(s) && Run(s, steps)
    ensures HistoryOk(Final(s, steps))
    decreases |steps|
  {
    if steps == [] {
    } else {
      HistoryStep(s, steps[0]);
      InvStep(s, steps[0]);
      HistoryRun(Apply(s, steps[0]), steps[1..]);
    }
  }

  /**
    In every run, the answers to the polls for a submitted request read 300, ..., 200, ..., 400, ...;
    a 400 is given only after the request was closed, a 200 only after it was performed.  A 200
    carries the service's frames, as they were saved, exactly when it was made before the request
    was closed; otherwise it carries nothing, and it was not the first.
   */
  lemma PollsReadInOrder(steps: seq<Step>)
    requires Run(START, steps)
    ensures var t := Final(START, steps);
            && Ordered(t.polls, t.submitted.Keys)
            && OnlyThreeAnswers(t.polls)
            && forall i :: 0 <= i < |t.polls| && t.polls[i].uuid in t.submitted ==>
                 var p := t.polls[i];
                 && (Unknown(p.answer) ==> p.uuid in t.closed)
                 && (Found(p.answer) ==>
                       && p.uuid in t.successes && p.uuid in t.replies
                       && (p.answer == [OK] + Load(Save(t.replies[p.uuid])) <==> !p.late)
                       && (p.late ==> p.answer == [OK] && Answered(t.polls[..i], p.uuid)))
                 && (Found(p.answer) && !p.late ==>
                       (p.answer == [OK] + t.replies[p.uuid] <==> OneLinePerPart(t.replies[p.uuid])))
  {
    StartInv();
    InvRun(START, steps);
    HistoryRun(START, steps);
    var t := Final(START, steps);
    forall i | 0 <= i < |t.polls| && Found(t.polls[i].answer)
      ensures var p := t.polls[i];
              && p.uuid in t.replies
              && (p.answer == [OK] + Load(Save(t.replies[p.uuid])) <==> !p.late)
              && (!p.late ==> (p.answer == [OK] + t.replies[p.uuid] <==> OneLinePerPart(t.replies[p.uuid])))
    {
      AnswerFrames(t.polls[i], t.replies[t.polls[i].uuid]);
    }
  }

  lemma AnswerFrames(p: Poll, reply: Message)
    requires reply != [] && p.answer == [OK] + (if p.late then [] else Load(Save(reply)))
    ensures p.answer == [OK] + Load(Save(reply)) <==> !p.late
    ensures !p.late ==> (p.answer == [OK] + reply <==> OneLinePerPart(reply))
  {
    LoadSaves(reply);
    LoadSave(reply);
    assert ([OK] + Load(Save(reply)))[1..] == Load(Save(reply)) && ([OK] + reply)[1..] == reply;
  }

  // ------------------------------------------------------------------ the dispatcher undisturbed

  predicate ByDispatcher(step: Step) {
    step.SkipDone? || step.CallBegin? || step.CallEnd? || step.Flag? || step.ScanEnd?
  }

  predicate AllByDispatcher(steps: seq<Step>) {
    forall i :: 0 <= i < |steps| ==> ByDispatcher(steps[i])
  }

  lemma RunCons(s: System, step: Step, rest: seq<Step>)
    requires Enabled(s, step) && Run(Apply(s, step), rest)
    ensures Run(s, [step] + rest) && Final(s, [step] + rest) == Final(Apply(s, step), rest)
  {
    assert ([step] + rest)[1..] == rest;
  }

  /** `steps` are the dispatcher's and do what a scan of the list from record `k` on does. */
  predicate Performs(s: System, k: nat, steps: seq<Step>, calls: nat -> Answer)
    requires k <= |s.queue|
  {
    && Run(s, steps) && AllByDispatcher(steps)
    && var t := Final(s, steps);
       var r := ScanRecords(s.queue, k, s.store, calls);
       t.queue == r.queue && t.store == r.store && t.scanPc == if r.threw then Dead else Waiting
  }

  lemma PerformsEnd(s: System, calls: nat -> Answer)
    requires s.scanPc == Scanning(|s.queue|)
    ensures Performs(s, |s.queue|, [ScanEnd], calls)
  {
    RunCons(s, ScanEnd, []);
    assert [ScanEnd] + [] == [ScanEnd];
  }

  lemma PerformsSkip(s: System, k: nat, rest: seq<Step>, calls: nat -> Answer)
    requires k < |s.queue| && s.scanPc == Scanning(k) && s.queue[k].done
    requires Performs(Apply(s, SkipDone), k + 1, rest, calls)
    ensures Performs(s, k, [SkipDone] + rest, calls)
  {
    RunCons(s, SkipDone, rest);
  }

  lemma PerformsDeath(s: System, k: nat, calls: nat -> Answer)
    requires k < |s.queue| && s.scanPc == Scanning(k) && !s.queue[k].done && Request(s.store, s.queue[k].uuid) == []
    ensures Performs(s, k, [CallBegin], calls)
  {
    RunCons(s, CallBegin, []);
    assert [CallBegin] + [] == [CallBegin];
  }

  lemma PerformsBegin(s: System, k: nat, rest: seq<Step>, calls: nat -> Answer)
    requires k < |s.queue| && s.scanPc == Scanning(k) && !s.queue[k].done
    requires Performs(Apply(s, CallBegin), k, rest, calls)
    ensures Performs(s, k, [CallBegin] + rest, calls)
  {
    RunCons(s, CallBegin, rest);
  }

  /**
    Left alone, the dispatcher's small steps do to the list what one scan of the queue file does;
    with `ScanRefines` this ties the interleaved protocol to the bytes on disk.
   */
  lemma {:induction false} DispatcherAlone(s: System, calls: nat -> Answer) returns (steps: seq<Step>)
    requires s.scanPc.Scanning? && s.scanPc.k <= |s.queue|
    ensures Run(s, steps) && AllByDispatcher(steps)
    ensures var t := Final(s, steps);
            var r := ScanRecords(s.queue, s.scanPc.k, s.store, calls);
            t.queue == r.queue && t.store == r.store && t.scanPc == if r.threw then Dead else Waiting
    decreases |s.queue| - s.scanPc.k
  {
    var k := s.scanPc.k;
    if k == |s.queue| {
      steps := [ScanEnd];
      PerformsEnd(s, calls);
    } else if s.queue[k].done {
      var rest := DispatcherAlone(Apply(s, SkipDone), calls);
      PerformsSkip(s, k, rest, calls);
      steps := [SkipDone] + rest;
    } else if Request(s.store, s.queue[k].uuid) == [] {
      steps := [CallBegin];
      PerformsDeath(s, k, calls);
    } else {
      var rest := CallAlone(Apply(s, CallBegin), k, calls);
      PerformsBegin(s, k, rest, calls);
      steps := [CallBegin] + rest;
    }
  }

  lemma CallEffect(s: System, k: nat, a: Answer)
    requires k < |s.queue| && s.scanPc == Calling(k, Request(s.store, s.queue[k].uuid)) && s.scanPc.request != []
    ensures var t := Apply(s, CallEnd(a));
            var u := s.queue[k].uuid;
            && t.queue == s.queue && t.store == AfterCall(s.store, u, a) && !Call(s.store, u, a).Threw?
            && t.scanPc == (if Call(s.store, u, a).Succeeded? then Flagging(k) else Scanning(k + 1))
  {
  }

  lemma {:induction false} CallAlone(s: System, k: nat, calls: nat -> Answer) returns (steps: seq<Step>)
    requires k < |s.queue| && !s.queue[k].done
    requires s.scanPc == Calling(k, Request(s.store, s.queue[k].uuid)) && s.scanPc.request != []
    ensures Run(s, steps) && AllByDispatcher(steps)
    ensures var t := Final(s, steps);
            var r := ScanRecords(s.queue, k, s.store, calls);
            t.queue == r.queue && t.store == r.store && t.scanPc == if r.threw then Dead else Waiting
    decreases |s.queue| - k, 0
  {
    CallEffect(s, k, calls(k));
    var s1 := Apply(s, CallEnd(calls(k)));
    if s1.scanPc.Flagging? {
      var s2 := Apply(s1, Flag);
      assert s2.queue == MarkDone(s.queue, k) && s2.store == s1.store;
      steps := DispatcherAlone(s2, calls);
      RunCons(s1, Flag, steps);
      steps := [Flag] + steps;
    } else {
      steps := DispatcherAlone(s1, calls);
    }
    RunCons(s, CallEnd(calls(k)), steps);
    steps := [CallEnd(calls(k))] + steps;
  }

  /**
    Undisturbed, each worker's steps amount to the worker's method: submitting saves and enqueues,
    a poll is answered by the state of the files, closing removes both files.
   */
  lemma UndisturbedWorkers(s: System, u: string, msg: Message)
    ensures Enabled(s, Submit(u, msg)) ==>
              var s1 := Apply(s, Submit(u, msg));
              var t := Apply(Apply(s1, Enqueue), Acknowledge);
              t.store == s.store.(req := s.store.req[u := Save(msg)]) && t.pipe == s.pipe + [u] && u in t.acked
    ensures s.replyPc.Listening? ==>
              Apply(Apply(s, PollBegin(u)), PollEnd).polls == s.polls + [Poll(u, Status(s.store, u), u in s.closed)]
    ensures Enabled(s, CloseBegin(u)) ==>
              Apply(Apply(s, CloseBegin(u)), CloseEnd).store == Closed(s.store, u)
  {
  }

  predicate Answering(a: Answer) {
    a.mmi != [] && a.mmi[0] == OK && a.reply != []
  }

  lemma {:induction false} RunAppend(s: System, a: seq<Step>, b: seq<Step>)
    requires Run(s, a) && Run(Final(s, a), b)
    ensures Run(s, a + b) && Final(s, a + b) == Final(Final(s, a), b)
    decreases |a|
  {
    if a == [] {
      assert a + b == b;
    } else {
      RunAppend(Apply(s, a[0]), a[1..], b);
      RunCons(s, a[0], a[1..] + b);
      assert [a[0]] + (a[1..] + b) == a + b;
    }
  }

  /** The dispatcher takes nothing from the pipe during a scan and does not disturb request_worker. */
  lemma {:induction false} DispatcherKeeps(s: System, steps: seq<Step>)
    requires Run(s, steps) && AllByDispatcher(steps)
    ensures var t := Final(s, steps);
            && t.pipe == s.pipe && t.requestPc == s.requestPc && t.submitted == s.submitted
            && |t.queue| == |s.queue|
    decreases |steps|
  {
    if steps == [] {
    } else {
      assert ByDispatcher(steps[0]);
      DispatcherKeeps(Apply(s, steps[0]), steps[1..]);
    }
  }

  /** A pending record that no call has finished with can be performed. */
  lemma CallsSucceed(s: System, calls: nat -> Answer)
    requires Inv(s) && (forall i :: Answering(calls(i))) && !s.scanPc.Flagging?
    ensures forall i :: 0 <= i < |s.queue| && !s.queue[i].done ==> Call(s.store, s.queue[i].uuid, calls(i)).Succeeded?
  {
    TrackMembers(s);
    forall i | 0 <= i < |s.queue| && !s.queue[i].done
      ensures Call(s.store, s.queue[i].uuid, calls(i)).Succeeded?
    {
      assert s.queue[i].uuid in s.store.req;
      LoadSaves(s.submitted[s.queue[i].uuid]);
    }
  }

  /** A scan that begins performs every request in the queue file. */
  lemma WholeScan(s: System, calls: nat -> Answer) returns (steps: seq<Step>)
    requires Inv(s) && s.scanPc == Scanning(0) && forall i :: Answering(calls(i))
    ensures Run(s, steps) && AllByDispatcher(steps)
    ensures var t := Final(s, steps);
            t.scanPc.Waiting? && forall i :: 0 <= i < |t.queue| ==> t.queue[i].done
  {
    steps := DispatcherAlone(s, calls);
    ScanFlags(s.queue, 0, s.store, calls);
    CallsSucceed(s, calls);
    assert forall i :: 0 <= i < |s.queue| && !s.queue[i].done ==> Completes(s.queue, 0, i, s.store, calls);
  }

  /** A scan that is under way comes to its end, wherever it is. */
  lemma RestOfScan(s: System, calls: nat -> Answer) returns (steps: seq<Step>)
    requires Inv(s) && s.scanPc.Scanning? && forall i :: Answering(calls(i))
    ensures Run(s, steps) && AllByDispatcher(steps) && Final(s, steps).scanPc.Waiting?
  {
    steps := DispatcherAlone(s, calls);
    ScanFlags(s.queue, s.scanPc.k, s.store, calls);
    CallsSucceed(s, calls);
  }

  lemma OneStep(s: System, step: Step)
    requires Enabled(s, step)
    ensures Run(s, [step]) && Final(s, [step]) == Apply(s, step)
  {
    RunCons(s, step, []);
    assert [step] + [] == [step];
  }

  lemma FinishFlag(s: System) returns (steps: seq<Step>)
    requires Enabled(s, Flag)
    ensures Run(s, steps) && AllByDispatcher(steps) && Final(s, steps).scanPc.Scanning?
  {
    OneStep(s, Flag);
    steps := [Flag];
  }

  lemma FinishCall(s: System, a: Answer) returns (steps: seq<Step>)
    requires Enabled(s, CallEnd(a))
    ensures Run(s, steps) && AllByDispatcher(steps) && Final(s, steps).scanPc.Scanning?
  {
    var s1 := Apply(s, CallEnd(a));
    if s1.scanPc.Flagging? {
      steps := FinishFlag(s1);
      RunCons(s, CallEnd(a), steps);
      steps := [CallEnd(a)] + steps;
    } else {
      OneStep(s, CallEnd(a));
      steps := [CallEnd(a)];
    }
  }

  /** A call or a flag under way can be finished. */
  lemma ToScanning(s: System, calls: nat -> Answer) returns (steps: seq<Step>)
    requires PcOk(s)
    ensures Run(s, steps) && AllByDispatcher(steps)
    ensures Final(s, steps).scanPc.Scanning? || Final(s, steps).scanPc.Waiting?
  {
    steps := [];
    if s.scanPc.Calling? {
      steps := FinishCall(s, calls(s.scanPc.k));
    } else if s.scanPc.Flagging? {
      steps := FinishFlag(s);
    }
  }

  /** The dispatcher can always come to rest. */
  lemma ToRest(s: System, calls: nat -> Answer) returns (steps: seq<Step>)
    requires Inv(s) && forall i :: Answering(calls(i))
    ensures Run(s, steps) && AllByDispatcher(steps) && Final(s, steps).scanPc.Waiting?
  {
    steps := ToScanning(s, calls);
    InvRun(s, steps);
    if !Final(s, steps).scanPc.Waiting? {
      var rest := RestOfScan(Final(s, steps), calls);
      RunAppend(s, steps, rest);
      steps := steps + rest;
    }
  }

  /** Everything that was handed in is in the queue file and done. */
  predicate AllServed(s: System) {
    && s.requestPc.Receiving? && s.scanPc.Waiting? && s.pipe == []
    && forall i :: 0 <= i < |s.queue| ==> s.queue[i].done
  }

  /** One turn of the dispatcher: one uuid from the pipe, if there is one, and a whole scan. */
  lemma ServeOne(s: System, calls: nat -> Answer) returns (steps: seq<Step>)
    requires Inv(s) && (forall i :: Answering(calls(i))) && s.scanPc.Waiting? && s.requestPc.Receiving?
    requires s.pipe != [] || s.queue != []
    ensures Run(s, steps)
    ensures var t := Final(s, steps);
            && Inv(t) && t.scanPc.Waiting? && t.requestPc.Receiving? && t.submitted == s.submitted
            && t.pipe == (if s.pipe == [] then [] else s.pipe[1..])
            && forall i :: 0 <= i < |t.queue| ==> t.queue[i].done
  {
    var first := if s.pipe == [] then PollTimeout else Take;
    var s1 := Apply(s, first);
    InvStep(s, first);
    var scan := WholeScan(s1, calls);
    DispatcherKeeps(s1, scan);
    InvRun(s1, scan);
    RunCons(s, first, scan);
    steps := [first] + scan;
  }

  /** With nothing on its way into the pipe, the dispatcher empties the pipe and performs everything. */
  lemma {:induction false} ServePipe(s: System, calls: nat -> Answer) returns (steps: seq<Step>)
    requires Inv(s) && (forall i :: Answering(calls(i))) && s.scanPc.Waiting? && s.requestPc.Receiving?
    ensures Run(s, steps) && AllServed(Final(s, steps)) && Final(s, steps).submitted == s.submitted
    decreases |s.pipe|
  {
    if s.pipe == [] && s.queue == [] {
      steps := [];
    } else {
      steps := ServeOne(s, calls);
      if s.pipe != [] {
        var rest := ServePipe(Final(s, steps), calls);
        RunAppend(s, steps, rest);
        steps := steps + rest;
      }
    }
  }

  /** request_worker can always finish the request it has saved. */
  lemma FinishRequest(s: System) returns (steps: seq<Step>)
    requires Inv(s)
    ensures Run(s, steps)
    ensures var t := Final(s, steps);
            Inv(t) && t.requestPc.Receiving? && t.submitted == s.submitted
  {
    steps := [];
    if s.requestPc.Saved? {
      InvStep(s, Enqueue);
      var s1 := Apply(s, Enqueue);
      InvStep(s1, Acknowledge);
      OneStep(s1, Acknowledge);
      RunCons(s, Enqueue, [Acknowledge]);
      steps := [Enqueue] + [Acknowledge];
    } else if s.requestPc.Enqueued? {
      InvStep(s, Acknowledge);
      OneStep(s, Acknowledge);
      steps := [Acknowledge];
    }
  }

  lemma ServedAll(t: System)
    requires TrackOk(t) && FlagsOk(t) && SuccessesOk(t) && AllServed(t)
    ensures forall u :: u in t.submitted ==> u in t.successes
  {
    forall u | u in t.submitted ensures u in t.successes {
      assert Track(t) == Uuids(t.queue);
      var i :| 0 <= i < |Uuids(t.queue)| && Uuids(t.queue)[i] == u;
      assert t.queue[i].done;
    }
  }

  /**
    Nothing gets stuck: from every reachable state, wherever the four actors are, a broker that
    answers lets every submitted request be performed, those on the pipe and those only just saved
    included.
   */
  lemma EveryRequestCanBePerformed(before: seq<Step>, calls: nat -> Answer) returns (steps: seq<Step>)
    requires Run(START, before) && forall i :: Answering(calls(i))
    ensures Run(Final(START, before), steps)
    ensures var s := Final(START, before);
            var t := Final(s, steps);
            && t.submitted == s.submitted && AllServed(t)
            && forall u :: u in t.submitted ==> u in t.successes
  {
    StartInv();
    InvRun(START, before);
    var s := Final(START, before);
    var finish := FinishRequest(s);
    var s1 := Final(s, finish);
    var rest := ToRest(s1, calls);
    InvRun(s1, rest);
    DispatcherKeeps(s1, rest);
    var serve := ServePipe(Final(s1, rest), calls);
    InvRun(Final(s1, rest), serve);
    RunAppend(s1, rest, serve);
    RunAppend(s, finish, rest + serve);
    steps := finish + (rest + serve);
    ServedAll(Final(s, steps));
  }
}
