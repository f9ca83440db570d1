/**
  Titanic's disk state: the `.req` and `.rep` files, and the queue file that the dispatcher
  scans and flags in place.

  The queue file is bytes.  `ScanBytes` is the scan as the program performs it, by position and
  stride; `ScanRecords` is what it is meant to do to the list of requests; `ScanRefines` says
  that on a rendered list they agree.
 */
module TitanicQueue {
  import opened Wrappers
  import opened TitanicCodec

  const UUID_LENGTH := 37
  const STRIDE := UUID_LENGTH + 2

  const PENDING: char := '-'
  const DONE: char := '+'

  /** What text mode writes for a line end on Windows. */
  const WINDOWS_EOL := "\r\n"
  const UNIX_EOL := "\n"

  const OK := "200"
  const NOT_YET := "300"
  const UNKNOWN := "400"

  datatype Record = Record(done: bool, uuid: string)

  predicate AllValid(rs: seq<Record>) {
    forall i :: 0 <= i < |rs| ==> |rs[i].uuid| == UUID_LENGTH - 1
  }

  function Line(r: Record, eol: string): string {
    [if r.done then DONE else PENDING] + r.uuid + eol
  }

  function Render(rs: seq<Record>, eol: string): string {
    if rs == [] then "" else Line(rs[0], eol) + Render(rs[1..], eol)
  }

  /** The files, by uuid. */
  datatype Store = Store(req: map<string, string>, rep: map<string, string>)

  /** What the broker returns to the two calls about one request; no parts means a timeout. */
  datatype Answer = Answer(mmi: Message, reply: Message)

  datatype CallResult = Succeeded | Failed | Threw

  /** A missing file loads as a message without parts. */
  function Request(store: Store, uuid: string): Message {
    Load(if uuid in store.req then store.req[uuid] else "")
  }

  /** Reading the service name of a request without parts throws. */
  function Call(store: Store, uuid: string, a: Answer): CallResult {
    if Request(store, uuid) == [] then Threw
    else if a.mmi != [] && a.mmi[0] == OK && a.reply != [] then Succeeded
    else Failed
  }

  function AfterCall(store: Store, uuid: string, a: Answer): Store {
    if Call(store, uuid, a).Succeeded? then store.(rep := store.rep[uuid := Save(a.reply)]) else store
  }

  /** What a poll for `uuid` is answered. */
  function Status(store: Store, uuid: string): Message {
    if uuid in store.rep then [OK] + Load(store.rep[uuid])
    else if uuid in store.req then [NOT_YET]
    else [UNKNOWN]
  }

  function Closed(store: Store, uuid: string): Store {
    Store(store.req - {uuid}, store.rep - {uuid})
  }

  /** The result of a scan; it is cut short when a call throws. */
  datatype Scanned<+Q> = Scanned(queue: Q, store: Store, threw: bool)

  function MarkDone(rs: seq<Record>, k: nat): seq<Record>
    requires k < |rs|
  {
    rs[k := rs[k].(done := true)]
  }

  /** Go through the list from record `k` on; `calls(i)` answers the calls about record `i`. */
  function ScanRecords(rs: seq<Record>, k: nat, store: Store, calls: nat -> Answer): Scanned<seq<Record>>
    requires k <= |rs|
    decreases |rs| - k
  {
    if k == |rs| then Scanned(rs, store, false)
    else if rs[k].done then ScanRecords(rs, k + 1, store, calls)
    else
      var store' := AfterCall(store, rs[k].uuid, calls(k));
      match Call(store, rs[k].uuid, calls(k))
      case Threw => Scanned(rs, store, true)
      case Failed => ScanRecords(rs, k + 1, store', calls)
      case Succeeded => ScanRecords(MarkDone(rs, k), k + 1, store', calls)
  }

  /** Where the scan is after `k` strides. */
  function Pos(k: nat): nat {
    STRIDE * k
  }

  /** A flag and a uuid can be read in full at `pos`. */
  predicate Whole(b: string, pos: nat) {
    pos + UUID_LENGTH <= |b|
  }

  /** What the buffer holds after a read; a read cut short by the end of the file leaves its rest. */
  function ReadInto(buf: string, b: string, pos: nat): (r: string)
    requires |buf| == UUID_LENGTH && pos < |b|
    ensures |r| == UUID_LENGTH && r[0] == b[pos]
    ensures forall i :: 0 <= i < UUID_LENGTH && pos + i < |b| ==> r[i] == b[pos + i]
  {
    if Whole(b, pos) then b[pos..pos + UUID_LENGTH] else b[pos..] + buf[|b| - pos..]
  }

  /** A read cut short fails the stream, and a failed stream writes nothing. */
  function Flagged(b: string, pos: nat): string
    requires pos < |b|
  {
    if Whole(b, pos) then b[pos := DONE] else b
  }

  /** The buffer before the first read. */
  function Blank(): (r: string)
    ensures |r| == UUID_LENGTH
  {
    seq(UUID_LENGTH, _ => '\0')
  }

  /** The scan by positions, from `k` strides into the file on, with what the last read left in the buffer. */
  function ScanBytes(b: string, k: nat, buf: string, store: Store, calls: nat -> Answer): Scanned<string>
    requires |buf| == UUID_LENGTH
    decreases |b| - Pos(k)
  {
    var pos := Pos(k);
    if pos >= |b| then Scanned(b, store, false)
    else
      var buf' := ReadInto(buf, b, pos);
      if buf'[0] != PENDING then ScanBytes(b, k + 1, buf', store, calls)
      else
        var store' := AfterCall(store, buf'[1..], calls(k));
        match Call(store, buf'[1..], calls(k))
        case Threw => Scanned(b, store, true)
        case Failed => ScanBytes(b, k + 1, buf', store', calls)
        case Succeeded => ScanBytes(Flagged(b, pos), k + 1, buf', store', calls)
  }

  // ------------------------------------------------------------------ the program

  class Titanic {
    var queue: array<char>
    var store: Store
    var pipe: seq<string>

    constructor ()
      ensures queue[..] == "" && pipe == [] && store == Store(map[], map[])
      ensures fresh(queue)
    {
      queue := new char[0];
      store := Store(map[], map[]);
      pipe := [];
    }

    /** request_worker: save the request, enqueue its uuid, then acknowledge. */
    method RequestWorker(uuid: string, msg: Message) returns (reply: Message)
      modifies `store, `pipe
      ensures store == old(store).(req := old(store).req[uuid := Save(msg)])
      ensures pipe == old(pipe) + [uuid]
      ensures reply == ["200", uuid]
    {
      var text := SaveMessage(msg);
      store := store.(req := store.req[uuid := text]);
      pipe := pipe + [uuid];
      reply := [OK, uuid];
    }

    /** reply_worker, undisturbed. */
    method ReplyWorker(uuid: string) returns (reply: Message)
      ensures reply == Status(store, uuid)
      ensures uuid in store.rep ==> reply == ["200"] + Load(store.rep[uuid])
      ensures uuid !in store.rep ==> reply == if uuid in store.req then ["300"] else ["400"]
    {
      if uuid in store.rep {
        reply := LoadMessage(store.rep[uuid]);
        reply := [OK] + reply;
      } else {
        reply := [];
        if uuid in store.req {
          reply := reply + [NOT_YET];
        } else {
          reply := reply + [UNKNOWN];
        }
      }
    }

    /** close_worker, undisturbed. */
    method CloseWorker(uuid: string) returns (reply: Message)
      modifies `store
      ensures store == Closed(old(store), uuid)
      ensures Status(store, uuid) == ["400"]
      ensures reply == ["200"]
    {
      store := store.(req := store.req - {uuid});
      store := store.(rep := store.rep - {uuid});
      reply := [OK];
    }

    /** The dispatcher's call to a service; `sent` is what the service receives. */
    method ServiceSuccess(uuid: string, a: Answer) returns (result: CallResult, sent: Message)
      modifies `store
      ensures result == Call(old(store), uuid, a)
      ensures result.Threw? <==> Request(old(store), uuid) == []
      ensures result.Succeeded? <==>
              Request(old(store), uuid) != [] && a.mmi != [] && a.mmi[0] == "200" && a.reply != []
      ensures store == AfterCall(old(store), uuid, a)
      ensures result.Succeeded? ==> sent == Request(old(store), uuid)[1..]
    {
      sent := [];
      var text := if uuid in store.req then store.req[uuid] else "";
      var req := LoadMessage(text);
      if req == [] {
        return Threw, sent;
      }
      sent := req[1..];
      if a.mmi == [] {
        return Failed, sent;
      }
      if a.mmi[0] == OK {
        if a.reply != [] {
          var saved := SaveMessage(a.reply);
          store := store.(rep := store.rep[uuid := saved]);
          return Succeeded, sent;
        }
      }
      return Failed, sent;
    }

    /** Appending in text mode: the bytes before are untouched. */
    method Append(uuid: string)
      modifies `queue
      ensures fresh(queue)
      ensures queue[..] == old(queue[..]) + Line(Record(false, uuid), WINDOWS_EOL)
      ensures queue[..] == old(queue[..]) + (['-'] + uuid + "\r\n")
    {
      var line := Line(Record(false, uuid), WINDOWS_EOL);
      var bytes := new char[queue.Length + |line|];
      var n := queue.Length;
      forall i | 0 <= i < n {
        bytes[i] := queue[i];
      }
      forall i | 0 <= i < |line| {
        bytes[n + i] := line[i];
      }
      assert bytes[..n] == queue[..];
      assert bytes[n..] == line;
      queue := bytes;
    }

    /** `uuid` is the buffer the program reads into; `failed` is the stream's state after the read. */
    method Scan(calls: nat -> Answer) returns (threw: bool)
      modifies queue, `store
      ensures Scanned(queue[..], store, threw) == ScanBytes(old(queue[..]), 0, Blank(), old(store), calls)
    {
      var size := queue.Length;
      var pos, k := 0, 0;
      var uuid := Blank();
      ghost var result := ScanBytes(queue[..], 0, Blank(), store, calls);
      while pos < size
        invariant pos == Pos(k) && |uuid| == UUID_LENGTH
        invariant ScanBytes(queue[..], k, uuid, store, calls) == result
      {
        ghost var before := queue[..];
        PendingStep(before, k, uuid, store, calls);
        var failed := pos + UUID_LENGTH > size;
        uuid := if failed then queue[pos..] + uuid[size - pos..] else queue[pos..pos + UUID_LENGTH];
        if uuid[0] == PENDING {
          var outcome, _ := ServiceSuccess(uuid[1..], calls(k));
          if outcome.Threw? {
            return true;
          }
          if outcome.Succeeded? && !failed {
            queue[pos] := DONE;
            assert queue[..] == before[pos := DONE];
          }
        }
        pos, k := pos + STRIDE, k + 1;
      }
      threw := false;
    }

    /** One turn of the dispatcher: at most one uuid from the pipe, then a scan of the file. */
    method Turn(calls: nat -> Answer) returns (threw: bool)
      requires WellFormed(queue[..])
      requires forall u :: u in pipe ==> |u| == UUID_LENGTH - 1
      modifies queue, `queue, `store, `pipe
      ensures var rs := Parse(old(queue[..])) + if old(pipe) == [] then [] else [Record(false, old(pipe)[0])];
              && WellFormed(queue[..])
              && Scanned(Parse(queue[..]), store, threw) == ScanRecords(rs, 0, old(store), calls)
      ensures pipe == if old(pipe) == [] then [] else old(pipe)[1..]
    {
      ghost var taken := if pipe == [] then [] else [Record(false, pipe[0])];
      TurnRefines(queue[..], taken, store, calls);
      if pipe != [] {
        var uuid := pipe[0];
        pipe := pipe[1..];
        Append(uuid);
      }
      assert queue[..] == old(queue[..]) + Render(taken, WINDOWS_EOL);
      threw := Scan(calls);
    }
  }

  /** Appending to a well-formed file and scanning it, seen as a list. */
  lemma TurnRefines(b: string, taken: seq<Record>, store: Store, calls: nat -> Answer)
    requires WellFormed(b) && AllValid(taken)
    ensures var q := ScanBytes(b + Render(taken, WINDOWS_EOL), 0, Blank(), store, calls);
            && WellFormed(q.queue)
            && Scanned(Parse(q.queue), q.store, q.threw) == ScanRecords(Parse(b) + taken, 0, store, calls)
  {
    var rs := Parse(b) + taken;
    RenderParse(b);
    RenderConcat(Parse(b), taken, WINDOWS_EOL);
    ScanRefines(rs, 0, WINDOWS_EOL, Blank(), store, calls);
    ParseRender(ScanRecords(rs, 0, store, calls).queue);
  }

  /** One step of the scan. */
  lemma PendingStep(b: string, k: nat, buf: string, store: Store, calls: nat -> Answer)
    requires |buf| == UUID_LENGTH && Pos(k) < |b|
    ensures var buf' := ReadInto(buf, b, Pos(k));
            var store' := AfterCall(store, buf'[1..], calls(k));
            ScanBytes(b, k, buf, store, calls) ==
            if b[Pos(k)] != PENDING then ScanBytes(b, k + 1, buf', store, calls)
            else match Call(store, buf'[1..], calls(k)) {
              case Threw => Scanned(b, store', true)
              case Failed => ScanBytes(b, k + 1, buf', store', calls)
              case Succeeded => ScanBytes(Flagged(b, Pos(k)), k + 1, buf', store', calls)
            }
  {
  }

  // ------------------------------------------------------------------ rendering

  lemma {:induction false} RenderConcat(a: seq<Record>, b: seq<Record>, eol: string)
    ensures Render(a + b, eol) == Render(a, eol) + Render(b, eol)
  {
    if a == [] {
      assert a + b == b;
    } else {
      RenderConcat(a[1..], b, eol);
      assert (a + b)[0] == a[0] && (a + b)[1..] == a[1..] + b;
      ConcatAssoc(Line(a[0], eol), Render(a[1..], eol), Render(b, eol));
    }
  }

  lemma {:induction false} RenderLength(rs: seq<Record>, eol: string)
    requires AllValid(rs)
    ensures |Render(rs, eol)| == (UUID_LENGTH + |eol|) * |rs|
  {
    if rs == [] {
    } else {
      RenderLength(rs[1..], eol);
      assert |rs| == 1 + |rs[1..]|;
    }
  }

  /** With a two-byte line end, record `k` sits at `k` strides, and flagging it there flags it in the list. */
  lemma RenderAt(rs: seq<Record>, k: nat, eol: string)
    requires AllValid(rs) && k < |rs| && |eol| == 2
    ensures var b := Render(rs, eol);
            && Pos(k + 1) <= |b| == Pos(|rs|)
            && b[Pos(k)] == (if rs[k].done then DONE else PENDING)
            && b[Pos(k) + 1..Pos(k) + UUID_LENGTH] == rs[k].uuid
            && b[Pos(k) := DONE] == Render(MarkDone(rs, k), eol)
  {
    RenderLength(rs, eol);
    RenderLength(rs[..k], eol);
    LineAt(rs, k, eol);
  }

  /** The line of record `k` begins where the lines before it end, whatever the line end. */
  lemma LineAt(rs: seq<Record>, k: nat, eol: string)
    requires AllValid(rs) && k < |rs|
    ensures var b := Render(rs, eol);
            var at := |Render(rs[..k], eol)|;
            && at + UUID_LENGTH + |eol| <= |b|
            && b[at..at + UUID_LENGTH + |eol|] == Line(rs[k], eol)
            && b[at + 1..at + UUID_LENGTH] == rs[k].uuid
            && b[at := DONE] == Render(MarkDone(rs, k), eol)
  {
    var line := Line(rs[k], eol);
    RenderSplit(rs, k, eol);
    RenderSplit(MarkDone(rs, k), k, eol);
    AroundMarked(rs, k);
    assert line[1..UUID_LENGTH] == rs[k].uuid;
    assert line[0 := DONE] == Line(MarkDone(rs, k)[k], eol);
    Overwrite(Render(rs[..k], eol), line, Render(rs[k + 1..], eol), DONE);
    Between(Render(rs[..k], eol), line, Render(rs[k + 1..], eol));
  }

  lemma AroundMarked(rs: seq<Record>, k: nat)
    requires k < |rs|
    ensures MarkDone(rs, k)[..k] == rs[..k] && MarkDone(rs, k)[k + 1..] == rs[k + 1..]
  {
  }

  lemma Between(head: string, line: string, tail: string)
    requires |line| >= UUID_LENGTH
    ensures (head + line + tail)[|head|..|head| + |line|] == line
    ensures (head + line + tail)[|head| + 1..|head| + UUID_LENGTH] == line[1..UUID_LENGTH]
  {
  }

  lemma Overwrite(head: string, line: string, tail: string, c: char)
    requires line != ""
    ensures (head + line + tail)[|head| := c] == head + line[0 := c] + tail
  {
  }

  lemma RenderMiddle(a: seq<Record>, r: Record, b: seq<Record>, eol: string)
    ensures Render(a + [r] + b, eol) == Render(a, eol) + Line(r, eol) + Render(b, eol)
  {
    RenderConcat(a + [r], b, eol);
    RenderConcat(a, [r], eol);
    RenderOne(r, eol);
  }

  lemma RenderSplit(rs: seq<Record>, k: nat, eol: string)
    requires k < |rs|
    ensures Render(rs, eol) == Render(rs[..k], eol) + Line(rs[k], eol) + Render(rs[k + 1..], eol)
  {
    SplitAround(rs, k);
    RenderMiddle(rs[..k], rs[k], rs[k + 1..], eol);
  }

  lemma SplitAround(rs: seq<Record>, k: nat)
    requires k < |rs|
    ensures rs[..k] + [rs[k]] + rs[k + 1..] == rs
  {
  }

  lemma RenderOne(r: Record, eol: string)
    ensures Render([r], eol) == Line(r, eol)
  {
    assert Render([r], eol) == Line(r, eol) + Render([], eol);
  }

  // ------------------------------------------------------------------ parsing

  predicate WellFormed(b: string) {
    b == "" ||
    (|b| >= STRIDE && b[0] in {PENDING, DONE} && b[UUID_LENGTH..STRIDE] == WINDOWS_EOL && WellFormed(b[STRIDE..]))
  }

  function Parse(b: string): seq<Record> {
    if |b| < STRIDE then [] else [Record(b[0] == DONE, b[1..UUID_LENGTH])] + Parse(b[STRIDE..])
  }

  lemma {:induction false} ParseRender(rs: seq<Record>)
    requires AllValid(rs)
    ensures WellFormed(Render(rs, WINDOWS_EOL)) && Parse(Render(rs, WINDOWS_EOL)) == rs
  {
    if rs == [] {
    } else {
      var b := Render(rs, WINDOWS_EOL);
      assert b[STRIDE..] == Render(rs[1..], WINDOWS_EOL);
      assert b[1..UUID_LENGTH] == rs[0].uuid;
      assert b[UUID_LENGTH..STRIDE] == WINDOWS_EOL;
      ParseRender(rs[1..]);
    }
  }

  lemma {:induction false} RenderParse(b: string)
    requires WellFormed(b)
    ensures AllValid(Parse(b)) && Render(Parse(b), WINDOWS_EOL) == b
  {
    if b == "" {
    } else {
      RenderParse(b[STRIDE..]);
      assert b == [b[0]] + b[1..UUID_LENGTH] + b[UUID_LENGTH..STRIDE] + b[STRIDE..];
      assert Parse(b)[1..] == Parse(b[STRIDE..]);
    }
  }

  // ------------------------------------------------------------------ the scan

  /** The byte scan of a rendered list is the scan of the list, for any line end of two bytes. */
  lemma {:induction false} ScanRefines(rs: seq<Record>, k: nat, eol: string, buf: string,
                                       store: Store, calls: nat -> Answer)
    requires AllValid(rs) && k <= |rs| && |eol| == 2 && |buf| == UUID_LENGTH
    ensures var r := ScanRecords(rs, k, store, calls);
            && ScanBytes(Render(rs, eol), k, buf, store, calls) == Scanned(Render(r.queue, eol), r.store, r.threw)
            && AllValid(r.queue)
    decreases |rs| - k
  {
    var b := Render(rs, eol);
    if k == |rs| {
      RenderLength(rs, eol);
    } else {
      RenderAt(rs, k, eol);
      PendingStep(b, k, buf, store, calls);
      var buf' := ReadInto(buf, b, Pos(k));
      assert buf'[1..] == rs[k].uuid;
      if rs[k].done {
        ScanRefines(rs, k + 1, eol, buf', store, calls);
      } else {
        var store' := AfterCall(store, rs[k].uuid, calls(k));
        match Call(store, rs[k].uuid, calls(k))
        case Threw =>
        case Failed => ScanRefines(rs, k + 1, eol, buf', store', calls);
        case Succeeded => ScanRefines(MarkDone(rs, k), k + 1, eol, buf', store', calls);
      }
    }
  }

  /** No pending record from `k` up to `n` makes the scan throw. */
  predicate Unbroken(rs: seq<Record>, k: nat, n: nat, store: Store, calls: nat -> Answer)
    requires n <= |rs|
  {
    forall j :: k <= j < n && !rs[j].done ==> !Call(store, rs[j].uuid, calls(j)).Threw?
  }

  /** The scan from `k` gets to record `i`, finds it pending, and its call succeeds. */
  predicate Completes(rs: seq<Record>, k: nat, i: nat, store: Store, calls: nat -> Answer) {
    k <= i < |rs| && !rs[i].done && Unbroken(rs, k, i, store, calls) && Call(store, rs[i].uuid, calls(i)).Succeeded?
  }

  /** The list and the files after record `k` was dealt with. */
  function RecordsPast(rs: seq<Record>, k: nat, store: Store, calls: nat -> Answer): seq<Record>
    requires k < |rs|
  {
    if !rs[k].done && Call(store, rs[k].uuid, calls(k)).Succeeded? then MarkDone(rs, k) else rs
  }

  function StorePast(rs: seq<Record>, k: nat, store: Store, calls: nat -> Answer): Store
    requires k < |rs|
  {
    if rs[k].done then store else AfterCall(store, rs[k].uuid, calls(k))
  }

  predicate ThrowsAt(rs: seq<Record>, k: nat, store: Store, calls: nat -> Answer)
    requires k < |rs|
  {
    !rs[k].done && Call(store, rs[k].uuid, calls(k)).Threw?
  }

  /** Passing record `k` is one step of the scan and changes nothing about the records behind it. */
  lemma ScanPast(rs: seq<Record>, k: nat, store: Store, calls: nat -> Answer)
    requires k < |rs| && !ThrowsAt(rs, k, store, calls)
    ensures var rs' := RecordsPast(rs, k, store, calls);
            var store' := StorePast(rs, k, store, calls);
            && ScanRecords(rs, k, store, calls) == ScanRecords(rs', k + 1, store', calls)
            && (Unbroken(rs', k + 1, |rs|, store', calls) <==> Unbroken(rs, k, |rs|, store, calls))
            && forall i :: k < i < |rs| ==>
                 (Completes(rs', k + 1, i, store', calls) <==> Completes(rs, k, i, store, calls))
  {
    CompletesPast(rs, RecordsPast(rs, k, store, calls), k, store, StorePast(rs, k, store, calls), calls);
  }

  lemma CompletesPast(rs: seq<Record>, rs': seq<Record>, k: nat, store: Store, store': Store, calls: nat -> Answer)
    requires k < |rs| == |rs'| && store'.req == store.req && !ThrowsAt(rs, k, store, calls)
    requires forall i :: k < i < |rs| ==> rs'[i] == rs[i]
    ensures forall n :: k < n <= |rs| ==>
              (Unbroken(rs', k + 1, n, store', calls) <==> Unbroken(rs, k, n, store, calls))
    ensures forall i :: k < i < |rs| ==>
              (Completes(rs', k + 1, i, store', calls) <==> Completes(rs, k, i, store, calls))
  {
    assert forall u, a :: Call(store', u, a) == Call(store, u, a);
    forall n | k < n <= |rs|
      ensures Unbroken(rs', k + 1, n, store', calls) <==> Unbroken(rs, k, n, store, calls)
    {
    }
  }

  /**
    What a scan does to a list: nothing but flags change, and exactly the records whose calls
    succeed become done; it is cut short exactly by a pending record without a request.
   */
  lemma {:induction false} ScanFlags(rs: seq<Record>, k: nat, store: Store, calls: nat -> Answer)
    requires k <= |rs|
    ensures var r := ScanRecords(rs, k, store, calls);
            && |r.queue| == |rs| && r.store.req == store.req
            && (r.threw <==> !Unbroken(rs, k, |rs|, store, calls))
            && forall i :: 0 <= i < |rs| ==>
                 r.queue[i].uuid == rs[i].uuid &&
                 (r.queue[i].done <==> rs[i].done || Completes(rs, k, i, store, calls))
    decreases |rs| - k
  {
    if k == |rs| {
    } else {
      if ThrowsAt(rs, k, store, calls) {
        assert !Unbroken(rs, k, |rs|, store, calls);
      } else {
        ScanPast(rs, k, store, calls);
        ScanFlags(RecordsPast(rs, k, store, calls), k + 1, StorePast(rs, k, store, calls), calls);
        assert Completes(rs, k, k, store, calls) <==> RecordsPast(rs, k, store, calls) != rs;
      }
    }
  }

  /** A scan writes no reply but those of completed records. */
  lemma {:induction false} ScanKeepsOtherReplies(rs: seq<Record>, k: nat, store: Store, calls: nat -> Answer, u: string)
    requires k <= |rs|
    requires forall i :: 0 <= i < |rs| && Completes(rs, k, i, store, calls) ==> rs[i].uuid != u
    ensures var rep := ScanRecords(rs, k, store, calls).store.rep;
            (u in rep <==> u in store.rep) && (u in store.rep ==> rep[u] == store.rep[u])
    decreases |rs| - k
  {
    if k == |rs| || ThrowsAt(rs, k, store, calls) {
    } else {
      ScanPast(rs, k, store, calls);
      ScanKeepsOtherReplies(RecordsPast(rs, k, store, calls), k + 1, StorePast(rs, k, store, calls), calls, u);
      assert !rs[k].done && Call(store, rs[k].uuid, calls(k)).Succeeded? ==> Completes(rs, k, k, store, calls);
    }
  }

  /** The lists agree from record `k` on. */
  predicate SameFrom(rs: seq<Record>, rs': seq<Record>, k: nat) {
    |rs| == |rs'| && forall i :: k <= i < |rs| ==> rs'[i] == rs[i]
  }

  /** One step of a scan that comes to `q` and completes record `i` later on. */
  lemma ReachStep(rs: seq<Record>, k: nat, store: Store, calls: nat -> Answer, i: nat, q: Scanned<seq<Record>>)
    returns (rs': seq<Record>, store': Store)
    requires k < i < |rs| == |q.queue| && !rs[i].done && q.queue[i].done && q == ScanRecords(rs, k, store, calls)
    ensures SameFrom(rs, rs', k + 1) && q == ScanRecords(rs', k + 1, store', calls)
  {
    assert !ThrowsAt(rs, k, store, calls);
    rs', store' := RecordsPast(rs, k, store, calls), StorePast(rs, k, store, calls);
  }

  /** The scan gets to a record that it completes, with the list and the files changed before it only. */
  lemma {:induction false} ScanReaches(rs: seq<Record>, k: nat, store: Store, calls: nat -> Answer, i: nat,
                                       q: Scanned<seq<Record>>)
    returns (rs': seq<Record>, store': Store)
    requires k <= i < |rs| == |q.queue| && !rs[i].done && q.queue[i].done && q == ScanRecords(rs, k, store, calls)
    ensures SameFrom(rs, rs', i) && q == ScanRecords(rs', i, store', calls)
    decreases i - k
  {
    if i == k {
      rs', store' := rs, store;
    } else {
      var next, files := ReachStep(rs, k, store, calls, i, q);
      rs', store' := ScanReaches(next, k + 1, files, calls, i, q);
    }
  }

  /** A completed record's reply is on disk afterwards, unless another record has its uuid. */
  lemma ScanSavesReplies(rs: seq<Record>, k: nat, store: Store, calls: nat -> Answer, i: nat)
    requires k <= i < |rs| && Completes(rs, k, i, store, calls)
    requires forall j :: 0 <= j < |rs| && j != i ==> rs[j].uuid != rs[i].uuid
    ensures var rep := ScanRecords(rs, k, store, calls).store.rep;
            rs[i].uuid in rep && rep[rs[i].uuid] == Save(calls(i).reply)
  {
    ScanFlags(rs, k, store, calls);
    var rs', store' := ScanReaches(rs, k, store, calls, i, ScanRecords(rs, k, store, calls));
    ScanFlags(rs', i, store', calls);
    assert Completes(rs', i, i, store', calls);
    ScanKeepsOtherReplies(MarkDone(rs', i), i + 1, AfterCall(store', rs[i].uuid, calls(i)), calls, rs[i].uuid);
  }

  /** On any bytes: the length and everything off a flag position stay, and a flag only goes from '-' to '+'. */
  lemma {:induction false} ScanTouchesOnlyFlags(b: string, k: nat, buf: string, store: Store, calls: nat -> Answer)
    requires |buf| == UUID_LENGTH
    ensures var q := ScanBytes(b, k, buf, store, calls).queue;
            |q| == |b| &&
            forall i :: 0 <= i < |b| && q[i] != b[i] ==>
              b[i] == PENDING && q[i] == DONE && exists n: nat :: n >= k && i == Pos(n)
    decreases |b| - Pos(k)
  {
    if Pos(k) >= |b| {
    } else {
      PendingStep(b, k, buf, store, calls);
      var buf' := ReadInto(buf, b, Pos(k));
      var store' := AfterCall(store, buf'[1..], calls(k));
      if b[Pos(k)] != PENDING {
        ScanTouchesOnlyFlags(b, k + 1, buf', store, calls);
      } else {
        match Call(store, buf'[1..], calls(k))
        case Threw =>
        case Failed => ScanTouchesOnlyFlags(b, k + 1, buf', store', calls);
        case Succeeded => ScanTouchesOnlyFlags(Flagged(b, Pos(k)), k + 1, buf', store', calls);
      }
    }
  }

  // ------------------------------------------------------------------ one-byte line ends

  const UNIX_WIDTH := STRIDE - 1

  /**
    A look of the scan at a file with one-byte line ends.  Every look falls one byte further into
    its line than the last, until it is back at a flag and a new round begins.
   */
  datatype Look = Look(round: nat, offset: nat) {
    predicate Valid() {
      offset < UNIX_WIDTH
    }

    function Number(): nat {
      UNIX_WIDTH * round + offset
    }

    /** The record whose line the look falls into. */
    function Record(): nat {
      STRIDE * round + offset
    }

    function Next(): Look {
      if offset + 1 < UNIX_WIDTH then Look(round, offset + 1) else Look(round + 1, 0)
    }
  }

  /** A look that has drifted into a uuid takes a hyphen there for a pending flag. */
  predicate SeesHyphen(rs: seq<Record>, l: Look)
    requires l.Record() < |rs|
  {
    var u := rs[l.Record()].uuid;
    0 < l.offset <= |u| && u[l.offset - 1] == PENDING
  }

  /** What the scan does to a list kept with one-byte line ends. */
  function ScanDrifting(rs: seq<Record>, l: Look, store: Store, calls: nat -> Answer): (r: Scanned<seq<Record>>)
    requires l.Valid()
    ensures |r.queue| == |rs|
    decreases |rs| - l.Record()
  {
    var j := l.Record();
    if j >= |rs| then Scanned(rs, store, false)
    else if l.offset > 0 then
      if SeesHyphen(rs, l) then Scanned(rs, store, true) else ScanDrifting(rs, l.Next(), store, calls)
    else if rs[j].done then ScanDrifting(rs, l.Next(), store, calls)
    else
      var store' := AfterCall(store, rs[j].uuid, calls(l.Number()));
      match Call(store, rs[j].uuid, calls(l.Number()))
      case Threw => Scanned(rs, store, true)
      case Failed => ScanDrifting(rs, l.Next(), store', calls)
      case Succeeded => ScanDrifting(MarkDone(rs, j), l.Next(), store', calls)
  }

  /** Request files are named by uuids, which hold no line end. */
  predicate PlainNames(store: Store) {
    forall u :: u in store.req ==> NL !in u
  }

  lemma LookAt(rs: seq<Record>, l: Look)
    requires AllValid(rs) && l.Valid()
    ensures Pos(l.Number()) == UNIX_WIDTH * l.Record() + l.offset && l.Next().Number() == l.Number() + 1
    ensures |Render(rs, UNIX_EOL)| == UNIX_WIDTH * |rs|
    ensures Pos(l.Number()) < |Render(rs, UNIX_EOL)| <==> l.Record() < |rs|
  {
    RenderLength(rs, UNIX_EOL);
  }

  /** What the scan finds there. */
  lemma UnixLook(rs: seq<Record>, l: Look)
    requires AllValid(rs) && l.Valid() && l.Record() < |rs|
    ensures var b := Render(rs, UNIX_EOL);
            var at := Pos(l.Number()) - l.offset;
            && at == |Render(rs[..l.Record()], UNIX_EOL)| && at + UNIX_WIDTH <= |b|
            && b[at + UUID_LENGTH] == NL
            && b[at + l.offset] == Line(rs[l.Record()], UNIX_EOL)[l.offset]
  {
    var j := l.Record();
    LookAt(rs, l);
    LookAt(rs[..j], l);
    LineAt(rs, j, UNIX_EOL);
    Within(Render(rs, UNIX_EOL), Pos(l.Number()) - l.offset, Line(rs[j], UNIX_EOL), l.offset);
    Within(Render(rs, UNIX_EOL), Pos(l.Number()) - l.offset, Line(rs[j], UNIX_EOL), UUID_LENGTH);
  }

  lemma Within(b: string, at: nat, line: string, o: nat)
    requires at + |line| <= |b| && b[at..at + |line|] == line && o < |line|
    ensures b[at + o] == line[o]
  {
    assert b[at..at + |line|][o] == b[at + o];
  }

  /** No request is kept under a name with a line end in it. */
  lemma NoSuchRequest(store: Store, uuid: string, i: nat, a: Answer)
    requires PlainNames(store) && i < |uuid| && uuid[i] == NL
    ensures Call(store, uuid, a).Threw?
  {
    assert NL in uuid;
  }

  /** The look at a drifted position: a hyphen makes the scan throw, anything else is passed over. */
  lemma DriftedLook(rs: seq<Record>, l: Look, buf: string, store: Store, calls: nat -> Answer)
    requires AllValid(rs) && |buf| == UUID_LENGTH && PlainNames(store)
    requires l.Valid() && l.Record() < |rs| && l.offset > 0
    ensures var b := Render(rs, UNIX_EOL);
            && Pos(l.Number()) < |b|
            && ScanBytes(b, l.Number(), buf, store, calls) ==
               if SeesHyphen(rs, l) then Scanned(b, store, true)
               else ScanBytes(b, l.Next().Number(), ReadInto(buf, b, Pos(l.Number())), store, calls)
  {
    var b, k, o := Render(rs, UNIX_EOL), l.Number(), l.offset;
    LookAt(rs, l);
    UnixLook(rs, l);
    PendingStep(b, k, buf, store, calls);
    assert b[Pos(k)] == PENDING <==> SeesHyphen(rs, l);
    if SeesHyphen(rs, l) {
      var buf' := ReadInto(buf, b, Pos(k));
      assert buf'[UUID_LENGTH - o] == NL;
      NoSuchRequest(store, buf'[1..], UUID_LENGTH - o - 1, calls(k));
    }
  }

  /** The look at a flag. */
  lemma FlagLook(rs: seq<Record>, l: Look, buf: string)
    requires AllValid(rs) && |buf| == UUID_LENGTH && l.Valid() && l.Record() < |rs| && l.offset == 0
    ensures var b := Render(rs, UNIX_EOL);
            var j, pos := l.Record(), Pos(l.Number());
            && pos < |b| && Whole(b, pos)
            && b[pos] == (if rs[j].done then DONE else PENDING)
            && ReadInto(buf, b, pos)[1..] == rs[j].uuid
            && Flagged(b, pos) == Render(MarkDone(rs, j), UNIX_EOL)
  {
    LookAt(rs, l);
    UnixLook(rs, l);
    LineAt(rs, l.Record(), UNIX_EOL);
  }

  /** The step at a flag. */
  lemma FlagStep(rs: seq<Record>, l: Look, buf: string, store: Store, calls: nat -> Answer)
    requires AllValid(rs) && |buf| == UUID_LENGTH && l.Valid() && l.Record() < |rs| && l.offset == 0
    ensures var b := Render(rs, UNIX_EOL);
            var r, k := rs[l.Record()], l.Number();
            var store' := AfterCall(store, r.uuid, calls(k));
            && Pos(k) < |b|
            && var buf' := ReadInto(buf, b, Pos(k));
               ScanBytes(b, k, buf, store, calls) ==
               if r.done then ScanBytes(b, l.Next().Number(), buf', store, calls)
               else match Call(store, r.uuid, calls(k)) {
                 case Threw => Scanned(b, store, true)
                 case Failed => ScanBytes(b, l.Next().Number(), buf', store', calls)
                 case Succeeded =>
                   ScanBytes(Render(MarkDone(rs, l.Record()), UNIX_EOL), l.Next().Number(), buf', store', calls)
               }
  {
    LookAt(rs, l);
    FlagLook(rs, l, buf);
    PendingStep(Render(rs, UNIX_EOL), l.Number(), buf, store, calls);
  }

  /** From look `l` on, the byte scan of a file with one-byte line ends is the drifting scan of its list. */
  predicate Drifts(rs: seq<Record>, l: Look, buf: string, store: Store, calls: nat -> Answer)
    requires l.Valid() && |buf| == UUID_LENGTH
  {
    var r := ScanDrifting(rs, l, store, calls);
    ScanBytes(Render(rs, UNIX_EOL), l.Number(), buf, store, calls) ==
    Scanned(Render(r.queue, UNIX_EOL), r.store, r.threw)
  }

  /** The drifting scan's step at a flag. */
  lemma FlagUnfold(rs: seq<Record>, l: Look, store: Store, calls: nat -> Answer)
    requires l.Valid() && l.Record() < |rs| && l.offset == 0
    ensures var r, k := rs[l.Record()], l.Number();
            var store' := AfterCall(store, r.uuid, calls(k));
            ScanDrifting(rs, l, store, calls) ==
            if r.done then ScanDrifting(rs, l.Next(), store, calls)
            else match Call(store, r.uuid, calls(k)) {
              case Threw => Scanned(rs, store, true)
              case Failed => ScanDrifting(rs, l.Next(), store', calls)
              case Succeeded => ScanDrifting(MarkDone(rs, l.Record()), l.Next(), store', calls)
            }
  {
  }

  /** At a flag the two scans agree if they agree on what comes next. */
  lemma DriftsAtFlag(rs: seq<Record>, l: Look, buf: string, buf': string, store: Store, calls: nat -> Answer)
    requires AllValid(rs) && |buf| == |buf'| == UUID_LENGTH && l.Valid() && l.Record() < |rs| && l.offset == 0
    requires Pos(l.Number()) < |Render(rs, UNIX_EOL)| && buf' == ReadInto(buf, Render(rs, UNIX_EOL), Pos(l.Number()))
    requires rs[l.Record()].done ==> Drifts(rs, l.Next(), buf', store, calls)
    requires var u, a := rs[l.Record()].uuid, calls(l.Number());
             && (!rs[l.Record()].done && Call(store, u, a).Failed? ==>
                   Drifts(rs, l.Next(), buf', AfterCall(store, u, a), calls))
             && (!rs[l.Record()].done && Call(store, u, a).Succeeded? ==>
                   Drifts(MarkDone(rs, l.Record()), l.Next(), buf', AfterCall(store, u, a), calls))
    ensures Drifts(rs, l, buf, store, calls)
  {
    FlagStep(rs, l, buf, store, calls);
    FlagUnfold(rs, l, store, calls);
  }

  /** So do they where the scan has drifted off the flags. */
  lemma DriftsOffFlag(rs: seq<Record>, l: Look, buf: string, buf': string, store: Store, calls: nat -> Answer)
    requires AllValid(rs) && |buf| == |buf'| == UUID_LENGTH && PlainNames(store)
    requires l.Valid() && l.Record() < |rs| && l.offset > 0
    requires Pos(l.Number()) < |Render(rs, UNIX_EOL)| && buf' == ReadInto(buf, Render(rs, UNIX_EOL), Pos(l.Number()))
    requires !SeesHyphen(rs, l) ==> Drifts(rs, l.Next(), buf', store, calls)
    ensures Drifts(rs, l, buf, store, calls)
  {
    DriftedLook(rs, l, buf, store, calls);
  }

  /**
    The stride presumes a two-byte line end.  This is what the scan does, instead, to a file in which
    text mode wrote one byte.
   */
  lemma {:induction false} UnixScanDrifts(rs: seq<Record>, l: Look, buf: string, store: Store, calls: nat -> Answer)
    requires AllValid(rs) && l.Valid() && |buf| == UUID_LENGTH && PlainNames(store)
    ensures var r := ScanDrifting(rs, l, store, calls);
            ScanBytes(Render(rs, UNIX_EOL), l.Number(), buf, store, calls) ==
            Scanned(Render(r.queue, UNIX_EOL), r.store, r.threw)
    decreases |rs| - l.Record()
  {
    LookAt(rs, l);
    if l.Record() < |rs| {
      var buf' := ReadInto(buf, Render(rs, UNIX_EOL), Pos(l.Number()));
      if l.offset > 0 {
        if !SeesHyphen(rs, l) {
          UnixScanDrifts(rs, l.Next(), buf', store, calls);
        }
        DriftsOffFlag(rs, l, buf, buf', store, calls);
      } else {
        var u, a := rs[l.Record()].uuid, calls(l.Number());
        if rs[l.Record()].done {
          UnixScanDrifts(rs, l.Next(), buf', store, calls);
        } else if Call(store, u, a).Failed? {
          UnixScanDrifts(rs, l.Next(), buf', AfterCall(store, u, a), calls);
        } else if Call(store, u, a).Succeeded? {
          UnixScanDrifts(MarkDone(rs, l.Record()), l.Next(), buf', AfterCall(store, u, a), calls);
        }
        DriftsAtFlag(rs, l, buf, buf', store, calls);
      }
    }
  }

  /** With one-byte line ends only every 39th record is ever performed; the others keep their flags. */
  lemma {:induction false} UnixReachesEvery39th(rs: seq<Record>, l: Look, store: Store, calls: nat -> Answer, i: nat)
    requires l.Valid() && i < |rs| && i % STRIDE != 0
    ensures ScanDrifting(rs, l, store, calls).queue[i] == rs[i]
    decreases |rs| - l.Record()
  {
    var j := l.Record();
    if j >= |rs| {
    } else if l.offset > 0 {
      if !SeesHyphen(rs, l) {
        UnixReachesEvery39th(rs, l.Next(), store, calls, i);
      }
    } else if rs[j].done {
      UnixReachesEvery39th(rs, l.Next(), store, calls, i);
    } else {
      var store' := AfterCall(store, rs[j].uuid, calls(l.Number()));
      match Call(store, rs[j].uuid, calls(l.Number()))
      case Threw =>
      case Failed => UnixReachesEvery39th(rs, l.Next(), store', calls, i);
      case Succeeded =>
        assert i != j by { MultipleOfStride(l.round); }
        UnixReachesEvery39th(MarkDone(rs, j), l.Next(), store', calls, i);
    }
  }

  lemma MultipleOfStride(n: nat)
    ensures (STRIDE * n) % STRIDE == 0
  {
  }

  /** Nor is a reply saved for any other record: only a uuid at a multiple of 39 can get one. */
  lemma {:induction false} UnixRepliesToEvery39th(rs: seq<Record>, l: Look, store: Store,
                                                  calls: nat -> Answer, u: string)
    requires l.Valid() && forall j :: 0 <= j < |rs| && j % STRIDE == 0 ==> rs[j].uuid != u
    ensures var rep := ScanDrifting(rs, l, store, calls).store.rep;
            (u in rep <==> u in store.rep) && (u in rep ==> rep[u] == store.rep[u])
    decreases |rs| - l.Record()
  {
    var j := l.Record();
    if j >= |rs| {
    } else if l.offset > 0 {
      if !SeesHyphen(rs, l) {
        UnixRepliesToEvery39th(rs, l.Next(), store, calls, u);
      }
    } else if rs[j].done {
      UnixRepliesToEvery39th(rs, l.Next(), store, calls, u);
    } else {
      MultipleOfStride(l.round);
      assert rs[j].uuid != u;
      var store' := AfterCall(store, rs[j].uuid, calls(l.Number()));
      match Call(store, rs[j].uuid, calls(l.Number()))
      case Threw =>
      case Failed => UnixRepliesToEvery39th(rs, l.Next(), store', calls, u);
      case Succeeded => UnixRepliesToEvery39th(MarkDone(rs, j), l.Next(), store', calls, u);
    }
  }

  /** The text form of a uuid: hyphens at four places and nowhere else. */
  predicate Hyphenated(u: string) {
    |u| == UUID_LENGTH - 1 && forall i :: 0 <= i < |u| ==> (u[i] == '-' <==> i in {8, 13, 18, 23})
  }

  const FIRST_HYPHEN := 9

  lemma {:induction false} DriftToHyphen(rs: seq<Record>, o: nat, store: Store, calls: nat -> Answer)
    requires forall i :: 0 <= i < |rs| ==> Hyphenated(rs[i].uuid)
    requires 1 <= o <= FIRST_HYPHEN
    ensures ScanDrifting(rs, Look(0, o), store, calls) == Scanned(rs, store, |rs| > FIRST_HYPHEN)
    decreases FIRST_HYPHEN - o
  {
    assert Look(0, o).Record() == o && Look(0, o).Next() == Look(0, o + 1);
    if o == FIRST_HYPHEN {
    } else {
      DriftToHyphen(rs, o + 1, store, calls);
    }
  }

  /**
    So with uuids in their text form and one-byte line ends, the scan performs the first request of
    the queue file and no other, and from the tenth request on it makes the dispatcher throw.
   */
  lemma UnixScanDies(rs: seq<Record>, store: Store, calls: nat -> Answer)
    requires rs != [] && PlainNames(store) && forall i :: 0 <= i < |rs| ==> Hyphenated(rs[i].uuid)
    requires !ThrowsAt(rs, 0, store, calls)
    ensures ScanBytes(Render(rs, UNIX_EOL), 0, Blank(), store, calls) ==
            Scanned(Render(RecordsPast(rs, 0, store, calls), UNIX_EOL), StorePast(rs, 0, store, calls), |rs| >= 10)
  {
    UnixScanDrifts(rs, Look(0, 0), Blank(), store, calls);
    assert Look(0, 0).Record() == 0 && Look(0, 0).Next() == Look(0, 1);
    DriftToHyphen(RecordsPast(rs, 0, store, calls), 1, StorePast(rs, 0, store, calls), calls);
  }

  /** The byte scan does to a file with line end `eol` what the list scan does to its list. */
  predicate ScanAgrees(rs: seq<Record>, eol: string, store: Store, calls: nat -> Answer) {
    var r := ScanRecords(rs, 0, store, calls);
    ScanBytes(Render(rs, eol), 0, Blank(), store, calls) == Scanned(Render(r.queue, eol), r.store, r.threw)
  }

  ghost predicate ScansAlwaysAgree(eol: string) {
    forall rs: seq<Record>, store: Store, calls: nat -> Answer ::
      AllValid(rs) ==> ScanAgrees(rs, eol, store, calls)
  }

  /** A look one stride into the file falls behind the flag of the second record. */
  lemma SecondLook(r: Record, r': Record, eol: string)
    requires |r.uuid| == |r'.uuid| == UUID_LENGTH - 1 && |eol| == 1
    ensures var b := Render([r, r'], eol);
            && Pos(1) < |b| <= Pos(2)
            && b[0] == (if r.done then DONE else PENDING) && b[Pos(1)] == r'.uuid[0]
  {
    assert [r, r'][1..] == [r'];
    RenderOne(r', eol);
    assert Render([r, r'], eol) == Line(r, eol) + Line(r', eol);
  }

  /** Two records, the first done and the second pending but without a request. */
  lemma OneByteDisagrees(eol: string)
    requires |eol| == 1
    ensures !ScansAlwaysAgree(eol)
  {
    var u := seq(UUID_LENGTH - 1, _ => 'a');
    var r, r' := Record(true, u), Record(false, u);
    var store, calls := Store(map[], map[]), (_: nat) => Answer([], []);
    SecondLook(r, r', eol);
    PassesOver(Render([r, r'], eol), Blank(), store, calls);
    assert ScanRecords([r, r'], 1, store, calls).threw;
    assert !ScanAgrees([r, r'], eol, store, calls);
  }

  lemma PassesOver(b: string, buf: string, store: Store, calls: nat -> Answer)
    requires |buf| == UUID_LENGTH && Pos(1) < |b| <= Pos(2) && b[0] != PENDING && b[Pos(1)] != PENDING
    ensures !ScanBytes(b, 0, buf, store, calls).threw
  {
    PendingStep(b, 0, buf, store, calls);
    PendingStep(b, 1, ReadInto(buf, b, 0), store, calls);
  }

  /** Of the line ends text mode may write, the scan is right for exactly those of two bytes. */
  lemma ScansAgreeExactly(eol: string)
    requires 1 <= |eol| <= 2
    ensures ScansAlwaysAgree(eol) <==> |eol| == 2
  {
    if |eol| == 1 {
      OneByteDisagrees(eol);
    } else {
      forall rs, store, calls | AllValid(rs) ensures ScanAgrees(rs, eol, store, calls) {
        ScanRefines(rs, 0, eol, Blank(), store, calls);
      }
    }
  }

  /**
    A request travels unchanged: the service is sent exactly the frames behind the service name,
    and a poll after success is answered "200" and the service's frames, exactly when no frame of
    the request, or of the reply, holds a line end.
   */
  lemma FramesSurvive(store: Store, uuid: string, msg: Message, a: Answer)
    requires msg != []
    ensures var saved := store.(req := store.req[uuid := Save(msg)]);
            && (Request(saved, uuid) == msg <==> OneLinePerPart(msg))
            && (Call(saved, uuid, a).Succeeded? ==>
                  (Status(AfterCall(saved, uuid, a), uuid) == [OK] + a.reply <==> OneLinePerPart(a.reply)))
  {
    LoadSave(msg);
    LoadSave(a.reply);
    assert ([OK] + Load(Save(a.reply)))[1..] == Load(Save(a.reply)) && ([OK] + a.reply)[1..] == a.reply;
  }
}
