/**
  The Titanic client: it submits a request, asks for the reply until it gets one, and only then
  closes the request.
 */
module TitanicClient {
  import opened Wrappers
  import opened TitanicCodec
  import opened TitanicQueue
  import opened TitanicProtocol

  /** Any answer but a 200 counts as none. */
  function ServiceCall(answer: Message): Message {
    if answer != [] && answer[0] == OK then answer else []
  }

  /** Submit: the uuid, or none where the program throws: no 200, or no second frame in it. */
  method Submit(service: string, request: Message, answer: Message) returns (sent: Message, uuid: Option<string>)
    ensures sent == [service] + request
    ensures uuid.Some? <==> |answer| >= 2 && answer[0] == "200"
    ensures uuid.Some? ==> uuid.value == answer[1]
  {
    sent := [service] + request;
    var reply := ServiceCall(answer);
    if reply == [] {
      return sent, None;
    }
    if reply[0] == OK && |reply| >= 2 {
      uuid := Some(reply[1]);
    } else {
      uuid := None;
    }
  }

  /**
    Ask until an answer is a 200; `answers` are what the polls are answered, one after the other.
    The request is closed exactly when a 200 came, after the first poll that brought one.
   */
  method Receive(answers: seq<Message>) returns (result: Message, polls: nat, closed: bool)
    ensures closed <==> exists i :: 0 <= i < |answers| && answers[i] != [] && answers[i][0] == "200"
    ensures closed ==> 0 < polls <= |answers| && result == answers[polls - 1] && result != [] && result[0] == "200"
    ensures closed ==> forall i :: 0 <= i < polls - 1 ==> answers[i] == [] || answers[i][0] != "200"
    ensures !closed ==> polls == |answers| && result == []
  {
    polls := 0;
    while polls < |answers|
      invariant polls <= |answers|
      invariant forall i :: 0 <= i < polls ==> answers[i] == [] || answers[i][0] != "200"
    {
      var res := ServiceCall(answers[polls]);
      polls := polls + 1;
      if res != [] {
        return res, polls, true;
      }
    }
    return [], polls, false;
  }

  // ------------------------------------------------------------------ the client in the protocol

  /** Some poll for `u` was answered with a first frame "200". */
  predicate Told(polls: seq<Poll>, u: string) {
    exists j :: 0 <= j < |polls| && polls[j].uuid == u && polls[j].answer != [] && polls[j].answer[0] == "200"
  }

  lemma ToldIsAnswered(polls: seq<Poll>, u: string)
    ensures Told(polls, u) <==> Answered(polls, u)
  {
    if Told(polls, u) {
      var j :| 0 <= j < |polls| && polls[j].uuid == u && polls[j].answer != [] && polls[j].answer[0] == "200";
      assert Found(polls[j].answer);
    }
    if Answered(polls, u) {
      var j :| 0 <= j < |polls| && polls[j].uuid == u && Found(polls[j].answer);
    }
  }

  lemma DeliveredIsAnswered(steps: seq<Step>, u: string)
    requires Run(START, steps)
    ensures u in Final(START, steps).delivered <==> Answered(Final(START, steps).polls, u)
  {
    StartInv();
    InvRun(START, steps);
    HistoryRun(START, steps);
  }

  /** In every run, the protocol lets a request be closed exactly when some poll for it was answered 200. */
  lemma ClosableExactly(steps: seq<Step>, u: string)
    requires Run(START, steps)
    ensures var t := Final(START, steps);
            Enabled(t, CloseBegin(u)) <==> t.closePc == Open && Told(t.polls, u)
  {
    DeliveredIsAnswered(steps, u);
    ToldIsAnswered(Final(START, steps).polls, u);
  }

  /** What the client got back for its polls: the answer of one of them, or nothing in time. */
  predicate Heard(polls: seq<Poll>, u: string, answers: seq<Message>) {
    forall i :: 0 <= i < |answers| ==>
      answers[i] == [] || exists j :: 0 <= j < |polls| && polls[j].uuid == u && polls[j].answer == answers[i]
  }

  /** The client keeps to the protocol: it closes only what the protocol lets it close. */
  lemma ClientConforms(steps: seq<Step>, u: string, answers: seq<Message>, k: nat)
    requires Run(START, steps) && Heard(Final(START, steps).polls, u, answers)
    requires k < |answers| && answers[k] != [] && answers[k][0] == "200"
    ensures var t := Final(START, steps);
            t.closePc == Open ==> Enabled(t, CloseBegin(u))
  {
    ClosableExactly(steps, u);
  }
}
