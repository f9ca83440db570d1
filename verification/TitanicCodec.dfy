/**
  How Titanic keeps a multipart message in a text file: one line per part.
 */
module TitanicCodec {
  import opened Wrappers

  const NL: char := '\n'

  function Save(m: Message): string {
    if m == [] then "" else m[0] + [NL] + Save(m[1..])
  }

  /** The length of the first line of `t`. */
  function FirstLine(t: string): (n: nat)
    ensures n <= |t|
    ensures (forall i :: 0 <= i < n ==> t[i] != NL) && (n < |t| ==> t[n] == NL)
  {
    if t == "" || t[0] == NL then 0 else 1 + FirstLine(t[1..])
  }

  /** The text after its first line and that line's end. */
  function Rest(t: string): (r: string)
    ensures t != "" ==> |r| < |t|
  {
    var n := FirstLine(t);
    if n < |t| then t[n + 1..] else ""
  }

  /** Reading line by line until nothing is left; a last line needs no line end. */
  function Load(t: string): Message
    decreases |t|
  {
    if t == "" then [] else [t[..FirstLine(t)]] + Load(Rest(t))
  }

  predicate OneLinePerPart(m: Message) {
    forall i :: 0 <= i < |m| ==> NL !in m[i]
  }

  predicate Terminated(t: string) {
    t == "" || t[|t| - 1] == NL
  }

  // ------------------------------------------------------------------ the two loops

  method SaveMessage(msg: Message) returns (text: string)
    ensures text == Save(msg)
  {
    text := "";
    for i := 0 to |msg|
      invariant text == Save(msg[..i])
    {
      SaveAppend(msg[..i], msg[i]);
      assert msg[..i + 1] == msg[..i] + [msg[i]];
      text := text + msg[i] + [NL];
    }
    assert msg[..|msg|] == msg;
  }

  /** `getline`: how far the next line reaches. */
  method ReadLine(text: string) returns (n: nat)
    ensures n == FirstLine(text)
  {
    n := 0;
    while n < |text| && text[n] != NL
      invariant n <= |text|
      invariant forall i :: 0 <= i < n ==> text[i] != NL
    {
      n := n + 1;
    }
    FirstLineUnique(text, n);
  }

  method LoadMessage(text: string) returns (msg: Message)
    ensures msg == Load(text)
  {
    msg := [];
    var rest := text;
    ghost var result := Load(text);
    while rest != ""
      invariant msg + Load(rest) == result
      decreases |rest|
    {
      var n := ReadLine(rest);
      LoadStep(msg, rest, n);
      msg := msg + [rest[..n]];
      rest := if n < |rest| then rest[n + 1..] else "";
    }
  }

  lemma LoadStep(msg: Message, t: string, n: nat)
    requires t != "" && n == FirstLine(t)
    ensures msg + Load(t) == (msg + [t[..n]]) + Load(if n < |t| then t[n + 1..] else "")
  {
    LoadUnfold(t);
    ConcatAssoc(msg, [t[..n]], Load(Rest(t)));
  }

  lemma LoadUnfold(t: string)
    requires t != ""
    ensures Load(t) == [t[..FirstLine(t)]] + Load(Rest(t))
  {
  }

  lemma {:induction false} FirstLineUnique(t: string, n: nat)
    requires n <= |t| && (n < |t| ==> t[n] == NL)
    requires forall i :: 0 <= i < n ==> t[i] != NL
    ensures FirstLine(t) == n
  {
    if n == 0 {
    } else {
      FirstLineUnique(t[1..], n - 1);
    }
  }

  lemma {:induction false} SaveAppend(m: Message, part: string)
    ensures Save(m + [part]) == Save(m) + part + [NL]
  {
    if m == [] {
      assert Save([part]) == part + [NL] + Save([]);
    } else {
      SaveAppend(m[1..], part);
      assert (m + [part])[1..] == m[1..] + [part];
      assert Save(m + [part]) == m[0] + [NL] + (Save(m[1..]) + part + [NL]);
    }
  }

  // ------------------------------------------------------------------ round trips

  function Newlines(t: string): nat {
    if t == "" then 0 else (if t[0] == NL then 1 else 0) + Newlines(t[1..])
  }

  function PartNewlines(m: Message): nat {
    if m == [] then 0 else Newlines(m[0]) + PartNewlines(m[1..])
  }

  lemma {:induction false} NewlinesConcat(a: string, b: string)
    ensures Newlines(a + b) == Newlines(a) + Newlines(b)
  {
    if a == "" {
      assert a + b == b;
    } else {
      NewlinesConcat(a[1..], b);
      assert (a + b)[1..] == a[1..] + b;
    }
  }

  lemma {:induction false} NewlinesZero(t: string)
    ensures Newlines(t) == 0 <==> NL !in t
  {
    if t == "" {
    } else {
      NewlinesZero(t[1..]);
    }
  }

  lemma {:induction false} SaveNewlines(m: Message)
    ensures Newlines(Save(m)) == |m| + PartNewlines(m)
  {
    if m == [] {
    } else {
      SaveNewlines(m[1..]);
      NewlinesConcat(m[0] + [NL], Save(m[1..]));
      NewlinesConcat(m[0], [NL]);
      assert Newlines([NL]) == 1;
    }
  }

  lemma {:induction false} SaveTerminated(m: Message)
    ensures Terminated(Save(m))
  {
    if m == [] {
    } else {
      SaveTerminated(m[1..]);
    }
  }

  lemma {:induction false} FirstLineStops(t: string)
    requires NL in t
    ensures FirstLine(t) < |t|
  {
    if t[0] == NL {
    } else {
      FirstLineStops(t[1..]);
    }
  }

  lemma SplitFirst(t: string)
    requires t != "" && Terminated(t)
    ensures FirstLine(t) < |t| && t == t[..FirstLine(t)] + [NL] + Rest(t) && Terminated(Rest(t))
  {
    FirstLineStops(t);
    SplitAt(t, FirstLine(t));
  }

  lemma SplitAt(t: string, n: nat)
    requires n < |t|
    ensures t == t[..n] + [t[n]] + t[n + 1..]
    ensures Terminated(t) ==> Terminated(t[n + 1..])
  {
  }

  /** A text that ends in a line end loads into as many parts as it has line ends. */
  lemma {:induction false} LoadCountsLines(t: string)
    requires Terminated(t)
    ensures |Load(t)| == Newlines(t)
    decreases |t|
  {
    if t == "" {
    } else {
      var n := FirstLine(t);
      SplitFirst(t);
      NewlinesConcat(t[..n] + [NL], Rest(t));
      NewlinesConcat(t[..n], [NL]);
      NewlinesZero(t[..n]);
      assert Newlines([NL]) == 1;
      LoadCountsLines(Rest(t));
    }
  }

  lemma {:induction false} PartNewlinesZero(m: Message)
    ensures PartNewlines(m) == 0 <==> OneLinePerPart(m)
  {
    if m == [] {
    } else {
      PartNewlinesZero(m[1..]);
      NewlinesZero(m[0]);
      assert OneLinePerPart(m) ==> OneLinePerPart(m[1..]);
      assert OneLinePerPart(m[1..]) && NL !in m[0] ==> OneLinePerPart(m) by {
        if OneLinePerPart(m[1..]) && NL !in m[0] {
          forall i | 0 <= i < |m| ensures NL !in m[i] {
            assert i > 0 ==> m[i] == m[1..][i - 1];
          }
        }
      }
    }
  }

  lemma {:induction false} LoadSaveClean(m: Message)
    requires OneLinePerPart(m)
    ensures Load(Save(m)) == m
  {
    if m == [] {
    } else {
      var t := Save(m);
      assert t[..|m[0]|] == m[0] && t[|m[0]|] == NL && t[|m[0]| + 1..] == Save(m[1..]);
      FirstLineUnique(t, |m[0]|);
      LoadSaveClean(m[1..]);
    }
  }

  /** A message survives the file exactly when none of its parts holds a line end. */
  lemma LoadSave(m: Message)
    ensures Load(Save(m)) == m <==> OneLinePerPart(m)
  {
    if OneLinePerPart(m) {
      LoadSaveClean(m);
    } else {
      SaveTerminated(m);
      LoadCountsLines(Save(m));
      SaveNewlines(m);
      PartNewlinesZero(m);
    }
  }

  lemma {:induction false} SaveLoadTerminated(t: string)
    requires Terminated(t)
    ensures Save(Load(t)) == t
    decreases |t|
  {
    if t == "" {
    } else {
      SplitFirst(t);
      SaveLoadTerminated(Rest(t));
      SaveCons(t[..FirstLine(t)], Load(Rest(t)));
    }
  }

  lemma SaveCons(part: string, m: Message)
    ensures Save([part] + m) == part + [NL] + Save(m)
  {
    assert ([part] + m)[1..] == m;
  }

  /** A text survives loading and saving exactly when it is empty or its last line is ended. */
  lemma SaveLoad(t: string)
    ensures Save(Load(t)) == t <==> Terminated(t)
  {
    SaveTerminated(Load(t));
    if Terminated(t) {
      SaveLoadTerminated(t);
    }
  }
}
