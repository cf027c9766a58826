/** Sentences of the RouterOS API and the two objects that consume the replies to one tagged
    request: the reply of a `Run` call (reply.go, run.go) and the reply of a `Listen` call
    (listen.go), both built on the channel record of chan_reply.go.

    A Go string is a Dafny string with one char per byte. */
module Protocol {

  datatype Option<+T> = None | Some(value: T)

  datatype Pair = Pair(key: string, value: string)

  /** A sentence read from the device (proto/sentence.go): `attrs` holds the last value of each key
      of `list`. */
  datatype Sentence = Sentence(word: string, tag: string, list: seq<Pair>, attrs: map<string, string>)

  datatype Error =
    | DeviceError(sen: Sentence)
    | UnknownReplyError(sen: Sentence)
    | ReadError(code: int)
    | WriteError
    | LoopEndedError
    | ContextError

  /** What `processSentence` returns. */
  datatype Verdict = Verdict(done: bool, err: Option<Error>) {
    /** The async loop ends a stream when it is done or failed (async.go:80). */
    predicate Ends() {
      done || err.Some?
    }
  }

  const RE := "!re"
  const DONE := "!done"
  const TRAP := "!trap"
  const FATAL := "!fatal"
  const EMPTY := "!empty"

  predicate IsErrorWord(sen: Sentence) {
    sen.word == TRAP || sen.word == FATAL
  }

  /** State of a Go channel used only for signalling: nil, open or closed. */
  datatype Chan = NilChan | OpenChan | ClosedChan

  /** What a consumer has accumulated. The channel of a listener is its whole history of sends. */
  datatype Body =
    | RunBody(re: seq<Sentence>, done: Option<Sentence>)
    | ListenBody(sent: seq<Sentence>, done: Option<Sentence>, stop: Chan)

  /** The category-2 trap is the device's acknowledgement of a cancelled listen (listen.go:130). */
  predicate IsInterrupted(sen: Sentence) {
    "category" in sen.attrs && sen.attrs["category"] == "2"
  }

  function VerdictOf(b: Body, sen: Sentence): Verdict {
    if sen.word == RE || sen.word == "" || sen.word == EMPTY then Verdict(false, None)
    else if sen.word == DONE then Verdict(true, None)
    else if b.ListenBody? then
      if sen.word == TRAP then
        if IsInterrupted(sen) then Verdict(true, None) else Verdict(true, Some(DeviceError(sen)))
      else if sen.word == FATAL then Verdict(true, Some(DeviceError(sen)))
      else Verdict(true, Some(UnknownReplyError(sen)))
    else if IsErrorWord(sen) then Verdict(sen.word == FATAL, Some(DeviceError(sen)))
    else Verdict(true, Some(UnknownReplyError(sen)))
  }

  function CloseStop(c: Chan): Chan {
    if c.NilChan? then NilChan else ClosedChan
  }

  /** The consumer after one more sentence. */
  function Absorb(b: Body, sen: Sentence): Body {
    if b.RunBody? then
      if sen.word == RE then b.(re := b.re + [sen])
      else if sen.word == DONE then RunBody(b.re, Some(sen))
      else b
    else if sen.word == RE then b.(sent := b.sent + [sen])
    else if VerdictOf(b, sen).Ends() then
      ListenBody(b.sent,
                 if VerdictOf(b, sen).err.None? then Some(sen) else b.done,
                 CloseStop(b.stop))
    else b
  }

  /** A stream of sentences consumed up to the first one that ends it. */
  datatype Progress = Running(body: Body) | Finished(body: Body, err: Option<Error>)

  function Advance(p: Progress, sen: Sentence): Progress {
    match p
    case Finished(_, _) => p
    case Running(b) =>
      var v := VerdictOf(b, sen);
      if v.Ends() then Finished(Absorb(b, sen), v.err) else Running(Absorb(b, sen))
  }

  function Fold(b: Body, sens: seq<Sentence>): Progress {
    if sens == [] then Running(b)
    else Advance(Fold(b, sens[..|sens| - 1]), sens[|sens| - 1])
  }

  /** The sentences of `h` from index `from` on that carry `tag`, in order. */
  function Mine(h: seq<Sentence>, tag: string, from: nat): seq<Sentence> {
    if |h| <= from then []
    else
      var before := Mine(h[..|h| - 1], tag, from);
      if h[|h| - 1].tag == tag then before + [h[|h| - 1]] else before
  }

  function DataSentences(sens: seq<Sentence>): seq<Sentence> {
    if sens == [] then []
    else
      var before := DataSentences(sens[..|sens| - 1]);
      if sens[|sens| - 1].word == RE then before + [sens[|sens| - 1]] else before
  }

  /** What a finished run or listener holds, said of the sentences instead of step by step: a
      prefix of the stream was consumed, its last sentence ended the stream and no earlier one
      did, the data sentences before it were all kept in order, and `done` is that last sentence
      exactly when it carries no error. */
  ghost predicate EndsWith(b: Body, sens: seq<Sentence>, n: nat, last: Body, err: Option<Error>) {
    && n < |sens|
    && (forall i :: 0 <= i < n ==> !VerdictOf(b, sens[i]).Ends())
    && VerdictOf(b, sens[n]).Ends()
    && err == VerdictOf(b, sens[n]).err
    && last.RunBody? == b.RunBody?
    && (b.RunBody? ==> last.re == b.re + DataSentences(sens[..n]))
    && (b.ListenBody? ==> last.sent == b.sent + DataSentences(sens[..n]) && last.stop == CloseStop(b.stop))
    && last.done == (if err.None? then Some(sens[n]) else b.done)
  }

  lemma VerdictIgnoresProgress(b: Body, c: Body, sen: Sentence)
    requires b.RunBody? == c.RunBody?
    ensures VerdictOf(b, sen) == VerdictOf(c, sen)
  {
  }

  /** A stream nothing has ended yet holds exactly its data sentences. */
  lemma {:induction false} RunningHoldsData(b: Body, sens: seq<Sentence>)
    requires forall i :: 0 <= i < |sens| ==> !VerdictOf(b, sens[i]).Ends()
    ensures Fold(b, sens).Running?
    ensures b.RunBody? ==> Fold(b, sens).body == b.(re := b.re + DataSentences(sens))
    ensures b.ListenBody? ==> Fold(b, sens).body == b.(sent := b.sent + DataSentences(sens))
  {
    if sens == [] {
      assert b.RunBody? ==> b.re + [] == b.re;
      assert b.ListenBody? ==> b.sent + [] == b.sent;
    } else {
      var init := sens[..|sens| - 1];
      RunningHoldsData(b, init);
      VerdictIgnoresProgress(b, Fold(b, init).body, sens[|sens| - 1]);
      assert !VerdictOf(b, sens[|sens| - 1]).Ends();
    }
  }

  lemma {:induction false} FinishedIsFrozen(b: Body, sens: seq<Sentence>, n: nat)
    requires n <= |sens| && Fold(b, sens[..n]).Finished?
    ensures Fold(b, sens) == Fold(b, sens[..n])
  {
    if n < |sens| {
      assert sens[..|sens| - 1][..n] == sens[..n];
      FinishedIsFrozen(b, sens[..|sens| - 1], n);
    } else {
      assert sens[..n] == sens;
    }
  }

  /** The fold finishes exactly at the first sentence that ends the stream. */
  lemma {:induction false} FinishedAtFirstEnd(b: Body, sens: seq<Sentence>, n: nat)
    requires n < |sens|
    requires forall i :: 0 <= i < n ==> !VerdictOf(b, sens[i]).Ends()
    requires VerdictOf(b, sens[n]).Ends()
    ensures Fold(b, sens).Finished?
    ensures EndsWith(b, sens, n, Fold(b, sens).body, Fold(b, sens).err)
  {
    var before, upTo := sens[..n], sens[..n + 1];
    RunningHoldsData(b, before);
    assert upTo[..n] == before && upTo[n] == sens[n];
    VerdictIgnoresProgress(b, Fold(b, before).body, sens[n]);
    FinishedIsFrozen(b, sens, n + 1);
  }

  /** Both directions: a fold that finished consumed a prefix as `EndsWith` says, and a fold that
      is still running saw no ending sentence and holds all data sentences. */
  lemma {:induction false} FoldMeaning(b: Body, sens: seq<Sentence>)
    ensures Fold(b, sens).Finished? <==> exists i :: 0 <= i < |sens| && VerdictOf(b, sens[i]).Ends()
    ensures Fold(b, sens).Finished? ==>
              exists n: nat :: EndsWith(b, sens, n, Fold(b, sens).body, Fold(b, sens).err)
    ensures Fold(b, sens).Running? && b.RunBody? ==>
              Fold(b, sens).body == b.(re := b.re + DataSentences(sens))
    ensures Fold(b, sens).Running? && b.ListenBody? ==>
              Fold(b, sens).body == b.(sent := b.sent + DataSentences(sens))
  {
    if i :| 0 <= i < |sens| && VerdictOf(b, sens[i]).Ends() {
      var n := FirstEnd(b, sens, i);
      FinishedAtFirstEnd(b, sens, n);
    } else {
      RunningHoldsData(b, sens);
    }
  }

  lemma FirstEnd(b: Body, sens: seq<Sentence>, i: nat) returns (n: nat)
    requires i < |sens| && VerdictOf(b, sens[i]).Ends()
    ensures n <= i && VerdictOf(b, sens[n]).Ends()
    ensures forall j :: 0 <= j < n ==> !VerdictOf(b, sens[j]).Ends()
  {
    n := 0;
    while !VerdictOf(b, sens[n]).Ends()
      invariant n <= i
      invariant forall j :: 0 <= j < n ==> !VerdictOf(b, sens[j]).Ends()
      decreases i - n
    {
      n := n + 1;
    }
  }

  lemma {:induction false} MineOfConcat(h: seq<Sentence>, more: seq<Sentence>, tag: string)
    ensures Mine(h + more, tag, 0) == Mine(h, tag, 0) + Mine(more, tag, 0)
  {
    if more == [] {
      assert h + more == h;
    } else {
      var n := |more| - 1;
      assert (h + more)[..|h + more| - 1] == h + more[..n];
      MineOfConcat(h, more[..n], tag);
    }
  }

  lemma {:induction false} NothingOfForeign(h: seq<Sentence>, tag: string)
    requires forall i :: 0 <= i < |h| ==> h[i].tag != tag
    ensures Mine(h, tag, 0) == []
  {
    if h != [] {
      NothingOfForeign(h[..|h| - 1], tag);
    }
  }

  /** Sentences with other tags can be added or removed anywhere: what is of the stream stays. */
  lemma MineSkipsForeign(before: seq<Sentence>, foreign: seq<Sentence>, after: seq<Sentence>, tag: string)
    requires forall i :: 0 <= i < |foreign| ==> foreign[i].tag != tag
    ensures Mine(before + foreign + after, tag, 0) == Mine(before + after, tag, 0)
  {
    NothingOfForeign(foreign, tag);
    MineOfConcat(before + foreign, after, tag);
    MineOfConcat(before, foreign, tag);
    MineOfConcat(before, after, tag);
  }

  /** One more sentence in the history. */
  lemma FoldNext(b: Body, h: seq<Sentence>, sen: Sentence, tag: string, from: nat)
    requires from <= |h|
    ensures Fold(b, Mine(h + [sen], tag, from)) ==
              if sen.tag == tag then Advance(Fold(b, Mine(h, tag, from)), sen) else Fold(b, Mine(h, tag, from))
  {
    assert (h + [sen])[..|h|] == h;
    var mine := Mine(h, tag, from);
    assert (mine + [sen])[..|mine|] == mine;
  }

  /** Where a stream starts does not matter as long as nothing of it came before. */
  lemma {:induction false} MineFromLater(h: seq<Sentence>, tag: string, from: nat)
    requires forall i :: 0 <= i < from && i < |h| ==> h[i].tag != tag
    ensures Mine(h, tag, from) == Mine(h, tag, 0)
  {
    if h != [] {
      MineFromLater(h[..|h| - 1], tag, from);
      if |h| <= from {
        assert Mine(h[..|h| - 1], tag, 0) == [];
      }
    }
  }
}
