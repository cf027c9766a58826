/** The reply objects of reply.go, listen.go and chan_reply.go, the synchronous reply loop of run.go,
    and how its results compare with those of the async loop. */
module Replies {
  import opened Protocol
  import opened Codec
  import opened Wire

  /** `Reply`. */
  class Reply {
    var re: seq<Sentence>
    var done: Option<Sentence>

    constructor ()
      ensures AsBody() == RunBody([], None)
    {
      re, done := [], None;
    }

    function AsBody(): Body
      reads this
    {
      RunBody(re, done)
    }

    method ProcessSentence(sen: Sentence) returns (v: Verdict)
      modifies this
      ensures AsBody() == Absorb(old(AsBody()), sen)
      ensures v == VerdictOf(old(AsBody()), sen)
    {
      if sen.word == RE {
        re := re + [sen];
      } else if sen.word == DONE {
        done := Some(sen);
        return Verdict(true, None);
      } else if sen.word == TRAP || sen.word == FATAL {
        return Verdict(sen.word == FATAL, Some(DeviceError(sen)));
      } else if sen.word != "" && sen.word != EMPTY {
        return Verdict(true, Some(UnknownReplyError(sen)));
      }
      return Verdict(false, None);
    }
  }

  /** `ListenReply` with its channel record. Sending on a closed channel and closing one twice are
      what the preconditions rule out; `Multiplexer` proves that no run gets there. */
  class ListenReply {
    var sent: seq<Sentence>
    var closed: bool
    var done: Option<Sentence>
    var err: Option<Error>
    var stop: Chan

    constructor (withStop: bool)
      ensures AsBody() == ListenBody([], None, if withStop then OpenChan else NilChan)
      ensures !closed && err == None
    {
      sent, closed, done, err := [], false, None, None;
      stop := if withStop then OpenChan else NilChan;
    }

    function AsBody(): Body
      reads this
    {
      ListenBody(sent, done, stop)
    }

    method CloseStop()
      requires stop != ClosedChan
      modifies this`stop
      ensures stop == Protocol.CloseStop(old(stop))
    {
      if stop == OpenChan {
        stop := ClosedChan;
      }
    }

    method ProcessSentence(sen: Sentence) returns (v: Verdict)
      requires !closed && stop != ClosedChan
      modifies this
      ensures AsBody() == Absorb(old(AsBody()), sen)
      ensures v == VerdictOf(old(AsBody()), sen)
      ensures !v.Ends() ==> stop != ClosedChan
      ensures closed == old(closed) && err == old(err)
    {
      if sen.word == RE {
        sent := sent + [sen];
      } else if sen.word == DONE {
        done := Some(sen);
        CloseStop();
        return Verdict(true, None);
      } else if sen.word == TRAP {
        if "category" in sen.attrs && sen.attrs["category"] == "2" {
          done := Some(sen);
          CloseStop();
          return Verdict(true, None);
        }
        CloseStop();
        return Verdict(true, Some(DeviceError(sen)));
      } else if sen.word == FATAL {
        CloseStop();
        return Verdict(true, Some(DeviceError(sen)));
      } else if sen.word != "" && sen.word != EMPTY {
        CloseStop();
        return Verdict(true, Some(UnknownReplyError(sen)));
      }
      return Verdict(false, None);
    }

    method Close(cause: Option<Error>)
      requires !closed
      modifies this
      ensures closed && AsBody() == old(AsBody())
      ensures err == if old(err).None? then cause else old(err)
    {
      if err == None {
        err := cause;
      }
      closed := true;
    }
  }

  // ----- the synchronous loop -----

  /** `(out, lastErr)`, or `(nil, err)`. */
  datatype SyncResult = Replied(body: Body, lastErr: Option<Error>) | Refused(err: Error)

  function ErrorOf(r: SyncResult): Option<Error> {
    match r
    case Replied(_, e) => e
    case Refused(e) => Some(e)
  }

  function AsError(f: Fault): Error {
    match f
    case EndOfInput => ReadError(-1)
    case UnexpectedEnd => ReadError(-2)
    case InvalidWord(_) => ReadError(-3)
    case Connection(code) => ReadError(code)
  }

  lemma {:induction false} ReadFromConsumes(sen: Sentence, input: string, end: End)
    ensures ReadSentenceFrom(sen, input, end).Got? ==> |ReadSentenceFrom(sen, input, end).rest| < |input|
    decreases |input|
  {
    ReadWordConsumes(input, end);
    match ReadWord(input, end)
    case Failed(_) =>
    case Got(w, rest) =>
      if w != [] {
        match AddWord(sen, w)
        case None =>
        case Some(next) => ReadFromConsumes(next, rest, end);
      }
  }

  /** The reply loop on the bytes of the connection. */
  function SyncRun(b: Body, lastErr: Option<Error>, input: string, end: End): SyncResult
    decreases |input|
  {
    ReadFromConsumes(EMPTY_SENTENCE, input, end);
    match ReadSentence(input, end)
    case Failed(f) => Refused(AsError(f))
    case Got(sen, rest) =>
      var v := VerdictOf(b, sen);
      if v.err.Some? && v.done then Refused(v.err.value)
      else if v.err.Some? then SyncRun(Absorb(b, sen), v.err, rest, end)
      else if v.done then Replied(Absorb(b, sen), lastErr)
      else SyncRun(Absorb(b, sen), lastErr, rest, end)
  }

  /** `runArgsContextSync` after the command has been written. */
  method RunSync(r: Reader) returns (out: Reply, replied: bool, err: Option<Error>)
    requires r.src.Valid()
    modifies r.src
    ensures r.src.Valid() && fresh(out)
    ensures match SyncRun(RunBody([], None), None, old(r.src.Pending()), r.src.end)
            case Replied(b, lastErr) => replied && out.AsBody() == b && err == lastErr
            case Refused(e) => !replied && err == Some(e)
  {
    out := new Reply();
    err := None;
    while true
      invariant r.src.Valid() && fresh(out)
      invariant SyncRun(RunBody([], None), None, old(r.src.Pending()), r.src.end)
                == SyncRun(out.AsBody(), err, r.src.Pending(), r.src.end)
      decreases |r.src.Pending()|
    {
      var sen, fault := r.ReadSentence();
      if fault.Some? {
        return out, false, Some(AsError(fault.value));
      }
      var v := out.ProcessSentence(sen);
      if v.err.Some? && v.done {
        return out, false, v.err;
      } else if v.err.Some? {
        err := v.err;
      } else if v.done {
        return out, true, err;
      }
    }
  }

  // ----- sync and async -----

  /** The reply loop on a list of sentences; `None` while it waits for more. */
  function SyncFold(b: Body, lastErr: Option<Error>, sens: seq<Sentence>): Option<SyncResult>
    decreases |sens|
  {
    if sens == [] then None
    else
      var v := VerdictOf(b, sens[0]);
      if v.err.Some? && v.done then Some(Refused(v.err.value))
      else if v.err.Some? then SyncFold(Absorb(b, sens[0]), v.err, sens[1..])
      else if v.done then Some(Replied(Absorb(b, sens[0]), lastErr))
      else SyncFold(Absorb(b, sens[0]), lastErr, sens[1..])
  }

  /** What the loop decides on the first `k` sentences it decides on the bytes. */
  lemma {:induction false} SyncRunFolds(b: Body, lastErr: Option<Error>, input: string, end: End, k: nat)
    requires ReadSentences(input, end, k).Got?
    requires SyncFold(b, lastErr, ReadSentences(input, end, k).value).Some?
    ensures SyncRun(b, lastErr, input, end) == SyncFold(b, lastErr, ReadSentences(input, end, k).value).value
    decreases k
  {
    var sens := ReadSentences(input, end, k).value;
    var one := ReadSentence(input, end);
    var v := VerdictOf(b, one.value);
    assert sens[0] == one.value && sens[1..] == ReadSentences(one.rest, end, k - 1).value;
    if v.err.Some? && !v.done {
      SyncRunFolds(Absorb(b, one.value), v.err, one.rest, end, k - 1);
    } else if !v.done {
      SyncRunFolds(Absorb(b, one.value), lastErr, one.rest, end, k - 1);
    }
  }

  /** The async fold taken from the front. */
  function FoldFrom(p: Progress, sens: seq<Sentence>): Progress
    decreases |sens|
  {
    if sens == [] then p else FoldFrom(Advance(p, sens[0]), sens[1..])
  }

  lemma {:induction false} FoldFromSnoc(p: Progress, sens: seq<Sentence>, sen: Sentence)
    ensures FoldFrom(p, sens + [sen]) == Advance(FoldFrom(p, sens), sen)
    decreases |sens|
  {
    if sens == [] {
      assert sens + [sen] == [sen] && [sen][1..] == [];
    } else {
      assert (sens + [sen])[1..] == sens[1..] + [sen];
      FoldFromSnoc(Advance(p, sens[0]), sens[1..], sen);
    }
  }

  lemma {:induction false} FoldIsFoldFrom(b: Body, sens: seq<Sentence>)
    ensures Fold(b, sens) == FoldFrom(Running(b), sens)
  {
    if sens != [] {
      var n := |sens| - 1;
      FoldIsFoldFrom(b, sens[..n]);
      FoldFromSnoc(Running(b), sens[..n], sens[n]);
      assert sens == sens[..n] + [sens[n]];
    }
  }

  lemma {:induction false} FinishedStays(p: Progress, sens: seq<Sentence>)
    requires p.Finished?
    ensures FoldFrom(p, sens) == p
    decreases |sens|
  {
    if sens != [] {
      FinishedStays(p, sens[1..]);
    }
  }

  /** The errors of a reply to a run, up to the sentence at which the sync loop stops. */
  function ReplyErrors(sens: seq<Sentence>): seq<Error> {
    if sens == [] then []
    else
      var v := VerdictOf(RunBody([], None), sens[0]);
      var first := if v.err.Some? then [v.err.value] else [];
      if v.done then first else first + ReplyErrors(sens[1..])
  }

  lemma {:induction false} CompareFrom(b: Body, lastErr: Option<Error>, sens: seq<Sentence>)
    requires b.RunBody? && SyncFold(b, lastErr, sens).Some?
    ensures var r, p, errs := SyncFold(b, lastErr, sens).value, FoldFrom(Running(b), sens), ReplyErrors(sens);
            && p.Finished?
            && (errs == [] ==> p.err.None? && r == Replied(p.body, lastErr))
            && (errs != [] ==> p.err == Some(errs[0]) && ErrorOf(r) == Some(errs[|errs| - 1]))
    decreases |sens|
  {
    var v := VerdictOf(b, sens[0]);
    var next := Absorb(b, sens[0]);
    VerdictIgnoresProgress(b, RunBody([], None), sens[0]);
    if v.Ends() {
      FinishedStays(Finished(next, v.err), sens[1..]);
    }
    if !v.done {
      CompareFrom(next, if v.err.Some? then v.err else lastErr, sens[1..]);
    }
  }

  /** Whenever the sync loop reaches a result, so does the async one on the same sentences. Without
      an error sentence both return the same reply and nil; with errors the async loop returns the
      first and the sync loop the last of them, so that they agree if and only if those two are
      equal, as they are when there is just one. */
  lemma SyncAndAsync(sens: seq<Sentence>)
    requires SyncFold(RunBody([], None), None, sens).Some?
    ensures var r, p := SyncFold(RunBody([], None), None, sens).value, Fold(RunBody([], None), sens);
            var errs := ReplyErrors(sens);
            && p.Finished?
            && (errs == [] <==> p.err.None?)
            && (errs == [] ==> r == Replied(p.body, None))
            && (errs != [] ==> p.err == Some(errs[0]) && ErrorOf(r) == Some(errs[|errs| - 1]))
            && (ErrorOf(r) == p.err <==> errs == [] || errs[0] == errs[|errs| - 1])
            && (|errs| <= 1 ==> ErrorOf(r) == p.err)
  {
    FoldIsFoldFrom(RunBody([], None), sens);
    CompareFrom(RunBody([], None), None, sens);
  }

  /** Two traps in one reply: the async run reports the first, the sync run the second. */
  lemma TwoTrapsDiffer(a: Sentence, b: Sentence, done: Sentence)
    requires a.word == TRAP && b.word == TRAP && a != b && done.word == DONE
    ensures Fold(RunBody([], None), [a, b, done]) == Finished(RunBody([], None), Some(DeviceError(a)))
    ensures SyncFold(RunBody([], None), None, [a, b, done]) ==
            Some(Replied(RunBody([], Some(done)), Some(DeviceError(b))))
  {
    var start := RunBody([], None);
    FoldIsFoldFrom(start, [a, b, done]);
    FinishedStays(Finished(start, Some(DeviceError(a))), [a, b, done][1..]);
    assert [a, b, done][1..] == [b, done] && [b, done][1..] == [done];
    assert SyncFold(start, Some(DeviceError(b)), [done]).Some?;
    assert SyncFold(start, Some(DeviceError(a)), [b, done]) == SyncFold(start, Some(DeviceError(b)), [done]);
  }
}
