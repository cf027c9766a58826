/** Concrete runs that show where the multiplexer does less than its documentation may suggest. */
module MuxScenarios {
  import opened Protocol
  import opened Tags
  import opened Codec
  import opened CodecProofs
  import opened Multiplexer
  import opened MuxTheorems
  import Text

  lemma Reach(s: State, a: Step)
    requires Reachable(s) && Enabled(s, a)
    ensures Reachable(Next(s, a))
  {
    var steps :| Execute(Initial(), steps) == Some(s);
    assert (steps + [a])[..|steps|] == steps;
    assert Execute(Initial(), steps + [a]) == Some(Next(s, a));
  }

  lemma Start0()
    ensures Reachable(Initial())
  {
    assert Execute(Initial(), []) == Some(Initial());
  }

  /** The only goroutine is at `pc`, and nothing else that matters differs between the two states. */
  ghost predicate Arrives(s: State, t: State, pc: PC) {
    && Reachable(t) && t.threads == map[0 := Thread(pc, {})]
    && t.loop == s.loop && t.history == s.history && t.calls == s.calls && t.stateMu.Free?
  }

  lemma BeginSentence(s: State, words: seq<string>) returns (t: State)
    requires Reachable(s) && s.threads == map[] && s.writerMu.Free? && s.stateMu.Free?
    ensures Arrives(s, t, Writing(Job(RunCall, words, None), 0))
    ensures t.core == s.core && t.sink == s.sink
  {
    hide Reachable;
    var s1 := Next(s, Spawn(0));
    Reach(s, Spawn(0));
    var s2 := Next(s1, CallRun(0, words));
    Reach(s1, CallRun(0, words));
    t := Next(s2, LockWriter(0));
    Reach(s2, LockWriter(0));
    assert t.threads == map[0 := Thread(Writing(Job(RunCall, words, None), 0), {})];
  }

  lemma {:induction false} WriteWords(s: State, j: Job, k: nat) returns (t: State)
    requires k <= |j.words| && Arrives(s, s, Writing(j, k)) && !s.sink.failed
    ensures Arrives(s, t, Writing(j, |j.words|)) && t.core == s.core && !t.sink.failed
    decreases |j.words| - k
  {
    hide Reachable;
    t := s;
    if k < |j.words| {
      var s1 := Next(s, WriteWord(0, None));
      Reach(s, WriteWord(0, None));
      assert s1.threads == map[0 := Thread(Writing(j, k + 1), {})];
      t := WriteWords(s1, j, k + 1);
    }
  }

  lemma GetTag(s: State, words: seq<string>) returns (t: State)
    requires Arrives(s, s, Writing(Job(RunCall, words, None), |words|))
    ensures var own := TagName(RunKind, |s.core.heap| + 1);
            Arrives(s, t, Writing(Job(RunCall, words + [TagWord(own)], Some(|s.core.heap|)), |words|))
    ensures t.core == Issue(s.core, RunKind, 0) && t.sink == s.sink
  {
    hide Reachable;
    var s1 := Next(s, WordsDone(0));
    Reach(s, WordsDone(0));
    var s2 := Next(s1, IsAsync(0));
    Reach(s1, IsAsync(0));
    t := Next(s2, Number(0));
    Reach(s2, Number(0));
    var own := TagName(RunKind, |s.core.heap| + 1);
    var j := Job(RunCall, words + [TagWord(own)], Some(|s.core.heap|));
    assert t.threads == map[0 := Thread(Writing(j, |words|), {})];
  }

  lemma AskTags(s: State, j: Job) returns (t: State)
    requires Arrives(s, s, Writing(j, |j.words|)) && j.flavour.RunCall? && j.id.Some?
    ensures Arrives(s, t, WantTags(j)) && t.core == s.core && t.sink == s.sink
  {
    hide Reachable;
    t := Next(s, WordsDone(0));
    Reach(s, WordsDone(0));
    assert t.threads == map[0 := Thread(WantTags(j), {})];
  }

  /** A caller writes its words, gets its tag, writes the tag word and asks for the tag map. */
  lemma BeginRun(s: State, words: seq<string>) returns (t: State, j: Job)
    requires Reachable(s) && s.threads == map[] && s.writerMu.Free? && s.stateMu.Free? && !s.sink.failed
    ensures Arrives(s, t, WantTags(j)) && t.core == Issue(s.core, RunKind, 0) && !t.sink.failed
    ensures j == Job(RunCall, words + [TagWord(TagName(RunKind, |s.core.heap| + 1))], Some(|s.core.heap|))
  {
    hide Reachable, TagName;
    var s1 := BeginSentence(s, words);
    var s2 := WriteWords(s1, Job(RunCall, words, None), 0);
    var s3 := GetTag(s2, words);
    j := Job(RunCall, words + [TagWord(TagName(RunKind, |s.core.heap| + 1))], Some(|s.core.heap|));
    var s4 := WriteWords(s3, j, |words|);
    t := AskTags(s4, j);
  }

  /** The first run of all is on the wire. */
  lemma FirstRun(words: seq<string>) returns (t: State)
    ensures Reachable(t) && t.calls == [words + [TagWord("r1")]] && !t.sink.failed
    ensures t.sink.out == EncodeSentence(words + [TagWord("r1")])
    ensures t.loop.Reading? && t.threads.Keys == {0} && At(t, 0).RunEnded? && At(t, 0).ok && t.stateMu == Held(0)
    ensures At(t, 0).job.id == Some(0) && |t.core.heap| == 1 && InTags(t.core, 0)
    ensures t.core.heap[0].body == RunBody([], None) && t.core.heap[0].err.None?
  {
    hide Reachable, EncodeSentence;
    Start0();
    var s1, j := BeginRun(Initial(), words);
    assert TagName(RunKind, 1) == "r1" by { assert Decimal(1) == ['1']; }
    hide TagName;
    var s2 := Next(s1, LockTags(0));
    Reach(s1, LockTags(0));
    t := Next(s2, EndSentence(0, None, false));
    Reach(s2, EndSentence(0, None, false));
    assert t.calls == [j.words];
    WireIsWholeSentences(t);
    OneSentence(j.words);
  }

  lemma OneSentence(ws: seq<string>)
    ensures EncodeAll([ws]) == EncodeSentence(ws)
  {
    hide EncodeSentence;
    assert [ws][1..] == [];
    assert EncodeSentence(ws) + EncodeAll([]) == EncodeSentence(ws);
  }

  /** A run with an empty word: the device reads the words before it as a sentence without a tag, and
      what is left as another one. */
  lemma EmptyWordHappens(end: End)
    ensures exists s ::
      && Reachable(s) && !s.sink.failed && s.calls == [["/x", "", TagWord("r1")]]
      && ReadSentence(s.sink.out, end)
         == Decoded.Got(Sentence("/x", "", [], map[]), EncodeSentence([TagWord("r1")]))
  {
    hide Reachable;
    var s := FirstRun(["/x", ""]);
    var words, rest := ["/x", "", TagWord("r1")], EncodeSentence([TagWord("r1")]);
    assert ["/x", ""] + [TagWord("r1")] == words;
    assert s.sink.out == EncodeSentence(["/x"]) + rest by {
      hide EncodeSentence, EncodeWord;
      TwoSentences(["/x"], [TagWord("r1")]);
      assert ["/x"] + [""] + [TagWord("r1")] == words;
    }
    ParsedAlone("/x");
    SentenceRoundTrip(["/x"], rest, end);
  }

  /** The empty word in the middle is the end of a sentence. */
  lemma TwoSentences(us: seq<string>, vs: seq<string>)
    ensures EncodeSentence(us + [""] + vs) == EncodeSentence(us) + EncodeSentence(vs)
  {
    hide EncodeWords, EncodeWord;
    EncodeWordsConcat(us + [""], vs);
    EncodeWordsSnoc(us, "");
    Text.Associative(EncodeWords(us) + EncodeWord(""), EncodeWords(vs), EncodeWord(""));
  }

  lemma ParsedAlone(w: string)
    requires 0 < |w| < LIMIT
    ensures Readable([w]) && Parse([w]).value == Sentence(w, "", [], map[])
  {
    assert [w][..0] == [];
    assert Parse([]) == Some(EMPTY_SENTENCE);
  }

  /** A run without words: the tag word stands first and is read as the command word. */
  lemma NoWordHappens(end: End)
    ensures exists s ::
      && Reachable(s) && !s.sink.failed && s.calls == [[TagWord("r1")]]
      && ReadSentence(s.sink.out, end) == Decoded.Got(Sentence(TagWord("r1"), "", [], map[]), [])
  {
    hide Reachable;
    var s := FirstRun([]);
    assert [] + [TagWord("r1")] == [TagWord("r1")];
    ParsedAlone(TagWord("r1"));
    SentenceRoundTrip([TagWord("r1")], [], end);
    assert EncodeSentence([TagWord("r1")]) + [] == s.sink.out;
  }

  /** A run issued after the loop has ended leaves the writer locked for good. */
  lemma OrphanedWriterHappens()
    ensures exists s :: Reachable(s) && s.writerMu == Orphaned
  {
    hide Reachable;
    Start0();
    var s := EndLoop(Initial());
    RunWithoutMap(s);
  }

  lemma EndLoop(s: State) returns (t: State)
    requires Reachable(s) && s.loop.Reading?
    requires s.threads == map[] && s.writerMu.Free? && s.stateMu.Free? && !s.sink.failed
    ensures Reachable(t) && t.core.tags.None?
    ensures t.threads == map[] && t.writerMu.Free? && t.stateMu.Free? && !t.sink.failed
  {
    hide Reachable, CloseTags;
    Reach(s, ReadFails(ReadError(0)));
    var u := s.(loop := Failing(ReadError(0)));
    assert Next(s, ReadFails(ReadError(0))) == u;
    Reach(u, LoopEnds);
    t := u.(core := CloseTags(u.core, ReadError(0)), loop := Ended);
    assert Next(u, LoopEnds) == t;
    NoMapAtEnd(u.core, ReadError(0));
  }

  lemma NoMapAtEnd(c: Core, err: Error)
    ensures CloseTags(c, err).tags.None?
  {
  }

  lemma RunWithoutMap(s: State)
    requires Reachable(s) && s.threads == map[] && s.writerMu.Free? && s.stateMu.Free? && s.core.tags.None?
    requires !s.sink.failed
    ensures exists t :: Reachable(t) && t.writerMu == Orphaned
  {
    hide Reachable;
    var t, _ := BeginRun(s, ["/x"]);
    Reach(t, LockTags(0));
    assert Next(t, LockTags(0)).writerMu == Orphaned;
  }

  /** A run whose reply is pending when `Close` is called returns a reply without `Done` and a nil
      error. */
  lemma NilErrorWithoutDoneHappens()
    ensures exists s ::
      && Reachable(s) && 0 in s.threads && At(s, 0) == Returned(0, None)
      && 0 < |s.core.heap| && s.core.heap[0].body == RunBody([], None)
  {
    hide Reachable;
    var s1 := FirstRun(["/x"]);
    var s2 := Next(s1, UnlockRun(0));
    Reach(s1, UnlockRun(0));
    assert At(s2, 0) == Waiting(0);
    var s3 := ClosedWhilePending(s2);
    assert At(s3, 0) == Returned(0, None);
  }

  lemma ClosedWhilePending(s: State) returns (t: State)
    requires Reachable(s) && s.loop.Reading? && s.stateMu.Free? && 0 in s.threads && At(s, 0) == Waiting(0)
    requires |s.core.heap| == 1 && InTags(s.core, 0)
    requires s.core.heap[0].body == RunBody([], None) && s.core.heap[0].err.None?
    ensures Reachable(t) && 0 in t.threads && At(t, 0) == Returned(0, None)
    ensures |t.core.heap| == 1 && t.core.heap[0].body == RunBody([], None)
  {
    hide Reachable;
    Reach(s, CloseClient);
    var s1 := s.(core := s.core.(closing := true));
    assert Next(s, CloseClient) == s1;
    Reach(s1, ReadFails(ReadError(0)));
    var s2 := s1.(loop := Failing(ReadError(0)));
    assert Next(s1, ReadFails(ReadError(0))) == s2;
    t := LoopEndsAndReturns(s2);
  }

  lemma LoopEndsAndReturns(s: State) returns (t: State)
    requires Reachable(s) && s.loop.Failing? && s.stateMu.Free? && 0 in s.threads && At(s, 0) == Waiting(0)
    requires |s.core.heap| == 1 && InTags(s.core, 0) && s.core.closing
    requires s.core.heap[0].body == RunBody([], None) && s.core.heap[0].err.None?
    ensures Reachable(t) && 0 in t.threads && At(t, 0) == Returned(0, None)
    ensures |t.core.heap| == 1 && t.core.heap[0].body == RunBody([], None)
  {
    hide Reachable;
    Reach(s, LoopEnds);
    var u := s.(core := CloseTags(s.core, s.loop.cause), loop := Ended);
    assert Next(s, LoopEnds) == u && u.core.heap[0] == CloseReply(s.core.heap[0], None);
    Reach(u, ReturnReply(0));
    t := Move(u, 0, Returned(0, u.core.heap[0].err));
    assert Next(u, ReturnReply(0)) == t;
  }
}
