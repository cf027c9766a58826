/** The wire, the replies to complete commands, and the whole invariant of the multiplexer. */
module MuxWire {
  import opened Protocol
  import opened Codec
  import opened CodecProofs
  import opened Multiplexer
  import opened MuxInvariants
  import opened MuxSteps
  import opened MuxObjects
  import Text

  // ----- objects and streams in the steps of calls -----

  lemma RepliesKeptByLock(s: State, a: Step)
    requires Inv(s) && Enabled(s, a) && a.LockTags?
    ensures ObjectsOk(Next(s, a)) && StreamsOk(Next(s, a))
  {
    var t := Next(s, a);
    var j := At(s, a.th).job;
    assert Fresh(s, a.th, j) by { assert JobOk(s, a.th, At(s, a.th)); }
    assert t.loop == s.loop && t.history == s.history;
    if t.core == s.core {
      ObjectsSame(s, t);
    } else {
      ObjectsAfterRegister(s, t, j.id.value, NilChan);
      StreamsAfterRegister(s, t, j.id.value, NilChan);
    }
  }

  lemma RepliesKeptByRegister(s: State, a: Step)
    requires Inv(s) && Enabled(s, a) && a.RegisterListen?
    ensures ObjectsOk(Next(s, a)) && StreamsOk(Next(s, a))
  {
    var t := Next(s, a);
    var j := At(s, a.th).job;
    var stop := if j.flavour.ListenCall? && j.flavour.hasContext then OpenChan else NilChan;
    assert Fresh(s, a.th, j) by { assert JobOk(s, a.th, At(s, a.th)); }
    assert t.loop == s.loop && t.history == s.history;
    if s.core.tags.None? {
      ObjectsSame(s, t);
    } else {
      ObjectsAfterRegister(s, t, j.id.value, stop);
      StreamsAfterRegister(s, t, j.id.value, stop);
    }
  }

  lemma RepliesKeptByNumber(s: State, a: Step)
    requires Inv(s) && Enabled(s, a) && a.Number?
    ensures ObjectsOk(Next(s, a)) && StreamsOk(Next(s, a))
  {
    var t := Next(s, a);
    var k := KindOf(At(s, a.th).job.flavour);
    assert t.core == Issue(s.core, k, a.th) && t.loop == s.loop && t.history == s.history;
    ObjectsAfterIssue(s, t, k, a.th);
    StreamsAfterCallStep(s, t);
  }

  lemma RepliesKeptAtEnd(s: State, a: Step)
    requires Inv(s) && Enabled(s, a) && a.EndSentence?
    ensures ObjectsOk(Next(s, a)) && StreamsOk(Next(s, a))
  {
    hide FlushedOk, WireOk, StreamsOk, LocksAgree, EntriesOk, Next, Enabled;
    CallCore(s, a);
    var t := Next(s, a);
    var id := At(s, a.th).job.id.value;
    assert !s.core.heap[id].phase.Withdrawn? by { assert JobOk(s, a.th, At(s, a.th)); }
    hide JobOk, ThreadsOk;
    if t.core == s.core {
      ObjectsSame(s, t);
    } else {
      ObjectsAfterFlush(s, t, id);
      StreamsAfterCallStep(s, t);
    }
  }

  lemma RepliesKeptByUnlock(s: State, a: Step)
    requires Inv(s) && Enabled(s, a) && a.UnlockRun?
    ensures ObjectsOk(Next(s, a)) && StreamsOk(Next(s, a))
  {
    hide FlushedOk, WireOk, StreamsOk, LocksAgree, EntriesOk, Next, Enabled;
    CallCore(s, a);
    var t := Next(s, a);
    var pc := At(s, a.th);
    var id := pc.job.id.value;
    assert JobOk(s, a.th, pc);
    if pc.ok {
      ObjectsSame(s, t);
    } else {
      ObjectsAfterWithdraw(s, t, id);
      StreamsAfterCallStep(s, t);
    }
  }

  lemma RepliesKept(s: State, a: Step)
    requires Inv(s) && Enabled(s, a)
    ensures ObjectsOk(Next(s, a)) && StreamsOk(Next(s, a))
  {
    if Actor(a).None? {
      ObjectsKeptByLoop(s, a);
      StreamsKeptByLoop(s, a);
    } else if IsLocal(a) {
      LocalChangesOnlyItself(s, a);
      ObjectsSame(s, Next(s, a));
    } else if a.WriteWord? {
      ObjectsSame(s, Next(s, a));
    } else if a.Number? {
      RepliesKeptByNumber(s, a);
    } else if a.LockTags? {
      RepliesKeptByLock(s, a);
    } else if a.EndSentence? {
      RepliesKeptAtEnd(s, a);
    } else if a.UnlockRun? {
      RepliesKeptByUnlock(s, a);
    } else {
      RepliesKeptByRegister(s, a);
    }
  }

  // ----- complete commands have their tag registered -----

  /** A flushed object that is not registered belongs to a listener that is about to register it. */
  lemma FlushedKept(s: State, a: Step)
    requires Inv(s) && Enabled(s, a)
    ensures FlushedOk(Next(s, a))
  {
    var t := Next(s, a);
    forall id | 0 <= id < |t.core.heap| && t.core.heap[id].flushed && t.core.heap[id].phase.New?
      ensures t.core.tags.None? || RegistersNow(t, id)
    {
      FlushedStep(s, a, id);
    }
  }

  lemma FlushedStep(s: State, a: Step, id: nat)
    requires Inv(s) && Enabled(s, a)
    requires id < |Next(s, a).core.heap|
    requires Next(s, a).core.heap[id].flushed && Next(s, a).core.heap[id].phase.New?
    ensures Next(s, a).core.tags.None? || RegistersNow(Next(s, a), id)
  {
    if Actor(a).None? {
      FlushedByLoop(s, a, id);
    } else if IsLocal(a) {
      LocalChangesOnlyItself(s, a);
      FlushedLocally(s, a, id);
    } else {
      FlushedInCall(s, a, id);
    }
  }

  lemma FlushedByLoop(s: State, a: Step, id: nat)
    requires Inv(s) && Enabled(s, a) && Actor(a).None?
    requires id < |Next(s, a).core.heap|
    requires Next(s, a).core.heap[id].flushed && Next(s, a).core.heap[id].phase.New?
    ensures Next(s, a).core.tags.None? || RegistersNow(Next(s, a), id)
  {
    LocksKeptByLoop(s, a);
    assert s.core.heap[id].flushed && s.core.heap[id].phase.New?;
  }

  /** A goroutine that is about to register its listener does nothing else. */
  lemma OnlyRegisters(s: State, a: Step)
    requires Enabled(s, a) && Actor(a).Some? && a.th in s.threads && At(s, a.th).ListenFlushed?
    ensures a.RegisterListen?
  {
  }

  lemma OthersStay(s: State, a: Step, u: nat)
    requires Enabled(s, a) && Actor(a).Some? && u in s.threads && u != a.th
    ensures u in Next(s, a).threads && Next(s, a).threads[u] == s.threads[u]
  {
  }

  lemma StillRegisters(s: State, a: Step, id: nat)
    requires Enabled(s, a) && Actor(a).Some? && !a.RegisterListen?
    requires id < |s.core.heap| && RegistersNow(s, id)
    requires id < |Next(s, a).core.heap| && Next(s, a).core.heap[id].owner == s.core.heap[id].owner
    ensures RegistersNow(Next(s, a), id)
  {
    var u := s.core.heap[id].owner;
    if u == a.th {
      OnlyRegisters(s, a);
    } else {
      OthersStay(s, a, u);
    }
  }

  lemma FlushedLocally(s: State, a: Step, id: nat)
    requires Inv(s) && Enabled(s, a) && IsLocal(a) && Next(s, a).core == s.core
    requires id < |s.core.heap| && s.core.heap[id].flushed && s.core.heap[id].phase.New?
    ensures s.core.tags.None? || RegistersNow(Next(s, a), id)
  {
    if s.core.tags.Some? {
      StillRegisters(s, a, id);
    }
  }

  lemma FlushedByRegister(s: State, a: Step, id: nat)
    requires Inv(s) && Enabled(s, a) && a.RegisterListen?
    requires id < |s.core.heap| && s.core.heap[id].flushed && s.core.heap[id].phase.New?
    requires id < |Next(s, a).core.heap| && Next(s, a).core.heap[id].phase.New?
    ensures Next(s, a).core.tags.None? || RegistersNow(Next(s, a), id)
  {
    hide Next, Enabled, WireOk, StreamsOk, EntriesOk, LocksAgree, LoopOk;
    CallCore(s, a);
    if s.core.tags.Some? {
      assert RegistersNow(s, id);
      assert s.core.heap[id].owner != a.th;
      OthersStay(s, a, s.core.heap[id].owner);
    }
  }

  lemma FlushedInCall(s: State, a: Step, id: nat)
    requires Inv(s) && Enabled(s, a) && Actor(a).Some? && !IsLocal(a)
    requires id < |Next(s, a).core.heap|
    requires Next(s, a).core.heap[id].flushed && Next(s, a).core.heap[id].phase.New?
    ensures Next(s, a).core.tags.None? || RegistersNow(Next(s, a), id)
  {
    if a.EndSentence? {
      FlushedAtEnd(s, a, id);
    } else {
      FlushedBefore(s, a, id);
      if a.RegisterListen? {
        FlushedByRegister(s, a, id);
      } else if s.core.tags.Some? {
        StillRegisters(s, a, id);
      }
    }
  }

  lemma FlushedBefore(s: State, a: Step, id: nat)
    requires Inv(s) && Enabled(s, a) && Actor(a).Some? && !IsLocal(a) && !a.EndSentence?
    requires id < |Next(s, a).core.heap|
    requires Next(s, a).core.heap[id].flushed && Next(s, a).core.heap[id].phase.New?
    ensures id < |s.core.heap| && s.core.heap[id].flushed && s.core.heap[id].phase.New?
    ensures Next(s, a).core.heap[id].owner == s.core.heap[id].owner
    ensures Next(s, a).core.tags.Some? ==> s.core.tags.Some?
  {
    hide Next, Enabled, LocksAgree, TagsOk, EntriesOk, LoopOk, StreamsOk, WireOk, FlushedOk;
    CallCore(s, a);
    assert JobOk(s, a.th, At(s, a.th));
  }

  lemma FlushedAtEnd(s: State, a: Step, id: nat)
    requires Inv(s) && Enabled(s, a) && a.EndSentence?
    requires id < |Next(s, a).core.heap|
    requires Next(s, a).core.heap[id].flushed && Next(s, a).core.heap[id].phase.New?
    ensures Next(s, a).core.tags.None? || RegistersNow(Next(s, a), id)
  {
    hide Next, Enabled, DoEnd, LocksAgree, EntriesOk, StreamsOk, WireOk;
    EndIs(s, a);
    EndShape(s, a.th, a.fault, a.flushFails);
    assert JobOk(s, a.th, At(s, a.th));
    if id != At(s, a.th).job.id.value {
      assert s.core.tags.None? || RegistersNow(s, id);
    } else {
      FlushedListener(s, a.th, a.fault, a.flushFails);
    }
  }

  lemma FlushedListener(s: State, th: nat, fault: Option<nat>, flushFails: bool)
    requires Enabled(s, EndSentence(th, fault, flushFails)) && JobOk(s, th, At(s, th))
    requires var t, id := DoEnd(s, th, fault, flushFails), At(s, th).job.id.value;
             t.core.heap[id].flushed && t.core.heap[id].phase.New?
    ensures RegistersNow(DoEnd(s, th, fault, flushFails), At(s, th).job.id.value)
  {
  }

  // ----- the wire -----

  lemma WireSame(s: State, t: State)
    requires WireOk(s) && t.sink == s.sink && t.calls == s.calls && t.open == s.open
    requires t.writerMu.Free? && !s.sink.failed ==> s.writerMu.Free?
    requires t.writerMu.Held? && t.writerMu.th in t.threads ==>
               && s.writerMu == t.writerMu && s.writerMu.th in s.threads
               && WordsSoFar(t.threads[t.writerMu.th].pc) == WordsSoFar(s.threads[s.writerMu.th].pc)
    ensures WireOk(t)
  {
  }

  lemma WireKeptByWrite(s: State, a: Step)
    requires Inv(s) && Enabled(s, a) && a.WriteWord?
    ensures WireOk(Next(s, a))
  {
    hide StreamsOk, FlushedOk, EntriesOk, TagsOk, LoopOk, ThreadsOk, EncodeWord;
    assert s.writerMu == Held(a.th) by { assert ThreadLocks(s, a.th); }
    var t := DoWrite(s, a.th, a.fault);
    assert Next(s, a) == t;
    WordWritten(s, t, a.th, At(s, a.th).job, At(s, a.th).k, a.fault);
  }

  lemma WordWritten(s: State, t: State, th: nat, j: Job, k: nat, fault: Option<nat>)
    requires WireOk(s) && s.writerMu == Held(th) && th in s.threads && At(s, th) == Writing(j, k) && k < |j.words|
    requires th in t.threads && At(t, th) == Writing(j, k + 1) && t.writerMu == s.writerMu && t.calls == s.calls
    requires t.sink == WriteBytes(s.sink, EncodeWord(j.words[k]), fault)
    requires t.open == if s.sink.failed then s.open else s.open + [j.words[k]]
    ensures WireOk(t)
  {
    hide EncodeWord;
    if !s.sink.failed {
      assert j.words[..k + 1] == j.words[..k] + [j.words[k]];
      EncodeWordsSnoc(s.open, j.words[k]);
      hide EncodeWords, EncodeAll;
      Text.Associative(EncodeAll(s.calls), EncodeWords(s.open), EncodeWord(j.words[k]));
    }
  }

  lemma WireAfterSentence(s: State, t: State, words: seq<string>)
    requires WireOk(s) && !s.sink.failed && s.open == words
    requires t.sink == Sink(s.sink.out + EncodeWord(""), false)
    requires t.calls == s.calls + [words] && t.open == [] && t.writerMu.Free?
    ensures WireOk(t)
  {
    Text.Associative(EncodeAll(s.calls), EncodeWords(words), EncodeWord(""));
    EncodeAllSnoc(s.calls, words);
    assert EncodeAll(t.calls) + [] == EncodeAll(t.calls);
  }

  lemma WireAfterFault(s: State, t: State, fault: Option<nat>)
    requires WireOk(s) && !s.sink.failed
    requires t.sink == WriteBytes(s.sink, EncodeWord(""), fault).(failed := true)
    requires t.calls == s.calls && t.open == s.open + [""]
    ensures WireOk(t)
  {
    EncodeWordsSnoc(s.open, "");
    Text.Associative(EncodeAll(s.calls), EncodeWords(s.open), EncodeWord(""));
  }

  lemma WireKeptAtEnd(s: State, a: Step)
    requires Inv(s) && Enabled(s, a) && a.EndSentence?
    ensures WireOk(Next(s, a))
    ensures !Next(s, a).sink.failed ==> Next(s, a).calls == s.calls + [At(s, a.th).job.words]
  {
    hide FlushedOk, StreamsOk, EntriesOk, TagsOk, LoopOk, ThreadsOk, Next, Enabled;
    hide EncodeWord, EncodeWords, EncodeAll;
    EndIs(s, a);
    var t := DoEnd(s, a.th, a.fault, a.flushFails);
    assert s.writerMu == Held(a.th) by { assert ThreadLocks(s, a.th); }
    if s.sink.failed {
    } else if t.sink.failed {
      WireAfterFault(s, t, a.fault);
    } else {
      WireAfterSentence(s, t, At(s, a.th).job.words);
    }
  }

  lemma WireKeptAtLock(s: State, a: Step)
    requires Inv(s) && Enabled(s, a) && (a.LockWriter? || a.WordsDone? || a.IsAsync?)
    ensures WireOk(Next(s, a))
  {
    hide FlushedOk, StreamsOk, EntriesOk, TagsOk, LoopOk;
    assert ThreadLocks(s, a.th) && JobOk(s, a.th, At(s, a.th));
    if a.LockWriter? {
      WriterTaken(s, Next(s, a), a.th, At(s, a.th).job);
    } else {
      hide WireOk;
      SameWordsLocally(s, a);
      WireSame(s, Next(s, a));
    }
  }

  lemma WriterTaken(s: State, t: State, th: nat, j: Job)
    requires WireOk(s) && s.writerMu.Free? && t.sink == s.sink && t.calls == s.calls && t.open == s.open
    requires t.writerMu == Held(th) && th in t.threads && At(t, th) == Writing(j, 0)
    ensures WireOk(t)
  {
  }

  lemma SameWordsLocally(s: State, a: Step)
    requires Enabled(s, a) && (a.WordsDone? || a.IsAsync?) && s.writerMu == Held(a.th)
    ensures var t := Next(s, a);
            && t.sink == s.sink && t.calls == s.calls && t.open == s.open && t.writerMu == s.writerMu
            && a.th in t.threads && WordsSoFar(t.threads[a.th].pc) == WordsSoFar(At(s, a.th))
  {
    if a.WordsDone? {
      assert At(s, a.th).job.words[..At(s, a.th).k] == At(s, a.th).job.words;
    }
  }

  lemma WireKeptByNumber(s: State, a: Step)
    requires Inv(s) && Enabled(s, a) && a.Number?
    ensures WireOk(Next(s, a))
  {
    var t := Next(s, a);
    var j := At(s, a.th).job;
    assert ThreadLocks(s, a.th);
    if j.flavour.RunCall? {
      var next := t.threads[a.th].pc.job;
      assert next.words[..|j.words|] == j.words;
    }
    WireSame(s, t);
  }

  /** A goroutine that neither has the writer nor gets it does not touch the wire. */
  lemma WireOfOthers(s: State, a: Step)
    requires LocksAgree(s) && WireOk(s) && Enabled(s, a) && Actor(a).Some?
    requires a.th in s.threads ==> !HoldsWriter(At(s, a.th))
    requires var t := Next(s, a);
             t.sink == s.sink && t.calls == s.calls && t.open == s.open && t.writerMu == s.writerMu
    ensures WireOk(Next(s, a))
  {
    if s.writerMu.Held? {
      var u := s.writerMu.th;
      assert ThreadLocks(s, u);
      OthersStay(s, a, u);
    }
    WireSame(s, Next(s, a));
  }

  lemma CancelLeavesWriter(s: State, a: Step)
    requires Enabled(s, a) && a.LockTags? && At(s, a.th).job.flavour.CancelCall?
    ensures var t := Next(s, a);
            t.sink == s.sink && t.calls == s.calls && t.open == s.open && t.writerMu == s.writerMu
  {
  }

  /** Entering the critical section with the writer: the same words are open before and after, or
      the writer is orphaned with them. */
  lemma SectionKeepsWords(s: State, a: Step)
    requires Enabled(s, a) && a.LockTags? && !At(s, a.th).job.flavour.CancelCall?
    requires s.writerMu == Held(a.th)
    ensures var t := Next(s, a);
            && t.sink == s.sink && t.calls == s.calls && t.open == s.open
            && (t.writerMu == Orphaned ||
                (t.writerMu == s.writerMu && a.th in t.threads
                 && WordsSoFar(t.threads[a.th].pc) == WordsSoFar(At(s, a.th))))
  {
  }

  lemma WireKeptByLockTags(s: State, a: Step)
    requires LocksAgree(s) && WireOk(s) && Enabled(s, a) && a.LockTags?
    ensures WireOk(Next(s, a))
  {
    if At(s, a.th).job.flavour.CancelCall? {
      CancelLeavesWriter(s, a);
      WireOfOthers(s, a);
    } else {
      assert ThreadLocks(s, a.th);
      SectionKeepsWords(s, a);
      WireSame(s, Next(s, a));
    }
  }

  lemma WireKeptElsewhere(s: State, a: Step)
    requires Inv(s) && Enabled(s, a) && Actor(a).Some?
    requires IsLocal(a) || a.UnlockRun? || a.RegisterListen?
    requires !a.LockWriter? && !a.WordsDone? && !a.IsAsync?
    ensures WireOk(Next(s, a))
  {
    hide FlushedOk, StreamsOk, EntriesOk, TagsOk, LoopOk, ThreadsOk, WireOk;
    OffTheWire(s, a);
    if a.th in s.threads {
      assert ThreadLocks(s, a.th);
    }
    hide Next, Enabled, LocksAgree;
    WireOfOthers(s, a);
  }

  lemma OffTheWire(s: State, a: Step)
    requires Enabled(s, a) && Actor(a).Some? && (IsLocal(a) || a.UnlockRun? || a.RegisterListen?)
    requires !a.LockWriter? && !a.WordsDone? && !a.IsAsync?
    ensures var t := Next(s, a);
            t.sink == s.sink && t.calls == s.calls && t.open == s.open && t.writerMu == s.writerMu
    ensures a.th in s.threads ==> !HoldsWriter(At(s, a.th))
  {
  }

  lemma WireKept(s: State, a: Step)
    requires Inv(s) && Enabled(s, a)
    ensures WireOk(Next(s, a))
  {
    if Actor(a).None? {
      LocksKeptByLoop(s, a);
      WireSame(s, Next(s, a));
    } else if a.WriteWord? {
      WireKeptByWrite(s, a);
    } else if a.EndSentence? {
      WireKeptAtEnd(s, a);
    } else if a.Number? {
      WireKeptByNumber(s, a);
    } else if a.LockWriter? || a.WordsDone? || a.IsAsync? {
      WireKeptAtLock(s, a);
    } else if a.LockTags? {
      WireKeptByLockTags(s, a);
    } else {
      WireKeptElsewhere(s, a);
    }
  }

  // ----- together -----

  /** Every step of every goroutine keeps the whole invariant. */
  lemma InvKept(s: State, a: Step)
    requires Inv(s) && Enabled(s, a)
    ensures Inv(Next(s, a))
  {
    LocksKept(s, a);
    ThreadsKept(s, a);
    RepliesKept(s, a);
    FlushedKept(s, a);
    WireKept(s, a);
  }
}
