/** No reply is lost: when the device answers only commands it has received whole, every sentence
    with the tag of a call is looked up while that call is registered, or after its stream has
    ended. */
module MuxReplies {
  import opened Tags
  import opened Multiplexer
  import opened MuxInvariants
  import opened MuxSteps

  /** The device answers without a tag or with that of a complete command. */
  ghost predicate Honest(s: State, a: Step) {
    a.Read? ==> Answerable(s.core, a.sen.tag)
  }

  ghost predicate CoreGrows(c: Core, d: Core) {
    && |c.heap| <= |d.heap|
    && (forall id :: 0 <= id < |c.heap| ==>
          && d.heap[id].tag == c.heap[id].tag
          && (c.heap[id].flushed ==> d.heap[id].flushed))
  }

  lemma GrowsInCalls(s: State, a: Step)
    requires Enabled(s, a) && Actor(a).Some?
    ensures CoreGrows(s.core, Next(s, a).core)
  {
    hide Next, Enabled;
    if IsLocal(a) {
      LocalChangesOnlyItself(s, a);
    } else {
      CallCore(s, a);
    }
  }

  lemma GrowsByLoop(s: State, a: Step)
    requires Enabled(s, a) && Actor(a).None?
    ensures CoreGrows(s.core, Next(s, a).core)
  {
  }

  lemma AnswerableStays(c: Core, d: Core, tag: string)
    requires CoreGrows(c, d) && Answerable(c, tag)
    ensures Answerable(d, tag)
  {
    if tag != "" {
      var id :| 0 <= id < |c.heap| && c.heap[id].tag == tag && c.heap[id].flushed;
      assert d.heap[id].tag == tag && d.heap[id].flushed;
    }
  }

  /** Objects whose unseen part of the history did not grow. */
  lemma MissedFramed(s: State, t: State)
    requires NothingMissed(s) && t.history == s.history && CoreGrows(s.core, t.core)
    requires t.loop.Got? ==> Answerable(t.core, t.loop.sen.tag)
    requires forall id, i :: 0 <= id < |t.core.heap| && 0 <= i < |s.history| && Unseen(t.core.heap[id], i) ==>
               id < |s.core.heap| && Unseen(s.core.heap[id], i)
    ensures NothingMissed(t)
  {
    forall i | 0 <= i < |t.history|
      ensures Answerable(t.core, t.history[i].tag)
    {
      AnswerableStays(s.core, t.core, s.history[i].tag);
    }
  }

  lemma GotAnswerable(s: State, a: Step)
    requires NothingMissed(s) && Enabled(s, a) && Honest(s, a) && CoreGrows(s.core, Next(s, a).core)
    ensures Next(s, a).loop.Got? ==> Answerable(Next(s, a).core, Next(s, a).loop.sen.tag)
  {
    if Next(s, a).loop.Got? {
      AnswerableStays(s.core, Next(s, a).core, Next(s, a).loop.sen.tag);
    }
  }

  lemma NobodyRegisters(s: State, id: nat)
    requires LocksAgree(s) && s.stateMu.Free? && id < |s.core.heap|
    ensures !RegistersNow(s, id)
  {
    var th := s.core.heap[id].owner;
    if th in s.threads {
      assert ThreadLocks(s, th);
    }
  }

  lemma TagNotEmpty(s: State, id: nat)
    requires EntriesOk(s) && id < |s.core.heap|
    ensures s.core.heap[id].tag != ""
  {
    assert EntryOk(s, id);
  }

  /** The heart of the matter: when the loop looks up a sentence, the object of its tag has been
      registered, and before that sentence was looked up. */
  lemma RegisteredAtLookUp(s: State, id: nat)
    requires Inv(s) && NothingMissed(s) && Enabled(s, LookUp)
    requires id < |s.core.heap| && s.core.heap[id].tag == s.loop.sen.tag
    ensures s.core.heap[id].flushed
    ensures Started(s.core.heap[id].phase) && s.core.heap[id].birth <= |s.history|
  {
    TagNotEmpty(s, id);
    var x :| 0 <= x < |s.core.heap| && s.core.heap[x].tag == s.loop.sen.tag && s.core.heap[x].flushed;
    DistinctTags(s, x, id);
    NobodyRegisters(s, id);
    assert EntryOk(s, id);
    assert Started(s.core.heap[id].phase) ==> StreamOk(s, id);
  }

  lemma MissedKeptByLookUp(s: State)
    requires Inv(s) && NothingMissed(s) && Enabled(s, LookUp)
    ensures NothingMissed(Next(s, LookUp))
  {
    var t := Next(s, LookUp);
    forall id, i | 0 <= id < |t.core.heap| && 0 <= i < |t.history| && Unseen(t.core.heap[id], i)
      ensures t.history[i].tag != t.core.heap[id].tag
    {
      if s.core.heap[id].tag == s.loop.sen.tag {
        RegisteredAtLookUp(s, id);
      }
    }
  }

  lemma MissedKeptByNumber(s: State, a: Step)
    requires Inv(s) && NothingMissed(s) && Enabled(s, a) && a.Number?
    ensures NothingMissed(Next(s, a))
  {
    hide StreamsOk, LocksAgree, WireOk, FlushedOk, ThreadsOk;
    var t := Next(s, a);
    var n := |s.core.heap|;
    GrowsInCalls(s, a);
    forall i | 0 <= i < |t.history|
      ensures Answerable(t.core, t.history[i].tag) && t.history[i].tag != t.core.heap[n].tag
    {
      AnswerableStays(s.core, t.core, s.history[i].tag);
      if s.history[i].tag != "" {
        var x :| 0 <= x < |s.core.heap| && s.core.heap[x].tag == s.history[i].tag && s.core.heap[x].flushed;
        assert EntryOk(s, x);
        if t.core.heap[n].tag == s.core.heap[x].tag {
          TagNameInjective(t.core.heap[n].kind, n + 1, s.core.heap[x].kind, x + 1);
        }
      }
    }
    GotAnswerable(s, a);
  }

  lemma MissedKeptByUnlock(s: State, a: Step)
    requires Inv(s) && NothingMissed(s) && Enabled(s, a) && a.UnlockRun?
    ensures NothingMissed(Next(s, a))
  {
    hide StreamsOk, EntriesOk, LocksAgree, WireOk, FlushedOk;
    assert JobOk(s, a.th, At(s, a.th));
    GrowsInCalls(s, a);
    GotAnswerable(s, a);
    MissedFramed(s, Next(s, a));
  }

  lemma MissedKeptByRegistering(s: State, a: Step)
    requires Inv(s) && NothingMissed(s) && Enabled(s, a) && (a.LockTags? || a.RegisterListen?)
    ensures NothingMissed(Next(s, a))
  {
    hide FlushedOk, WireOk, StreamsOk, LocksAgree, EntriesOk;
    GrowsInCalls(s, a);
    GotAnswerable(s, a);
    CallCore(s, a);
    hide Next, Enabled, NothingMissed;
    assert JobOk(s, a.th, At(s, a.th));
    assert forall id :: 0 <= id < |s.core.heap| && id != At(s, a.th).job.id.value ==>
      Next(s, a).core.heap[id] == s.core.heap[id];
    MissedFramed(s, Next(s, a));
  }

  lemma MissedKeptInCalls(s: State, a: Step)
    requires Inv(s) && NothingMissed(s) && Enabled(s, a) && Actor(a).Some?
    requires !a.Number? && !a.UnlockRun? && !a.LockTags? && !a.RegisterListen?
    ensures NothingMissed(Next(s, a))
  {
    hide FlushedOk, WireOk, StreamsOk, LocksAgree;
    GrowsInCalls(s, a);
    GotAnswerable(s, a);
    if IsLocal(a) {
      LocalChangesOnlyItself(s, a);
    } else {
      CallCore(s, a);
    }
    hide Next, Enabled, NothingMissed;
    assert forall id :: 0 <= id < |s.core.heap| ==>
      Next(s, a).core.heap[id] == s.core.heap[id].(flushed := Next(s, a).core.heap[id].flushed);
    MissedFramed(s, Next(s, a));
  }

  lemma MissedKeptByLoop(s: State, a: Step)
    requires Inv(s) && NothingMissed(s) && Enabled(s, a) && Honest(s, a) && Actor(a).None? && !a.LookUp?
    ensures NothingMissed(Next(s, a))
  {
    GrowsByLoop(s, a);
    GotAnswerable(s, a);
    if a.CloseDone? {
      assert EntryOk(s, s.loop.id);
    }
    MissedFramed(s, Next(s, a));
  }

  lemma MissedKept(s: State, a: Step)
    requires Inv(s) && NothingMissed(s) && Enabled(s, a) && Honest(s, a)
    ensures NothingMissed(Next(s, a))
  {
    if a.LookUp? {
      MissedKeptByLookUp(s);
    } else if Actor(a).None? {
      MissedKeptByLoop(s, a);
    } else if a.Number? {
      MissedKeptByNumber(s, a);
    } else if a.UnlockRun? {
      MissedKeptByUnlock(s, a);
    } else if a.LockTags? || a.RegisterListen? {
      MissedKeptByRegistering(s, a);
    } else {
      MissedKeptInCalls(s, a);
    }
  }
}
