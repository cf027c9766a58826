/** Every step keeps the invariants of the tag map, the reply objects, their streams and the wire. */
module MuxObjects {
  import opened Protocol
  import opened Tags
  import opened Multiplexer
  import opened MuxInvariants
  import opened MuxSteps

  ghost predicate ObjectsOk(s: State) {
    TagsOk(s.core) && EntriesOk(s) && LoopOk(s)
  }

  predicate SameReplies(s: State, t: State) {
    t.core == s.core && t.loop == s.loop && t.history == s.history
  }

  lemma ObjectsSame(s: State, t: State)
    requires ObjectsOk(s) && StreamsOk(s) && SameReplies(s, t)
    ensures ObjectsOk(t) && StreamsOk(t)
  {
    forall id | 0 <= id < |t.core.heap|
      ensures EntryOk(t, id) && (Started(t.core.heap[id].phase) ==> StreamOk(t, id))
    {
      assert EntryOk(s, id);
      assert Started(s.core.heap[id].phase) ==> StreamOk(s, id);
    }
  }

  // ----- objects of calls -----

  lemma ObjectsAfterIssue(s: State, t: State, k: Kind, owner: nat)
    requires ObjectsOk(s)
    requires t.core == Issue(s.core, k, owner) && t.loop == s.loop && t.history == s.history
    ensures ObjectsOk(t)
  {
    forall id | 0 <= id < |t.core.heap|
      ensures EntryOk(t, id)
    {
      if id < |s.core.heap| {
        assert EntryOk(s, id);
      }
    }
  }

  lemma ObjectsAfterRegister(s: State, t: State, id: nat, stop: Chan)
    requires ObjectsOk(s) && id < |s.core.heap| && s.core.heap[id].phase.New? && s.core.tags.Some?
    requires stop != ClosedChan
    requires t.core == Register(s.core, id, |s.history|, stop) && t.loop == s.loop && t.history == s.history
    ensures ObjectsOk(t)
  {
    assert EntryOk(s, id);
    forall i | 0 <= i < |t.core.heap|
      ensures EntryOk(t, i)
      ensures t.core.heap[i].phase.Live? ==> InTags(t.core, i)
    {
      assert EntryOk(s, i);
      if s.core.heap[i].tag == s.core.heap[id].tag {
        DistinctTags(s, i, id);
      }
    }
  }

  /** Between its registration and the unlock a run has seen no sentence. */
  lemma NothingReadYet(s: State, id: nat)
    requires EntriesOk(s) && StreamsOk(s) && id < |s.core.heap| && Settled(s, id) && s.core.heap[id].kind == RunKind
    ensures s.core.heap[id].body == InitialBody(RunKind)
  {
    assert EntryOk(s, id) && StreamOk(s, id);
    var e := s.core.heap[id];
    assert Mine(s.history, e.tag, |s.history|) == [];
  }

  lemma ObjectsAfterWithdraw(s: State, t: State, id: nat)
    requires ObjectsOk(s) && StreamsOk(s) && id < |s.core.heap| && Settled(s, id)
    requires s.core.heap[id].kind == RunKind && !s.core.heap[id].flushed
    requires t.core == Withdraw(s.core, id) && t.loop == s.loop && t.history == s.history
    ensures ObjectsOk(t)
  {
    hide StreamsOk, StreamOk;
    NothingReadYet(s, id);
    forall i | 0 <= i < |t.core.heap| && i != id
      ensures t.core.heap[i] == s.core.heap[i] && t.core.heap[i].tag != s.core.heap[id].tag
    {
      if s.core.heap[i].tag == s.core.heap[id].tag {
        DistinctTags(s, i, id);
      }
    }
    WithdrawnEntries(s, t, id);
    WithdrawnTags(s.core, t.core, id);
    hide EntriesOk, TagsOk, Settled;
  }

  lemma WithdrawnTags(c: Core, d: Core, id: nat)
    requires TagsOk(c) && id < |c.heap| && d == Withdraw(c, id)
    requires forall i :: 0 <= i < |c.heap| && i != id ==> c.heap[i].tag != c.heap[id].tag
    ensures TagsOk(d)
  {
  }

  lemma WithdrawnEntries(s: State, t: State, id: nat)
    requires EntriesOk(s) && id < |s.core.heap| && |t.core.heap| == |s.core.heap| && t.loop == s.loop
    requires s.core.heap[id].phase.Live? && s.core.heap[id].kind == RunKind && !s.core.heap[id].flushed
    requires BusyWith(s.loop) != Some(id) && s.core.heap[id].body == InitialBody(RunKind)
    requires t.core.heap[id] == s.core.heap[id].(phase := Withdrawn)
    requires forall i :: 0 <= i < |t.core.heap| && i != id ==> t.core.heap[i] == s.core.heap[i]
    ensures EntriesOk(t)
  {
    forall i | 0 <= i < |t.core.heap|
      ensures EntryOk(t, i)
    {
      assert EntryOk(s, i);
    }
  }

  lemma ObjectsAfterFlush(s: State, t: State, id: nat)
    requires ObjectsOk(s) && id < |s.core.heap| && !s.core.heap[id].phase.Withdrawn?
    requires t.core == MarkFlushed(s.core, id) && t.loop == s.loop && t.history == s.history
    ensures ObjectsOk(t)
  {
    forall i | 0 <= i < |t.core.heap|
      ensures EntryOk(t, i)
    {
      assert EntryOk(s, i);
    }
  }

  // ----- objects while the loop moves -----

  lemma ObjectsAfterLookUp(s: State)
    requires ObjectsOk(s) && StreamsOk(s) && Enabled(s, LookUp)
    ensures ObjectsOk(Next(s, LookUp))
  {
    var t := Next(s, LookUp);
    forall i | 0 <= i < |t.core.heap|
      ensures EntryOk(t, i)
    {
      assert EntryOk(s, i);
    }
    if t.loop.Found? {
      assert StreamOk(s, t.loop.id);
    }
  }

  lemma ObjectsAfterProcess(s: State)
    requires ObjectsOk(s) && Enabled(s, Process)
    ensures ObjectsOk(Next(s, Process))
  {
    var t := Next(s, Process);
    var id := s.loop.id;
    assert EntryOk(s, id);
    forall i | 0 <= i < |t.core.heap|
      ensures EntryOk(t, i)
    {
      assert EntryOk(s, i);
    }
  }

  lemma ObjectsAfterDelete(s: State)
    requires ObjectsOk(s) && Enabled(s, Delete)
    ensures ObjectsOk(Next(s, Delete))
  {
    var t := Next(s, Delete);
    var id := s.loop.id;
    forall i | 0 <= i < |t.core.heap|
      ensures EntryOk(t, i)
      ensures t.core.heap[i].phase.Live? ==> InTags(t.core, i)
    {
      assert EntryOk(s, i);
      if s.core.heap[i].tag == s.core.heap[id].tag {
        DistinctTags(s, i, id);
      }
    }
  }

  lemma ObjectsAfterClose(s: State)
    requires ObjectsOk(s) && Enabled(s, CloseDone)
    ensures ObjectsOk(Next(s, CloseDone))
  {
    var t := Next(s, CloseDone);
    assert EntryOk(s, s.loop.id);
    forall i | 0 <= i < |t.core.heap|
      ensures EntryOk(t, i)
    {
      assert EntryOk(s, i);
    }
  }

  lemma ObjectsAfterLoopEnds(s: State)
    requires ObjectsOk(s) && Enabled(s, LoopEnds)
    ensures ObjectsOk(Next(s, LoopEnds))
  {
    var t := Next(s, LoopEnds);
    forall i | 0 <= i < |t.core.heap|
      ensures EntryOk(t, i) && !t.core.heap[i].phase.Live?
    {
      assert EntryOk(s, i);
    }
  }

  lemma ObjectsAfterRead(s: State, a: Step)
    requires ObjectsOk(s) && Enabled(s, a) && (a.Read? || a.ReadFails? || a.CloseClient?)
    ensures ObjectsOk(Next(s, a))
  {
    var t := Next(s, a);
    forall i | 0 <= i < |t.core.heap|
      ensures EntryOk(t, i)
    {
      assert EntryOk(s, i);
    }
  }

  // ----- streams -----

  /** An object that did not change keeps its result when nothing of it was read. */
  lemma StreamsFramed(s: State, t: State, id: nat)
    requires id < |s.core.heap| && id < |t.core.heap|
    requires StreamOk(s, id)
    requires var e, f := s.core.heap[id], t.core.heap[id];
             f == e.(flushed := f.flushed)
    requires t.loop == s.loop && t.history == s.history && (s.core.closing ==> t.core.closing)
    ensures StreamOk(t, id)
  {
  }

  lemma StreamsAfterRegister(s: State, t: State, id: nat, stop: Chan)
    requires ObjectsOk(s) && StreamsOk(s)
    requires id < |s.core.heap| && s.core.heap[id].phase.New? && s.core.tags.Some? && stop != ClosedChan
    requires t.core == Register(s.core, id, |s.history|, stop) && t.loop == s.loop && t.history == s.history
    ensures StreamsOk(t)
  {
    assert EntryOk(s, id);
    forall i | 0 <= i < |t.core.heap| && Started(t.core.heap[i].phase)
      ensures StreamOk(t, i)
    {
      if i != id {
        StreamsFramed(s, t, i);
      } else {
        NotBusyWithNew(s, id);
      }
    }
  }

  lemma StreamsAfterCallStep(s: State, t: State)
    requires StreamsOk(s) && |s.core.heap| <= |t.core.heap|
    requires forall i :: 0 <= i < |t.core.heap| && Started(t.core.heap[i].phase) ==>
               i < |s.core.heap| && t.core.heap[i] == s.core.heap[i].(flushed := t.core.heap[i].flushed)
    requires t.loop == s.loop && t.history == s.history && t.core.closing == s.core.closing
    ensures StreamsOk(t)
  {
    forall i | 0 <= i < |t.core.heap| && Started(t.core.heap[i].phase)
      ensures StreamOk(t, i)
    {
      StreamsFramed(s, t, i);
    }
  }

  /** A sentence whose tag belongs to an object that the map no longer holds comes after the end of
      that object's stream. */
  lemma LateSentence(s: State, id: nat)
    requires ObjectsOk(s) && StreamsOk(s) && s.loop.Got?
    requires id < |s.core.heap| && Started(s.core.heap[id].phase) && !InTags(s.core, id)
    ensures ResultOf(s.core.heap[id], s.history).Finished?
  {
    assert EntryOk(s, id) && StreamOk(s, id);
  }

  lemma ResultAfterLookUp(e: Entry, h: seq<Sentence>, sen: Sentence)
    requires e.birth <= |h|
    requires e.tag == sen.tag ==> ResultOf(e, h).Finished?
    ensures ResultOf(e, h + [sen]) == ResultOf(e, h)
  {
    FoldNext(Start(e), h, sen, e.tag, e.birth);
  }

  lemma StreamAfterLookUp(s: State, id: nat)
    requires ObjectsOk(s) && StreamsOk(s) && Enabled(s, LookUp)
    requires id < |s.core.heap| && Started(s.core.heap[id].phase)
    ensures id < |Next(s, LookUp).core.heap| && StreamOk(Next(s, LookUp), id)
  {
    var t := Next(s, LookUp);
    var e, sen := s.core.heap[id], s.loop.sen;
    assert StreamOk(s, id);
    assert Processed(s, id) == s.history;
    if t.loop.Found? && t.loop.id == id {
      assert Processed(t, id) == s.history;
    } else {
      assert Processed(t, id) == s.history + [sen];
      if e.tag == sen.tag {
        assert !InTags(s.core, id);
        LateSentence(s, id);
      }
      ResultAfterLookUp(e, s.history, sen);
    }
  }

  lemma AbsorbKeepsStart(e: Entry, sen: Sentence)
    ensures Start(ProcessEntry(e, sen)) == Start(e)
  {
  }

  lemma ResultAfterProcess(e: Entry, h: seq<Sentence>, sen: Sentence)
    requires e.birth <= |h| && sen.tag == e.tag
    requires ResultOf(e, h) == Running(e.body)
    ensures var f := ProcessEntry(e, sen);
            var v := VerdictOf(e.body, sen);
            ResultOf(f, h + [sen]) == if v.Ends() then Finished(f.body, v.err) else Running(f.body)
  {
    FoldNext(Start(e), h, sen, e.tag, e.birth);
    AbsorbKeepsStart(e, sen);
  }

  /** What `Process` does to the object it is for, and to the rest of the state. */
  lemma ProcessShape(s: State)
    requires Enabled(s, Process)
    ensures var id, sen, t := s.loop.id, s.loop.sen, DoProcess(s);
            var v := VerdictOf(s.core.heap[id].body, sen);
            && id < |t.core.heap| && t.core.heap[id] == ProcessEntry(s.core.heap[id], sen)
            && t.core.closing == s.core.closing && t.history == s.history
            && t.loop == if v.Ends() then ToDelete(sen, id, v.err) else Reading
  {
    hide Absorb, VerdictOf;
  }

  /** The object of the sentence that is next to be processed. */
  lemma NextToProcess(s: State)
    requires LoopOk(s) && s.loop.Found? && s.loop.id < |s.core.heap| && StreamOk(s, s.loop.id)
    ensures s.history != []
    ensures var e, sen, before := s.core.heap[s.loop.id], s.loop.sen, s.history[..|s.history| - 1];
            && s.history == before + [sen] && e.phase.Live? && e.tag == sen.tag && e.birth <= |before|
            && ResultOf(e, before) == Running(e.body)
  {
    hide ResultOf;
  }

  lemma ProcessedStream(s: State)
    requires LoopOk(s) && Enabled(s, Process) && StreamOk(s, s.loop.id)
    ensures StreamOk(DoProcess(s), s.loop.id)
  {
    hide ResultOf, Absorb, VerdictOf, LoopOk;
    NextToProcess(s);
    ProcessShape(s);
    var sen := s.loop.sen;
    ResultAfterProcess(s.core.heap[s.loop.id], s.history[..|s.history| - 1], sen);
    hide DoProcess, Enabled;
  }

  lemma UnprocessedStream(s: State, id: nat)
    requires Enabled(s, Process) && id < |s.core.heap| && id != s.loop.id && StreamOk(s, id)
    ensures StreamOk(DoProcess(s), id)
  {
    hide ResultOf, Absorb, VerdictOf;
    assert DoProcess(s).core.heap[id] == s.core.heap[id];
  }

  lemma ProcessIs(s: State)
    requires Enabled(s, Process)
    ensures s.loop.Found? && s.loop.id < |s.core.heap| && Next(s, Process) == DoProcess(s)
    ensures |DoProcess(s).core.heap| == |s.core.heap|
  {
  }

  lemma StreamAfterProcess(s: State, id: nat)
    requires ObjectsOk(s) && StreamsOk(s) && Enabled(s, Process)
    requires id < |s.core.heap| && Started(s.core.heap[id].phase)
    ensures id < |Next(s, Process).core.heap| && StreamOk(Next(s, Process), id)
  {
    hide Next, Enabled, StreamOk, EntriesOk, TagsOk, DoProcess;
    ProcessIs(s);
    assert StreamOk(s, id);
    if s.loop.id == id {
      ProcessedStream(s);
    } else {
      UnprocessedStream(s, id);
    }
  }

  lemma StreamAfterDelete(s: State, id: nat)
    requires ObjectsOk(s) && StreamsOk(s) && Enabled(s, Delete)
    requires id < |s.core.heap| && Started(s.core.heap[id].phase)
    ensures id < |Next(s, Delete).core.heap| && StreamOk(Next(s, Delete), id)
  {
    assert EntryOk(s, id) && StreamOk(s, id);
  }

  lemma StreamAfterClose(s: State, id: nat)
    requires ObjectsOk(s) && StreamsOk(s) && Enabled(s, CloseDone)
    requires id < |s.core.heap| && Started(s.core.heap[id].phase)
    ensures id < |Next(s, CloseDone).core.heap| && StreamOk(Next(s, CloseDone), id)
  {
    assert EntryOk(s, id) && StreamOk(s, id);
  }

  lemma StreamAfterLoopEnds(s: State, id: nat)
    requires ObjectsOk(s) && StreamsOk(s) && Enabled(s, LoopEnds)
    requires id < |s.core.heap| && Started(s.core.heap[id].phase)
    ensures id < |Next(s, LoopEnds).core.heap| && StreamOk(Next(s, LoopEnds), id)
  {
    assert EntryOk(s, id) && StreamOk(s, id);
  }

  lemma StreamAfterRead(s: State, a: Step, id: nat)
    requires Enabled(s, a) && (a.Read? || a.ReadFails? || a.CloseClient?)
    requires id < |s.core.heap| && StreamOk(s, id)
    ensures id < |Next(s, a).core.heap| && StreamOk(Next(s, a), id)
  {
    var t := Next(s, a);
    assert t.core.heap[id] == s.core.heap[id] && t.history == s.history && BusyWith(t.loop) == BusyWith(s.loop);
    assert BusyWith(t.loop).None? || t.loop == s.loop;
    hide Next, Enabled, ResultOf;
  }

  lemma SameObjectsByLoop(s: State, a: Step)
    requires Enabled(s, a) && Actor(a).None?
    ensures |Next(s, a).core.heap| == |s.core.heap|
    ensures forall id :: 0 <= id < |s.core.heap| && Started(Next(s, a).core.heap[id].phase) ==>
              Started(s.core.heap[id].phase) || BusyWith(s.loop) == Some(id) || InTags(s.core, id)
  {
  }

  lemma ObjectsKeptByLoop(s: State, a: Step)
    requires ObjectsOk(s) && StreamsOk(s) && Enabled(s, a) && Actor(a).None?
    ensures ObjectsOk(Next(s, a))
  {
    hide ObjectsOk, StreamsOk, Next, Enabled;
    if a.LookUp? {
      ObjectsAfterLookUp(s);
    } else if a.Process? {
      ObjectsAfterProcess(s);
    } else if a.Delete? {
      ObjectsAfterDelete(s);
    } else if a.CloseDone? {
      ObjectsAfterClose(s);
    } else if a.LoopEnds? {
      ObjectsAfterLoopEnds(s);
    } else {
      ObjectsAfterRead(s, a);
    }
  }

  lemma StreamKeptByLoop(s: State, a: Step, id: nat)
    requires ObjectsOk(s) && StreamsOk(s) && Enabled(s, a) && Actor(a).None?
    requires id < |s.core.heap| && Started(s.core.heap[id].phase)
    ensures id < |Next(s, a).core.heap| && StreamOk(Next(s, a), id)
  {
    SameObjectsByLoop(s, a);
    assert StreamOk(s, id);
    hide StreamOk, ObjectsOk, Next, Enabled;
    match a
    case LookUp => StreamAfterLookUp(s, id);
    case Process => StreamAfterProcess(s, id);
    case Delete => StreamAfterDelete(s, id);
    case CloseDone => StreamAfterClose(s, id);
    case LoopEnds => StreamAfterLoopEnds(s, id);
    case _ => StreamAfterRead(s, a, id);
  }

  lemma StartedBefore(s: State, id: nat)
    requires ObjectsOk(s) && id < |s.core.heap|
    ensures BusyWith(s.loop) == Some(id) || InTags(s.core, id) ==> Started(s.core.heap[id].phase)
  {
    assert EntryOk(s, id);
  }

  lemma StreamsKeptByLoop(s: State, a: Step)
    requires ObjectsOk(s) && StreamsOk(s) && Enabled(s, a) && Actor(a).None?
    ensures StreamsOk(Next(s, a))
  {
    SameObjectsByLoop(s, a);
    hide Next, Enabled, ObjectsOk;
    forall id | 0 <= id < |Next(s, a).core.heap| && Started(Next(s, a).core.heap[id].phase)
      ensures id < |Next(s, a).core.heap| && StreamOk(Next(s, a), id)
    {
      StartedBefore(s, id);
      StreamKeptByLoop(s, a, id);
    }
  }
}
