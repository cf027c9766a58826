/** What holds over every run of the multiplexer, whatever the device sends and however the
    goroutines are interleaved. */
module MuxTheorems {
  import opened Protocol
  import opened Tags
  import opened Codec
  import opened Multiplexer
  import opened MuxInvariants
  import opened MuxSteps
  import opened MuxObjects
  import opened MuxWire
  import opened MuxReplies

  // ----- runs -----

  lemma {:induction false} InvHolds(steps: seq<Step>, s: State)
    requires Execute(Initial(), steps) == Some(s)
    ensures Inv(s)
  {
    if steps == [] {
      InitialInv();
    } else {
      var before := Execute(Initial(), steps[..|steps| - 1]).value;
      InvHolds(steps[..|steps| - 1], before);
      InvKept(before, steps[|steps| - 1]);
    }
  }

  lemma ReachableInv(s: State)
    requires Reachable(s)
    ensures Inv(s)
  {
    var steps :| Execute(Initial(), steps) == Some(s);
    InvHolds(steps, s);
  }

  /** A run from `s` in which the device only answers complete commands. */
  ghost predicate HonestRun(s: State, steps: seq<Step>) {
    steps == [] ||
    (HonestRun(s, steps[..|steps| - 1]) &&
     match Execute(s, steps[..|steps| - 1])
     case None => false
     case Some(t) => Honest(t, steps[|steps| - 1]))
  }

  lemma {:induction false} HonestInv(steps: seq<Step>, s: State)
    requires Execute(Initial(), steps) == Some(s) && HonestRun(Initial(), steps)
    ensures Inv(s) && NothingMissed(s)
  {
    if steps == [] {
      InitialInv();
    } else {
      var before := Execute(Initial(), steps[..|steps| - 1]).value;
      HonestInv(steps[..|steps| - 1], before);
      InvKept(before, steps[|steps| - 1]);
      MissedKept(before, steps[|steps| - 1]);
    }
  }

  // ----- channels -----

  /** No step of any run panics: no channel is closed twice or sent on after closing, and nothing
      is registered in the nil map. */
  lemma NothingPanics(s: State)
    requires Reachable(s)
    ensures !s.core.panicked
    ensures forall id :: 0 <= id < |s.core.heap| ==> !s.core.heap[id].panicked
  {
    ReachableInv(s);
    forall id | 0 <= id < |s.core.heap|
      ensures !s.core.heap[id].panicked
    {
      assert EntryOk(s, id);
    }
  }

  /** Once the loop has returned, the tag map is nil and every object that was registered and not
      withdrawn has been closed. */
  lemma LoopEndClosesAll(s: State, id: nat)
    requires Reachable(s) && s.loop.Ended? && id < |s.core.heap|
    ensures s.core.tags.None?
    ensures Started(s.core.heap[id].phase) ==> s.core.heap[id].reC == ClosedChan
  {
    ReachableInv(s);
    assert EntryOk(s, id);
  }

  /** After that nothing is registered any more, and no object changes except that a late cancel
      may still be written. */
  lemma {:induction false} EndIsFinal(s: State, steps: seq<Step>, t: State, id: nat)
    requires Reachable(s) && s.loop.Ended? && Execute(s, steps) == Some(t)
    requires id < |t.core.heap| && Started(t.core.heap[id].phase)
    ensures t.loop.Ended? && t.core.tags.None?
    ensures id < |s.core.heap| && t.core.heap[id] == s.core.heap[id].(flushed := t.core.heap[id].flushed)
  {
    ReachableInv(s);
    EndedBefore(s, steps, t);
    EndStays(s, steps, t, id);
  }

  lemma {:induction false} EndStays(s: State, steps: seq<Step>, t: State, id: nat)
    requires Inv(s) && s.loop.Ended? && Execute(s, steps) == Some(t)
    requires id < |t.core.heap| && Started(t.core.heap[id].phase)
    ensures id < |s.core.heap| && t.core.heap[id] == s.core.heap[id].(flushed := t.core.heap[id].flushed)
  {
    if steps != [] {
      var before := Execute(s, steps[..|steps| - 1]).value;
      EndedBefore(s, steps[..|steps| - 1], before);
      NothingStartsAfterEnd(before, steps[|steps| - 1], id);
      EndStays(s, steps[..|steps| - 1], before, id);
    }
  }

  lemma {:induction false} EndedBefore(s: State, steps: seq<Step>, t: State)
    requires Inv(s) && s.loop.Ended? && Execute(s, steps) == Some(t)
    ensures Inv(t) && t.loop.Ended?
  {
    if steps != [] {
      var before := Execute(s, steps[..|steps| - 1]).value;
      EndedBefore(s, steps[..|steps| - 1], before);
      InvKept(before, steps[|steps| - 1]);
      LoopOnlyMovesItself(before, steps[|steps| - 1]);
    }
  }

  lemma LoopOnlyMovesItself(s: State, a: Step)
    requires Enabled(s, a) && s.loop.Ended?
    ensures Next(s, a).loop.Ended?
  {
  }

  lemma NothingStartsAfterEnd(s: State, a: Step, id: nat)
    requires Inv(s) && s.loop.Ended? && Enabled(s, a)
    requires id < |Next(s, a).core.heap| && Started(Next(s, a).core.heap[id].phase)
    ensures id < |s.core.heap|
    ensures Next(s, a).core.heap[id] == s.core.heap[id].(flushed := Next(s, a).core.heap[id].flushed)
  {
    if Actor(a).None? {
    } else if IsLocal(a) {
      LocalChangesOnlyItself(s, a);
    } else {
      CallsAfterEnd(s, a, id);
    }
  }

  lemma CallsAfterEnd(s: State, a: Step, id: nat)
    requires ThreadsOk(s) && s.core.tags.None? && Enabled(s, a) && Actor(a).Some? && !IsLocal(a)
    requires id < |Next(s, a).core.heap| && Started(Next(s, a).core.heap[id].phase)
    ensures id < |s.core.heap|
    ensures Next(s, a).core.heap[id] == s.core.heap[id].(flushed := Next(s, a).core.heap[id].flushed)
  {
    if a.Number? {
      assert Next(s, a).core == Issue(s.core, KindOf(At(s, a.th).job.flavour), a.th);
    } else if a.EndSentence? {
      var flushed := MarkFlushed(s.core, At(s, a.th).job.id.value);
      assert Next(s, a).core == s.core || Next(s, a).core == flushed;
    } else {
      SectionsAfterEnd(s, a);
    }
  }

  lemma SectionsAfterEnd(s: State, a: Step)
    requires ThreadsOk(s) && s.core.tags.None? && Enabled(s, a)
    requires a.WriteWord? || a.LockTags? || a.UnlockRun? || a.RegisterListen?
    ensures Next(s, a).core == s.core
  {
    NoRunInSection(s, a.th);
  }

  lemma NoRunInSection(s: State, th: nat)
    requires ThreadsOk(s) && s.core.tags.None? && th in s.threads
    ensures !At(s, th).RunEnded?
  {
    assert JobOk(s, th, At(s, th));
  }

  // ----- isolation of streams -----

  /** At every moment each registered object holds exactly the fold of its own `processSentence` over
      the sentences with its tag, except for one that the loop has looked up for it and not yet
      processed. It is closed just when that fold has ended and the loop has let go of it, or when
      the loop is over, and then has the error of the fold if the fold has ended. */
  lemma StreamsAreIsolated(s: State, id: nat)
    requires Reachable(s) && id < |s.core.heap| && Started(s.core.heap[id].phase)
    ensures var e := s.core.heap[id];
            var p := ResultOf(e, Processed(s, id));
            && e.body == p.body
            && (e.reC == ClosedChan <==> (p.Finished? && BusyWith(s.loop) != Some(id)) || s.loop.Ended?)
            && (p.Finished? && e.reC == ClosedChan ==> e.err == p.err)
            && (p.Running? && e.reC == ClosedChan && e.err.None? ==> s.core.closing)
    ensures s.loop.Found? && s.loop.id == id ==>
              s.history == Processed(s, id) + [s.loop.sen] && s.loop.sen.tag == s.core.heap[id].tag
    ensures !(s.loop.Found? && s.loop.id == id) ==> Processed(s, id) == s.history
  {
    hide LocksAgree, ThreadsOk, TagsOk, LoopOk, WireOk, FlushedOk, EntryOk, StreamOk;
    ReachableInv(s);
    assert EntryOk(s, id) && StreamOk(s, id);
    StreamFacts(s, id);
  }

  lemma StreamFacts(s: State, id: nat)
    requires TagsOk(s.core) && LoopOk(s) && id < |s.core.heap| && Started(s.core.heap[id].phase)
    requires EntryOk(s, id) && StreamOk(s, id)
    ensures var e := s.core.heap[id];
            var p := ResultOf(e, Processed(s, id));
            && e.body == p.body
            && (e.reC == ClosedChan <==> (p.Finished? && BusyWith(s.loop) != Some(id)) || s.loop.Ended?)
            && (p.Finished? && e.reC == ClosedChan ==> e.err == p.err)
            && (p.Running? && e.reC == ClosedChan && e.err.None? ==> s.core.closing)
    ensures s.loop.Found? && s.loop.id == id ==>
              s.history == Processed(s, id) + [s.loop.sen] && s.loop.sen.tag == s.core.heap[id].tag
    ensures !(s.loop.Found? && s.loop.id == id) ==> Processed(s, id) == s.history
  {
    hide ResultOf;
  }

  /** Two objects of any two runs that saw the same sentences of their own have the same result,
      whatever other streams did meanwhile. */
  lemma OnlyOwnSentencesMatter(s: State, i: nat, t: State, j: nat)
    requires Reachable(s) && i < |s.core.heap| && Started(s.core.heap[i].phase)
    requires Reachable(t) && j < |t.core.heap| && Started(t.core.heap[j].phase)
    requires Start(s.core.heap[i]) == Start(t.core.heap[j])
    requires Mine(Processed(s, i), s.core.heap[i].tag, s.core.heap[i].birth)
             == Mine(Processed(t, j), t.core.heap[j].tag, t.core.heap[j].birth)
    ensures s.core.heap[i].body == t.core.heap[j].body
    ensures ResultOf(s.core.heap[i], Processed(s, i)).Finished?
            && s.core.heap[i].reC == ClosedChan && t.core.heap[j].reC == ClosedChan ==>
              s.core.heap[i].err == t.core.heap[j].err
  {
    StreamsAreIsolated(s, i);
    StreamsAreIsolated(t, j);
  }

  lemma {:induction false} MineIsMine(h: seq<Sentence>, tag: string, from: nat, k: nat)
    requires k < |Mine(h, tag, from)|
    ensures Mine(h, tag, from)[k].tag == tag && Mine(h, tag, from)[k] in h
  {
    var before := h[..|h| - 1];
    if k < |Mine(before, tag, from)| {
      MineIsMine(before, tag, from, k);
    }
  }

  /** What a call finds when its stream has ended, before the end of the loop or after: all its data
      sentences up to the first ending one, in order. */
  lemma ClosedStreamMeaning(s: State, id: nat)
    requires Reachable(s) && id < |s.core.heap| && Started(s.core.heap[id].phase)
    requires s.core.heap[id].reC == ClosedChan && ResultOf(s.core.heap[id], s.history).Finished?
    ensures var e := s.core.heap[id];
            exists n: nat :: EndsWith(Start(e), Mine(s.history, e.tag, e.birth), n, e.body, e.err)
  {
    StreamsAreIsolated(s, id);
    FoldMeaning(Start(s.core.heap[id]), Mine(s.history, s.core.heap[id].tag, s.core.heap[id].birth));
  }

  // ----- no reply is lost -----

  /** If the device answers only complete commands, a sentence with the tag of a call is looked up
      when that call is registered, unless an earlier sentence ended its stream. */
  lemma NoReplyIsLost(steps: seq<Step>, s: State, id: nat)
    requires Execute(Initial(), steps) == Some(s) && HonestRun(Initial(), steps)
    requires Enabled(s, LookUp) && id < |s.core.heap| && s.loop.sen.tag == s.core.heap[id].tag
    ensures Next(s, LookUp).loop == Found(s.loop.sen, id) || ResultOf(s.core.heap[id], s.history).Finished?
    ensures Mine(s.history, s.core.heap[id].tag, 0) == [] ==> Next(s, LookUp).loop == Found(s.loop.sen, id)
  {
    HonestInv(steps, s);
    RegisteredAtLookUp(s, id);
    assert EntryOk(s, id);
    if !InTags(s.core, id) {
      LateSentence(s, id);
      EverythingCounts(steps, s, id);
    }
  }

  /** With such a device the fold of `StreamsAreIsolated` runs over all sentences of the tag: none
      came before the registration. */
  lemma EverythingCounts(steps: seq<Step>, s: State, id: nat)
    requires Execute(Initial(), steps) == Some(s) && HonestRun(Initial(), steps)
    requires id < |s.core.heap|
    ensures Started(s.core.heap[id].phase) ==>
              Mine(s.history, s.core.heap[id].tag, s.core.heap[id].birth) == Mine(s.history, s.core.heap[id].tag, 0)
    ensures !Started(s.core.heap[id].phase) ==> Mine(s.history, s.core.heap[id].tag, 0) == []
  {
    HonestInv(steps, s);
    var e := s.core.heap[id];
    var from := if Started(e.phase) then e.birth else |s.history|;
    forall i | 0 <= i < from && i < |s.history|
      ensures s.history[i].tag != e.tag
    {
      assert Unseen(e, i);
    }
    MineFromLater(s.history, e.tag, from);
  }

  // ----- the reply of a run -----

  /** A run that returned a nil error carries its own `!done`, unless `Close` was called and the
      loop ended before the reply was complete; then `Done` is nil. */
  lemma NilErrorMeansDone(s: State, th: nat)
    requires Reachable(s) && th in s.threads && At(s, th).Returned? && At(s, th).err.None?
    ensures At(s, th).id < |s.core.heap|
    ensures var e := s.core.heap[At(s, th).id];
            && e.body.RunBody? && e.owner == th
            && (e.body.done.Some? <==> ResultOf(e, s.history).Finished?)
            && (e.body.done.Some? ==> e.body.done.value.word == DONE && e.body.done.value.tag == e.tag)
            && (e.body.done.None? ==> s.core.closing && s.loop.Ended?)
  {
    hide WireOk, FlushedOk, TagsOk, LocksAgree;
    ReachableInv(s);
    assert JobOk(s, th, At(s, th));
    var id := At(s, th).id;
    var e := s.core.heap[id];
    assert EntryOk(s, id);
    StreamsAreIsolated(s, id);
    var sens := Mine(s.history, e.tag, e.birth);
    FoldMeaning(Start(e), sens);
    if ResultOf(e, s.history).Finished? {
      var n: nat :| EndsWith(Start(e), sens, n, e.body, e.err);
      MineIsMine(s.history, e.tag, e.birth, n);
    }
  }

  // ----- tags -----

  /** No two calls of a run, of whatever kind, have the same tag. */
  lemma TagsAreDistinct(s: State, i: nat, j: nat)
    requires Reachable(s) && i < |s.core.heap| && j < |s.core.heap|
    ensures s.core.heap[i].tag == s.core.heap[j].tag <==> i == j
  {
    ReachableInv(s);
    if s.core.heap[i].tag == s.core.heap[j].tag {
      DistinctTags(s, i, j);
    }
  }

  /** The `/cancel` that a finished context writes, however late, names the stream it belongs to and
      no other: a run's own one, or that of the watched listener. */
  lemma CancelNamesItsStream(s: State, th: nat, id: nat)
    requires Reachable(s) && th in s.threads && At(s, th).Writing? && At(s, th).job.flavour.CancelCall?
    requires id < |s.core.heap|
    ensures var j := At(s, th).job;
            && |j.words| == 3 && j.flavour.target < |s.core.heap|
            && (j.words[1] == "=tag=" + s.core.heap[id].tag <==> id == j.flavour.target)
            && (j.flavour.forRun ==> s.core.heap[j.flavour.target].owner == th)
            && (!j.flavour.forRun ==> s.core.heap[j.flavour.target].kind == ListenKind)
  {
    ReachableInv(s);
    var j := At(s, th).job;
    assert JobOk(s, th, At(s, th));
    var own, other := s.core.heap[j.flavour.target].tag, s.core.heap[id].tag;
    assert ("=tag=" + own)[5..] == own && ("=tag=" + other)[5..] == other;
    TagsAreDistinct(s, id, j.flavour.target);
  }

  // ----- locks -----

  /** Every goroutine asks for a lock only while all the locks it holds are lower. */
  lemma LockOrder(s: State, th: nat)
    requires Reachable(s) && th in s.threads && Wants(At(s, th)).Some?
    ensures forall l :: l in Holds(s.threads[th]) ==> Level(l) < Level(Wants(At(s, th)).value)
  {
    hide StreamsOk, EntriesOk, TagsOk, LoopOk, WireOk, FlushedOk;
    ReachableInv(s);
    assert ThreadLocks(s, th) && JobOk(s, th, At(s, th));
  }

  ghost predicate WaitsFor(s: State, t: nat, u: nat) {
    && t in s.threads && u in s.threads && Wants(At(s, t)).Some?
    && OwnerOf(s, Wants(At(s, t)).value) == Held(u)
  }

  lemma WaitingRises(s: State, t: nat, u: nat)
    requires Reachable(s) && WaitsFor(s, t, u) && Wants(At(s, u)).Some?
    ensures Level(Wants(At(s, t)).value) < Level(Wants(At(s, u)).value)
  {
    ReachableInv(s);
    assert ThreadLocks(s, u);
    LockOrder(s, u);
    assert Wants(At(s, t)).value in Holds(s.threads[u]);
  }

  lemma {:induction false} ChainRises(s: State, p: seq<nat>, i: nat)
    requires Reachable(s) && i < |p|
    requires forall k :: 0 <= k < |p| - 1 ==> WaitsFor(s, p[k], p[k + 1])
    requires forall k :: 0 <= k < |p| ==> p[k] in s.threads && Wants(At(s, p[k])).Some?
    ensures Level(Wants(At(s, p[i])).value) >= Level(Wants(At(s, p[0])).value) + i
  {
    if i > 0 {
      ChainRises(s, p, i - 1);
      WaitingRises(s, p[i - 1], p[i]);
    }
  }

  /** No cycle of goroutines, each waiting for a lock the next one holds, is ever reached. */
  lemma NoDeadlockCycle(s: State, p: seq<nat>)
    requires Reachable(s) && p != []
    ensures !(WaitsFor(s, p[|p| - 1], p[0]) && forall k :: 0 <= k < |p| - 1 ==> WaitsFor(s, p[k], p[k + 1]))
  {
    if WaitsFor(s, p[|p| - 1], p[0]) && forall k :: 0 <= k < |p| - 1 ==> WaitsFor(s, p[k], p[k + 1]) {
      forall k | 0 <= k < |p|
        ensures p[k] in s.threads && Wants(At(s, p[k])).Some?
      {
        assert k < |p| - 1 ==> WaitsFor(s, p[k], p[k + 1]);
      }
      ChainRises(s, p, |p| - 1);
      WaitingRises(s, p[|p| - 1], p[0]);
    }
  }

  /** The loop and `Close` need only `c.mu`, and its holder never waits for anything. */
  lemma SectionNeverWaits(s: State, th: nat)
    requires Reachable(s) && s.stateMu == Held(th)
    ensures th in s.threads && Wants(At(s, th)).None?
    ensures s.stateMu != Orphaned
  {
    ReachableInv(s);
    assert ThreadLocks(s, th);
  }

  /** The writer is left locked by exactly one kind of step: a run that finds no tag map
      (run.go:53-57). */
  lemma OrphanedExactlyWhen(s: State, a: Step)
    requires Enabled(s, a) && s.writerMu != Orphaned
    ensures Next(s, a).writerMu == Orphaned <==>
            a.LockTags? && At(s, a.th).job.flavour.RunCall? && s.core.tags.None?
  {
  }

  /** Without the writer, and as long as it is not free, a step cannot touch what it guards. */
  lemma OffTheWriter(s: State, a: Step)
    requires Enabled(s, a) && !s.writerMu.Free?
    requires Actor(a).Some? && a.th in s.threads ==> !HoldsWriter(At(s, a.th))
    ensures Next(s, a).writerMu == s.writerMu && Next(s, a).sink == s.sink && Next(s, a).calls == s.calls
  {
  }

  lemma OrphanedStep(s: State, a: Step)
    requires LocksAgree(s) && s.writerMu == Orphaned && Enabled(s, a)
    ensures Next(s, a).writerMu == Orphaned && Next(s, a).sink == s.sink && Next(s, a).calls == s.calls
  {
    hide Next, Enabled;
    if Actor(a).Some? && a.th in s.threads {
      assert ThreadLocks(s, a.th);
    }
    OffTheWriter(s, a);
  }

  /** From then on no call ever writes another byte. */
  lemma {:induction false} OrphanedForever(s: State, steps: seq<Step>, t: State)
    requires Inv(s) && s.writerMu == Orphaned && Execute(s, steps) == Some(t)
    ensures Inv(t) && t.writerMu == Orphaned && t.sink == s.sink && t.calls == s.calls
  {
    if steps != [] {
      var before := Execute(s, steps[..|steps| - 1]).value;
      OrphanedForever(s, steps[..|steps| - 1], before);
      OrphanedStep(before, steps[|steps| - 1]);
      InvKept(before, steps[|steps| - 1]);
    }
  }

  // ----- the wire -----

  /** The bytes the writer has accepted encode the words of the complete calls in the order these
      ended, followed by the words that the holder of the writer has given so far; after an error they
      are cut somewhere in the words of that last call. What a device reads there is in `MuxFrames`. */
  lemma WireIsWholeSentences(s: State)
    requires Reachable(s)
    ensures EncodeAll(s.calls) <= s.sink.out <= EncodeAll(s.calls) + EncodeWords(s.open)
    ensures !s.sink.failed ==> s.sink.out == EncodeAll(s.calls) + EncodeWords(s.open)
    ensures !s.sink.failed && s.writerMu.Free? ==> s.sink.out == EncodeAll(s.calls)
    ensures !s.sink.failed && s.writerMu.Held? ==>
              s.writerMu.th in s.threads && s.open == WordsSoFar(At(s, s.writerMu.th))
  {
    ReachableInv(s);
    if s.open == [] {
      assert EncodeAll(s.calls) + EncodeWords(s.open) == EncodeAll(s.calls);
    }
  }

  lemma FailedStep(s: State, a: Step)
    requires s.sink.failed && Enabled(s, a)
    ensures Next(s, a).sink == s.sink && Next(s, a).calls == s.calls
  {
    if IsLocal(a) {
      LocalChangesOnlyItself(s, a);
    }
  }

  /** After the first write error nothing more is written and no call completes a sentence. */
  lemma {:induction false} NothingAfterError(s: State, steps: seq<Step>, t: State)
    requires s.sink.failed && Execute(s, steps) == Some(t)
    ensures t.sink == s.sink && t.calls == s.calls
  {
    if steps != [] {
      var before := Execute(s, steps[..|steps| - 1]).value;
      NothingAfterError(s, steps[..|steps| - 1], before);
      FailedStep(before, steps[|steps| - 1]);
    }
  }

  function LastWord(ws: seq<string>): string {
    if ws == [] then "" else ws[|ws| - 1]
  }

  /** The words of every complete call end with the tag word of its object, and no two calls have the
      same one. */
  ghost predicate CallsTagged(s: State) {
    && (forall i :: 0 <= i < |s.calls| ==> TaggedByFlushed(s.core, s.calls[i]))
    && (forall i, j :: 0 <= i < j < |s.calls| ==> LastWord(s.calls[i]) != LastWord(s.calls[j]))
  }

  ghost predicate TaggedByFlushed(c: Core, ws: seq<string>) {
    exists id :: 0 <= id < |c.heap| && c.heap[id].flushed && LastWord(ws) == TagWord(c.heap[id].tag)
  }

  lemma TaggedStays(c: Core, d: Core, ws: seq<string>)
    requires CoreGrows(c, d) && TaggedByFlushed(c, ws)
    ensures TaggedByFlushed(d, ws)
  {
    var id :| 0 <= id < |c.heap| && c.heap[id].flushed && LastWord(ws) == TagWord(c.heap[id].tag);
    assert d.heap[id].flushed && LastWord(ws) == TagWord(d.heap[id].tag);
  }

  /** A call that completes had not done so before. */
  lemma CallsAfterStep(s: State, a: Step) returns (id: nat)
    requires Inv(s) && Enabled(s, a)
    ensures Next(s, a).calls == s.calls ||
            (a.EndSentence? && Next(s, a).calls == s.calls + [At(s, a.th).job.words]
             && id < |s.core.heap| && !s.core.heap[id].flushed
             && LastWord(At(s, a.th).job.words) == TagWord(s.core.heap[id].tag)
             && TaggedByFlushed(Next(s, a).core, At(s, a.th).job.words))
  {
    hide StreamsOk, EntriesOk, TagsOk, LoopOk, WireOk, FlushedOk, LocksAgree;
    id := 0;
    if Actor(a).Some? && IsLocal(a) {
      LocalChangesOnlyItself(s, a);
    } else if a.EndSentence? {
      EndIs(s, a);
      hide Next, Enabled;
      assert JobOk(s, a.th, At(s, a.th));
      id := At(s, a.th).job.id.value;
      var t := DoEnd(s, a.th, a.fault, a.flushFails);
      assert t.calls == s.calls || t.core.heap[id].flushed;
    }
  }

  /** The tag word of a call that is not yet complete ends no complete call. */
  lemma NotYetTagged(s: State, id: nat, ws: seq<string>)
    requires EntriesOk(s) && id < |s.core.heap| && !s.core.heap[id].flushed && TaggedByFlushed(s.core, ws)
    ensures LastWord(ws) != TagWord(s.core.heap[id].tag)
  {
    var x :| 0 <= x < |s.core.heap| && s.core.heap[x].flushed && LastWord(ws) == TagWord(s.core.heap[x].tag);
    assert TagWord(s.core.heap[x].tag)[5..] == s.core.heap[x].tag;
    assert TagWord(s.core.heap[id].tag)[5..] == s.core.heap[id].tag;
    if s.core.heap[x].tag == s.core.heap[id].tag {
      DistinctTags(s, x, id);
    }
  }

  lemma TaggedAfterStep(s: State, a: Step)
    requires Inv(s) && Enabled(s, a) && CallsTagged(s)
    ensures CallsTagged(Next(s, a))
  {
    hide LocksAgree, ThreadsOk, TagsOk, EntriesOk, LoopOk, StreamsOk, WireOk, FlushedOk, Next, Enabled;
    if Actor(a).Some? { GrowsInCalls(s, a); } else { GrowsByLoop(s, a); }
    var id := CallsAfterStep(s, a);
    var t := Next(s, a);
    hide TaggedByFlushed, CoreGrows;
    forall i | 0 <= i < |s.calls|
      ensures TaggedByFlushed(t.core, s.calls[i])
      ensures t.calls != s.calls ==> LastWord(s.calls[i]) != TagWord(s.core.heap[id].tag)
    {
      TaggedStays(s.core, t.core, s.calls[i]);
      if t.calls != s.calls {
        NotYetTagged(s, id, s.calls[i]);
      }
    }
  }

  lemma {:induction false} EveryCallIsTagged(steps: seq<Step>, s: State)
    requires Execute(Initial(), steps) == Some(s)
    ensures CallsTagged(s)
  {
    if steps != [] {
      var before := Execute(Initial(), steps[..|steps| - 1]).value;
      EveryCallIsTagged(steps[..|steps| - 1], before);
      InvHolds(steps[..|steps| - 1], before);
      TaggedAfterStep(before, steps[|steps| - 1]);
    }
  }
}
