/** Every step keeps the invariants of the multiplexer. */
module MuxSteps {
  import opened Protocol
  import opened Tags
  import opened Multiplexer
  import opened MuxInvariants

  function Actor(a: Step): Option<nat> {
    match a
    case Read(_) => None
    case ReadFails(_) => None
    case LookUp => None
    case Process => None
    case Delete => None
    case CloseDone => None
    case LoopEnds => None
    case CloseClient => None
    case _ => Some(a.th)
  }

  /** Steps that change nothing but the acting goroutine and the locks. */
  predicate IsLocal(a: Step) {
    Actor(a).Some? && !a.WriteWord? && !a.Number? && !a.LockTags? && !a.EndSentence? && !a.UnlockRun? &&
    !a.RegisterListen?
  }

  lemma LocalChangesOnlyItself(s: State, a: Step)
    requires Enabled(s, a) && IsLocal(a)
    ensures var t := Next(s, a);
            && t.core == s.core && t.sink == s.sink && t.loop == s.loop
            && t.history == s.history && t.calls == s.calls && t.open == s.open
            && a.th in t.threads
  {
  }

  /** What the other steps of calls do to the objects and the map. */
  lemma CallCore(s: State, a: Step)
    requires Enabled(s, a) && Actor(a).Some? && !IsLocal(a)
    ensures a.th in s.threads
    ensures Next(s, a).loop == s.loop && Next(s, a).history == s.history
    ensures a.WriteWord? ==> Next(s, a).core == s.core
    ensures a.Number? ==>
              At(s, a.th).Numbering? && Next(s, a).core == Issue(s.core, KindOf(At(s, a.th).job.flavour), a.th)
    ensures a.LockTags? ==> At(s, a.th).WantTags? && HasId(s, At(s, a.th).job)
    ensures a.LockTags? && Next(s, a).core != s.core ==>
              s.core.tags.Some? && Next(s, a).core == Register(s.core, At(s, a.th).job.id.value, |s.history|, NilChan)
    ensures a.EndSentence? ==> At(s, a.th).Ending? && HasId(s, At(s, a.th).job)
    ensures a.EndSentence? && Next(s, a).core != s.core ==>
              Next(s, a).core == MarkFlushed(s.core, At(s, a.th).job.id.value)
    ensures a.UnlockRun? ==> At(s, a.th).RunEnded? && HasId(s, At(s, a.th).job)
    ensures a.UnlockRun? ==>
              Next(s, a).core == if At(s, a.th).ok then s.core else Withdraw(s.core, At(s, a.th).job.id.value)
    ensures a.RegisterListen? ==> At(s, a.th).ListenFlushed? && HasId(s, At(s, a.th).job)
    ensures a.RegisterListen? && s.core.tags.None? ==> Next(s, a).core == s.core
    ensures a.RegisterListen? && s.core.tags.Some? ==>
              exists stop :: Next(s, a).core == Register(s.core, At(s, a.th).job.id.value, |s.history|, stop)
  {
    hide Register, MarkFlushed, Withdraw, Issue, WriteBytes;
  }

  // ----- locks -----

  predicate MovesOnly(s: State, t: State, th: nat) {
    && th in t.threads && t.threads.Keys == s.threads.Keys + {th}
    && (forall u :: u in s.threads && u != th ==> t.threads[u] == s.threads[u])
  }

  predicate OwnerStep(o: Owner, p: Owner, th: nat) {
    p == o || ((o == Free || o == Held(th)) && (p == Free || p == Held(th) || p == Orphaned))
  }

  lemma LocksFramed(s: State, t: State, th: nat)
    requires LocksAgree(s) && MovesOnly(s, t, th)
    requires OwnerStep(s.stateMu, t.stateMu, th) && t.stateMu != Orphaned
    requires OwnerStep(s.initMu, t.initMu, th) && t.initMu != Orphaned
    requires OwnerStep(s.probeMu, t.probeMu, th) && t.probeMu != Orphaned
    requires OwnerStep(s.writerMu, t.writerMu, th)
    requires ThreadLocks(t, th)
    ensures LocksAgree(t)
  {
    forall u | u in t.threads
      ensures ThreadLocks(t, u)
    {
      if u != th {
        assert u in s.threads && ThreadLocks(s, u);
      }
    }
  }

  /** A move between two places of the code that hold the same locks. */
  lemma LocksMoved(s: State, th: nat, pc: PC)
    requires LocksAgree(s) && th in s.threads
    requires HoldsWriter(pc) == HoldsWriter(At(s, th)) && HoldsState(pc) == HoldsState(At(s, th))
    requires pc.WantInit? ==> s.threads[th].outer == {}
    requires pc.WantProbe? ==> ProbeLock !in s.threads[th].outer
    ensures LocksAgree(Move(s, th, pc))
  {
    assert ThreadLocks(s, th);
    LocksFramed(s, Move(s, th, pc), th);
  }

  lemma LocksKeptAround(s: State, a: Step)
    requires LocksAgree(s) && Enabled(s, a) && MovesLock(a)
    ensures LocksAgree(Next(s, a))
  {
    if a.Spawn? {
      assert s.writerMu != Held(a.th) && s.stateMu != Held(a.th);
    } else {
      assert ThreadLocks(s, a.th);
    }
    LocksFramed(s, Next(s, a), a.th);
  }

  predicate MovesLock(a: Step) {
    a.Spawn? || a.TakeInit? || a.TakeProbe? || a.DropInit? || a.DropProbe? || a.LockWriter?
  }

  lemma LocalMove(s: State, a: Step)
    requires Enabled(s, a) && IsLocal(a) && !MovesLock(a) && JobOk(s, a.th, At(s, a.th))
    ensures a.th in s.threads && a.th in Next(s, a).threads
    ensures var pc := Next(s, a).threads[a.th].pc;
            && Next(s, a) == Move(s, a.th, pc)
            && HoldsWriter(pc) == HoldsWriter(At(s, a.th)) && HoldsState(pc) == HoldsState(At(s, a.th))
            && (pc.WantInit? ==> s.threads[a.th].outer == {})
            && (pc.WantProbe? ==> ProbeLock !in s.threads[a.th].outer)
  {
  }

  lemma LocksKeptLocally(s: State, a: Step)
    requires LocksAgree(s) && ThreadsOk(s) && Enabled(s, a) && IsLocal(a)
    ensures LocksAgree(Next(s, a))
  {
    if MovesLock(a) {
      LocksKeptAround(s, a);
    } else {
      hide LocksAgree, Next;
      assert JobOk(s, a.th, At(s, a.th));
      LocalMove(s, a);
      LocksMoved(s, a.th, Next(s, a).threads[a.th].pc);
    }
  }

  /** A move that may also take or give back the writer and `c.mu`. */
  lemma LocksMovedTo(s: State, t: State, th: nat, pc: PC)
    requires LocksAgree(s) && th in s.threads
    requires t.threads == s.threads[th := s.threads[th].(pc := pc)]
    requires t.initMu == s.initMu && t.probeMu == s.probeMu
    requires OwnerStep(s.stateMu, t.stateMu, th) && t.stateMu != Orphaned
    requires OwnerStep(s.writerMu, t.writerMu, th)
    requires HoldsWriter(pc) <==> t.writerMu == Held(th)
    requires HoldsState(pc) <==> t.stateMu == Held(th)
    requires !pc.WantInit? && !pc.WantProbe?
    ensures LocksAgree(t)
  {
    assert ThreadLocks(s, th);
    LocksFramed(s, t, th);
  }

  lemma LocksKeptInWords(s: State, a: Step)
    requires LocksAgree(s) && Enabled(s, a) && (a.WriteWord? || a.Number?)
    ensures LocksAgree(Next(s, a))
  {
    assert ThreadLocks(s, a.th);
    LocksMovedTo(s, Next(s, a), a.th, Next(s, a).threads[a.th].pc);
  }

  /** What `EndSentence` leaves alone, and the locks it gives back. */
  lemma EndShape(s: State, th: nat, fault: Option<nat>, flushFails: bool)
    requires Enabled(s, EndSentence(th, fault, flushFails))
    ensures var t := DoEnd(s, th, fault, flushFails);
            && MovesOnly(s, t, th) && t.threads == s.threads[th := s.threads[th].(pc := t.threads[th].pc)]
            && t.loop == s.loop && t.history == s.history
            && (t.core == s.core || t.core == MarkFlushed(s.core, At(s, th).job.id.value))
            && t.initMu == s.initMu && t.probeMu == s.probeMu && t.writerMu == Free
            && !HoldsWriter(t.threads[th].pc) && !t.threads[th].pc.WantInit? && !t.threads[th].pc.WantProbe?
            && (t.stateMu == if At(s, th).job.flavour.ListenCall? && !HoldsState(t.threads[th].pc) then Free
                             else s.stateMu)
            && (!At(s, th).job.flavour.ListenCall? ==> HoldsState(t.threads[th].pc) == At(s, th).job.flavour.RunCall?)
  {
    hide WriteBytes, MarkFlushed;
  }

  lemma EndIs(s: State, a: Step)
    requires Enabled(s, a) && a.EndSentence?
    ensures Enabled(s, EndSentence(a.th, a.fault, a.flushFails)) && a.th in s.threads && At(s, a.th).Ending?
    ensures HasId(s, At(s, a.th).job) && Next(s, a) == DoEnd(s, a.th, a.fault, a.flushFails)
  {
  }

  lemma LocksKeptAtEnd(s: State, a: Step)
    requires LocksAgree(s) && Enabled(s, a) && a.EndSentence?
    ensures LocksAgree(Next(s, a))
  {
    assert ThreadLocks(s, a.th);
    EndIs(s, a);
    EndShape(s, a.th, a.fault, a.flushFails);
    hide Next, Enabled, DoEnd;
    var t := DoEnd(s, a.th, a.fault, a.flushFails);
    LocksMovedTo(s, t, a.th, t.threads[a.th].pc);
  }

  lemma LocksKeptByUnlock(s: State, a: Step)
    requires LocksAgree(s) && Enabled(s, a) && a.UnlockRun?
    ensures LocksAgree(Next(s, a))
  {
    assert ThreadLocks(s, a.th);
    var t := DoUnlockRun(s, a.th);
    assert Next(s, a) == t;
    hide Next, Enabled;
    LocksMovedTo(s, t, a.th, t.threads[a.th].pc);
  }

  /** The locks held once the critical section is open, or left as it was without a tag map. */
  lemma LockShape(s: State, th: nat)
    requires Enabled(s, LockTags(th))
    ensures var t := DoLockTags(s, th);
            && th in t.threads && t.threads == s.threads[th := s.threads[th].(pc := t.threads[th].pc)]
            && t.initMu == s.initMu && t.probeMu == s.probeMu
            && t.stateMu == (if HoldsState(t.threads[th].pc) then Held(th) else Free)
            && t.writerMu == (if HoldsWriter(At(s, th)) && !HoldsWriter(t.threads[th].pc) then Orphaned else s.writerMu)
            && (HoldsWriter(t.threads[th].pc) ==> HoldsWriter(At(s, th)))
            && !t.threads[th].pc.WantInit? && !t.threads[th].pc.WantProbe?
  {
    hide Register;
  }

  lemma LocksKeptByLock(s: State, a: Step)
    requires LocksAgree(s) && Enabled(s, a) && a.LockTags?
    ensures LocksAgree(Next(s, a))
  {
    assert ThreadLocks(s, a.th);
    LockShape(s, a.th);
    var t := DoLockTags(s, a.th);
    assert Next(s, a) == t;
    hide Next, Enabled, DoLockTags;
    LocksMovedTo(s, t, a.th, t.threads[a.th].pc);
  }

  lemma LocksKeptInRegister(s: State, a: Step)
    requires LocksAgree(s) && Enabled(s, a) && a.RegisterListen?
    ensures LocksAgree(Next(s, a))
  {
    var t := DoRegisterListen(s, a.th, a.watcher);
    assert Next(s, a) == t && a.th in s.threads && HoldsState(At(s, a.th)) && a.watcher !in s.threads;
    hide Next, Enabled;
    var mid := Move(s, a.th, Idle).(stateMu := Free);
    assert ThreadLocks(s, a.th);
    LocksFramed(s, mid, a.th);
    hide LocksAgree;
    LocksWithWatcher(mid, t, a.watcher);
  }

  lemma LocksWithWatcher(mid: State, t: State, watcher: nat)
    requires LocksAgree(mid) && t.initMu == mid.initMu && t.probeMu == mid.probeMu
    requires t.writerMu == mid.writerMu && t.stateMu == mid.stateMu
    requires watcher !in mid.threads
    requires t.threads == mid.threads
             || exists id :: t.threads == mid.threads[watcher := Thread(Watching(id), {})]
    ensures LocksAgree(t)
  {
    if watcher in t.threads {
      assert mid.writerMu != Held(watcher) && mid.stateMu != Held(watcher);
      LocksFramed(mid, t, watcher);
    } else {
      forall u | u in t.threads
        ensures ThreadLocks(t, u)
      {
        assert ThreadLocks(mid, u);
      }
    }
  }

  lemma LocksKept(s: State, a: Step)
    requires LocksAgree(s) && ThreadsOk(s) && Enabled(s, a)
    ensures LocksAgree(Next(s, a))
  {
    if IsLocal(a) {
      LocksKeptLocally(s, a);
    } else if a.RegisterListen? {
      LocksKeptInRegister(s, a);
    } else if a.LockTags? {
      LocksKeptByLock(s, a);
    } else if a.EndSentence? {
      LocksKeptAtEnd(s, a);
    } else if a.UnlockRun? {
      LocksKeptByUnlock(s, a);
    } else if Actor(a).Some? {
      LocksKeptInWords(s, a);
    } else {
      LocksKeptByLoop(s, a);
    }
  }

  lemma LocksKeptByLoop(s: State, a: Step)
    requires LocksAgree(s) && Enabled(s, a) && Actor(a).None?
    ensures LocksAgree(Next(s, a))
    ensures Next(s, a).threads == s.threads
  {
    var t := Next(s, a);
    assert t.threads == s.threads;
    forall u | u in t.threads
      ensures ThreadLocks(t, u)
    {
      assert ThreadLocks(s, u);
    }
  }

  // ----- goroutines -----

  /** How a reply object may change while goroutine `th` does not move. */
  ghost predicate EntryFramed(e: Entry, f: Entry, th: nat) {
    && f.tag == e.tag && f.kind == e.kind && f.owner == e.owner
    && (Started(e.phase) && (e.owner == th || e.kind == ListenKind) ==> Started(f.phase))
    && (e.phase.Closed? ==> f.phase.Closed? && f.err == e.err)
    && (e.owner == th ==> f.flushed == e.flushed && (e.phase.New? ==> f.phase.New?))
  }

  ghost predicate Settled(s: State, id: nat)
    requires id < |s.core.heap|
  {
    && s.core.heap[id].phase.Live? && InTags(s.core, id) && BusyWith(s.loop) != Some(id)
    && s.core.heap[id].birth == |s.history|
  }

  ghost predicate Undisturbed(s: State, t: State, th: nat) {
    && |s.core.heap| <= |t.core.heap|
    && (forall id :: 0 <= id < |s.core.heap| ==> EntryFramed(s.core.heap[id], t.core.heap[id], th))
    && (s.stateMu == Held(th) ==>
          forall id :: 0 <= id < |s.core.heap| && s.core.heap[id].owner == th && Settled(s, id) ==> Settled(t, id))
  }

  lemma JobFramed(s: State, t: State, th: nat, pc: PC)
    requires JobOk(s, th, pc) && Undisturbed(s, t, th)
    requires HoldsState(pc) ==> s.stateMu == Held(th)
    ensures JobOk(t, th, pc)
  {
    match pc
    case Ending(j) =>
      assert j.id.Some?;
      if j.flavour.RunCall? { assert Settled(s, j.id.value); }
    case RunEnded(j, ok) =>
      assert Settled(s, j.id.value);
    case _ =>
  }

  /** Goroutines that do not move are not disturbed; the ones that do have to be looked at. */
  lemma ThreadsFramed(s: State, t: State, moved: set<nat>)
    requires LocksAgree(s) && ThreadsOk(s)
    requires forall u :: u in t.threads && u !in moved ==> u in s.threads && t.threads[u] == s.threads[u]
    requires forall u :: u in s.threads && u !in moved ==> Undisturbed(s, t, u)
    requires forall u :: u in t.threads && u in moved ==> JobOk(t, u, t.threads[u].pc)
    ensures ThreadsOk(t)
  {
    forall u | u in t.threads
      ensures JobOk(t, u, t.threads[u].pc)
    {
      if u !in moved {
        assert ThreadLocks(s, u);
        JobFramed(s, t, u, s.threads[u].pc);
      }
    }
  }

  lemma SameObjects(s: State, t: State, th: nat)
    requires t.core == s.core && t.loop == s.loop && t.history == s.history
    ensures Undisturbed(s, t, th)
  {
  }

  lemma ThreadsKeptLocally(s: State, a: Step)
    requires Inv(s) && Enabled(s, a) && IsLocal(a)
    ensures ThreadsOk(Next(s, a))
  {
    var t := Next(s, a);
    LocalChangesOnlyItself(s, a);
    forall u | u in s.threads
      ensures Undisturbed(s, t, u)
    {
      SameObjects(s, t, u);
    }
    NewPlaceLocally(s, a);
    ThreadsFramed(s, t, {a.th});
  }

  lemma NewPlaceInSentence(s: State, a: Step)
    requires Enabled(s, a) && (a.WordsDone? || a.IsAsync? || a.LockWriter?) && JobOk(s, a.th, At(s, a.th))
    ensures JobOk(Next(s, a), a.th, Next(s, a).threads[a.th].pc)
  {
    assert Next(s, a).core == s.core;
    var pc := At(s, a.th);
    match a
    case WordsDone(_) =>
      if pc.job.flavour.CancelCall? { assert HasId(s, pc.job); }
    case IsAsync(_) =>
    case LockWriter(_) =>
  }

  lemma NewPlaceOfWaiting(s: State, a: Step)
    requires Enabled(s, a) && (a.ContextDone? || a.ReturnReply? || a.ReturnDrained?) && JobOk(s, a.th, At(s, a.th))
    requires At(s, a.th).id < |s.core.heap| && EntryOk(s, At(s, a.th).id)
    ensures JobOk(Next(s, a), a.th, Next(s, a).threads[a.th].pc)
  {
    assert Next(s, a).core == s.core;
  }

  lemma NewPlaceLocally(s: State, a: Step)
    requires ThreadsOk(s) && EntriesOk(s) && Enabled(s, a) && IsLocal(a)
    ensures a.th in Next(s, a).threads
    ensures JobOk(Next(s, a), a.th, Next(s, a).threads[a.th].pc)
  {
    if a.WordsDone? || a.IsAsync? || a.LockWriter? {
      assert JobOk(s, a.th, At(s, a.th));
      NewPlaceInSentence(s, a);
    } else if a.ContextDone? || a.ReturnReply? || a.ReturnDrained? {
      assert JobOk(s, a.th, At(s, a.th));
      NewPlaceOfWaiting(s, a);
    } else {
      hide EntriesOk, ThreadsOk;
    }
  }

  lemma ThreadsKeptByWrite(s: State, a: Step)
    requires Inv(s) && Enabled(s, a) && a.WriteWord?
    ensures ThreadsOk(Next(s, a))
  {
    var t := Next(s, a);
    assert JobOk(s, a.th, At(s, a.th));
    forall u | u in s.threads
      ensures Undisturbed(s, t, u)
    {
      SameObjects(s, t, u);
    }
    ThreadsFramed(s, t, {a.th});
  }

  lemma NumberFrames(s: State, t: State, k: Kind, owner: nat, th: nat)
    requires t.core == Issue(s.core, k, owner) && t.loop == s.loop && t.history == s.history
    ensures Undisturbed(s, t, th)
  {
  }

  lemma NewPlaceByNumber(s: State, a: Step)
    requires Inv(s) && Enabled(s, a) && a.Number?
    ensures JobOk(Next(s, a), a.th, Next(s, a).threads[a.th].pc)
  {
    assert JobOk(s, a.th, At(s, a.th));
    match At(s, a.th).job.flavour
    case RunCall =>
    case ListenCall(_) =>
    case CancelCall(_, _) =>
  }

  lemma ThreadsKeptByNumber(s: State, a: Step)
    requires Inv(s) && Enabled(s, a) && a.Number?
    ensures ThreadsOk(Next(s, a))
  {
    var t := Next(s, a);
    assert t.core == Issue(s.core, KindOf(At(s, a.th).job.flavour), a.th) && t.loop == s.loop;
    forall u | u in s.threads && u != a.th
      ensures Undisturbed(s, t, u)
    {
      NumberFrames(s, t, KindOf(At(s, a.th).job.flavour), a.th, u);
    }
    NewPlaceByNumber(s, a);
    ThreadsFramed(s, t, {a.th});
  }

  lemma RegisterFrames(s: State, t: State, id: nat, stop: Chan, th: nat)
    requires id < |s.core.heap| && s.core.tags.Some? && TagsOk(s.core) && EntriesOk(s)
    requires s.core.heap[id].phase.New? && s.core.heap[id].owner != th
    requires t.core == Register(s.core, id, |s.history|, stop) && t.loop == s.loop && t.history == s.history
    ensures Undisturbed(s, t, th)
  {
    forall i | 0 <= i < |s.core.heap| && Settled(s, i)
      ensures Settled(t, i)
    {
      if s.core.heap[i].tag == s.core.heap[id].tag {
        DistinctTags(s, i, id);
      }
    }
  }

  lemma DistinctTags(s: State, i: nat, j: nat)
    requires EntriesOk(s) && i < |s.core.heap| && j < |s.core.heap|
    requires s.core.heap[i].tag == s.core.heap[j].tag
    ensures i == j
  {
    assert EntryOk(s, i) && EntryOk(s, j);
    TagNameInjective(s.core.heap[i].kind, i + 1, s.core.heap[j].kind, j + 1);
  }

  lemma ThreadsKeptByLock(s: State, a: Step)
    requires Inv(s) && Enabled(s, a) && a.LockTags?
    ensures ThreadsOk(Next(s, a))
  {
    hide WireOk, FlushedOk, StreamsOk;
    assert JobOk(s, a.th, At(s, a.th));
    var t := DoLockTags(s, a.th);
    assert Next(s, a) == t;
    hide Next, Enabled;
    forall u | u in s.threads && u != a.th
      ensures Undisturbed(s, t, u)
    {
      if t.core == s.core {
        SameObjects(s, t, u);
      } else {
        RegisterFrames(s, t, At(s, a.th).job.id.value, NilChan, u);
      }
    }
    NewPlaceByLock(s, a.th);
    ThreadsFramed(s, t, {a.th});
  }

  lemma NewPlaceByLock(s: State, th: nat)
    requires Enabled(s, LockTags(th)) && JobOk(s, th, At(s, th)) && LoopOk(s) && EntriesOk(s)
    ensures JobOk(DoLockTags(s, th), th, DoLockTags(s, th).threads[th].pc)
  {
    var j := At(s, th).job;
    NotBusyWithNew(s, j.id.value);
    hide LoopOk, EntriesOk;
    match j.flavour
    case RunCall =>
    case ListenCall(_) =>
    case CancelCall(_, _) =>
  }

  lemma NotBusyWithNew(s: State, id: nat)
    requires LoopOk(s) && EntriesOk(s) && id < |s.core.heap| && s.core.heap[id].phase.New?
    ensures BusyWith(s.loop) != Some(id)
  {
    assert EntryOk(s, id);
  }

  lemma FlushFrames(s: State, t: State, id: nat, th: nat)
    requires id < |s.core.heap| && s.core.heap[id].owner != th
    requires t.core == s.core || t.core == MarkFlushed(s.core, id)
    requires t.loop == s.loop && t.history == s.history
    ensures Undisturbed(s, t, th)
  {
  }

  lemma NewPlaceAtEnd(s: State, th: nat, fault: Option<nat>, flushFails: bool)
    requires Enabled(s, EndSentence(th, fault, flushFails)) && JobOk(s, th, At(s, th))
    ensures var t := DoEnd(s, th, fault, flushFails); JobOk(t, th, t.threads[th].pc)
  {
    hide WriteBytes;
    match At(s, th).job.flavour
    case RunCall =>
    case ListenCall(_) =>
    case CancelCall(_, _) =>
  }

  lemma ThreadsKeptAtEnd(s: State, a: Step)
    requires Inv(s) && Enabled(s, a) && a.EndSentence?
    ensures ThreadsOk(Next(s, a))
  {
    hide WireOk, FlushedOk, StreamsOk, EntriesOk, TagsOk, LoopOk, Next, Enabled, DoEnd, MarkFlushed;
    EndIs(s, a);
    assert JobOk(s, a.th, At(s, a.th));
    NewPlaceAtEnd(s, a.th, a.fault, a.flushFails);
    EndShape(s, a.th, a.fault, a.flushFails);
    var t := DoEnd(s, a.th, a.fault, a.flushFails);
    var id := At(s, a.th).job.id.value;
    assert id < |s.core.heap| && s.core.heap[id].owner == a.th;
    hide JobOk;
    forall u | u in s.threads && u != a.th
      ensures Undisturbed(s, t, u)
    {
      FlushFrames(s, t, id, u);
    }
    ThreadsFramed(s, t, {a.th});
  }

  /** Only one goroutine is inside the critical section. */
  lemma AloneInSection(s: State, th: nat, u: nat)
    requires LocksAgree(s) && th in s.threads && HoldsState(At(s, th)) && u in s.threads && u != th
    ensures s.stateMu == Held(th) && s.stateMu != Held(u)
  {
    assert ThreadLocks(s, th);
  }

  lemma UnlockFrames(s: State, t: State, id: nat, th: nat)
    requires TagsOk(s.core) && id < |s.core.heap| && t.loop == s.loop && t.history == s.history
    requires s.core.heap[id].owner != th && s.core.heap[id].kind == RunKind && s.core.heap[id].phase.Live?
    requires t.core == s.core || t.core == Withdraw(s.core, id)
    requires s.stateMu != Held(th)
    ensures Undisturbed(s, t, th)
  {
  }

  lemma ThreadsKeptByUnlock(s: State, a: Step)
    requires Inv(s) && Enabled(s, a) && a.UnlockRun?
    ensures ThreadsOk(Next(s, a))
  {
    hide WireOk, FlushedOk, StreamsOk, EntriesOk, LoopOk;
    var t := DoUnlockRun(s, a.th);
    assert Next(s, a) == t && JobOk(s, a.th, At(s, a.th)) && HoldsState(At(s, a.th));
    var id := At(s, a.th).job.id.value;
    hide Next, Enabled;
    assert t.core == s.core || t.core == Withdraw(s.core, id);
    forall u | u in s.threads && u != a.th
      ensures Undisturbed(s, t, u)
    {
      AloneInSection(s, a.th, u);
      UnlockFrames(s, t, id, u);
    }
    assert JobOk(t, a.th, t.threads[a.th].pc);
    ThreadsFramed(s, t, {a.th});
  }

  lemma ThreadsKeptByRegister(s: State, a: Step)
    requires Inv(s) && Enabled(s, a) && a.RegisterListen?
    ensures ThreadsOk(Next(s, a))
  {
    hide WireOk, FlushedOk, StreamsOk;
    var t := DoRegisterListen(s, a.th, a.watcher);
    var j := At(s, a.th).job;
    assert Next(s, a) == t && JobOk(s, a.th, At(s, a.th)) && a.watcher !in s.threads;
    NewPlacesByRegister(s, a.th, a.watcher);
    hide Next, Enabled;
    forall u | u in s.threads && u != a.th
      ensures Undisturbed(s, t, u)
    {
      if t.core == s.core {
        SameObjects(s, t, u);
      } else {
        RegisterFrames(s, t, j.id.value, if j.flavour.hasContext then OpenChan else NilChan, u);
      }
    }
    ThreadsFramed(s, t, {a.th, a.watcher});
  }

  lemma NewPlacesByRegister(s: State, th: nat, watcher: nat)
    requires Enabled(s, RegisterListen(th, watcher)) && JobOk(s, th, At(s, th))
    ensures var t := DoRegisterListen(s, th, watcher);
            forall u :: u in t.threads && u in {th, watcher} ==> JobOk(t, u, t.threads[u].pc)
  {
  }

  // ----- goroutines while the loop moves -----

  lemma ProcessFrames(s: State, th: nat)
    requires Inv(s) && Enabled(s, Process)
    ensures Undisturbed(s, Next(s, Process), th)
  {
    hide WireOk, FlushedOk, StreamsOk, ThreadsOk, LocksAgree, EntriesOk;
  }

  lemma DeleteFrames(s: State, th: nat)
    requires Inv(s) && Enabled(s, Delete)
    ensures Undisturbed(s, Next(s, Delete), th)
  {
  }

  lemma CloseFrames(s: State, th: nat)
    requires Inv(s) && Enabled(s, CloseDone)
    ensures Undisturbed(s, Next(s, CloseDone), th)
  {
    hide WireOk, FlushedOk, StreamsOk, ThreadsOk, LocksAgree;
    assert EntryOk(s, s.loop.id);
  }

  lemma LoopEndFrames(s: State, th: nat)
    requires Inv(s) && Enabled(s, LoopEnds)
    ensures Undisturbed(s, Next(s, LoopEnds), th)
  {
    var t := Next(s, LoopEnds);
    forall id | 0 <= id < |s.core.heap|
      ensures EntryFramed(s.core.heap[id], t.core.heap[id], th)
    {
      assert EntryOk(s, id);
    }
  }

  lemma ThreadsKeptByLoop(s: State, a: Step)
    requires Inv(s) && Enabled(s, a) && Actor(a).None?
    ensures ThreadsOk(Next(s, a))
  {
    hide StreamsOk, WireOk, FlushedOk, EntriesOk;
    var t := Next(s, a);
    LocksKeptByLoop(s, a);
    forall u | u in s.threads
      ensures Undisturbed(s, t, u)
    {
      match a
      case Process => ProcessFrames(s, u);
      case Delete => DeleteFrames(s, u);
      case CloseDone => CloseFrames(s, u);
      case LoopEnds => LoopEndFrames(s, u);
      case LookUp =>
      case _ =>
    }
    ThreadsFramed(s, t, {});
  }

  lemma ThreadsKept(s: State, a: Step)
    requires Inv(s) && Enabled(s, a)
    ensures ThreadsOk(Next(s, a))
  {
    if IsLocal(a) {
      ThreadsKeptLocally(s, a);
    } else if Actor(a).None? {
      ThreadsKeptByLoop(s, a);
    } else {
      ThreadsKeptInCalls(s, a);
    }
  }

  lemma ThreadsKeptInCalls(s: State, a: Step)
    requires Inv(s) && Enabled(s, a) && Actor(a).Some? && !IsLocal(a)
    ensures ThreadsOk(Next(s, a))
  {
    if a.WriteWord? {
      ThreadsKeptByWrite(s, a);
    } else if a.Number? {
      ThreadsKeptByNumber(s, a);
    } else if a.LockTags? {
      ThreadsKeptByLock(s, a);
    } else if a.EndSentence? {
      ThreadsKeptAtEnd(s, a);
    } else if a.UnlockRun? {
      ThreadsKeptByUnlock(s, a);
    } else {
      ThreadsKeptByRegister(s, a);
    }
  }
}
