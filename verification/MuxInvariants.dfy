/** What every step of the multiplexer keeps. Each invariant is a predicate of its own; the
    theorems about whole runs are in `MuxTheorems`. */
module MuxInvariants {
  import opened Protocol
  import opened Tags
  import opened Codec
  import opened Multiplexer

  // ----- locks -----

  /** The four mutexes are held by exactly the goroutines whose code is between lock and unlock, and
      only the writer can be left locked by a call that is gone. */
  ghost predicate LocksAgree(s: State) {
    && (forall th :: th in s.threads ==> ThreadLocks(s, th))
    && OwnerRuns(s, s.stateMu) && OwnerRuns(s, s.initMu) && OwnerRuns(s, s.probeMu)
    && (s.writerMu.Held? ==> s.writerMu.th in s.threads)
  }

  ghost predicate OwnerRuns(s: State, o: Owner) {
    o.Free? || (o.Held? && o.th in s.threads)
  }

  ghost predicate ThreadLocks(s: State, th: nat)
    requires th in s.threads
  {
    var t := s.threads[th];
    && (HoldsWriter(t.pc) <==> s.writerMu == Held(th))
    && (HoldsState(t.pc) <==> s.stateMu == Held(th))
    && (InitLock in t.outer <==> s.initMu == Held(th))
    && (ProbeLock in t.outer <==> s.probeMu == Held(th))
    && t.outer <= {InitLock, ProbeLock}
    && (t.pc.WantInit? ==> t.outer == {})
    && (t.pc.WantProbe? ==> ProbeLock !in t.outer)
  }

  // ----- reply objects -----

  ghost predicate Started(p: Phase) {
    p.Live? || p.Removed? || p.Closed?
  }

  ghost predicate IsStream(c: Core, id: nat, k: Kind) {
    id < |c.heap| && c.heap[id].kind == k && Started(c.heap[id].phase)
  }

  ghost predicate IsOwnRun(c: Core, id: nat, th: nat) {
    IsStream(c, id, RunKind) && c.heap[id].owner == th
  }

  /** The object of a call that has its number but is not registered yet. */
  ghost predicate Fresh(s: State, th: nat, j: Job) {
    && HasId(s, j)
    && var e := s.core.heap[j.id.value];
       && e.phase.New? && e.owner == th && e.kind == KindOf(j.flavour)
       && j.words != [] && j.words[|j.words| - 1] == TagWord(e.tag)
  }

  /** The object of a call that has been registered. */
  ghost predicate Joined(s: State, th: nat, j: Job) {
    && HasId(s, j)
    && var e := s.core.heap[j.id.value];
       && Started(e.phase) && e.owner == th && e.kind == KindOf(j.flavour)
       && j.words != [] && j.words[|j.words| - 1] == TagWord(e.tag)
  }

  /** A run between registration and unlock: nobody else has seen its entry, and no sentence has been
      looked up since it registered. */
  ghost predicate JustRegistered(s: State, th: nat, j: Job) {
    && j.flavour.RunCall? && Joined(s, th, j)
    && s.core.heap[j.id.value].phase.Live? && InTags(s.core, j.id.value)
    && BusyWith(s.loop) != Some(j.id.value)
    && s.core.heap[j.id.value].birth == |s.history|
  }

  function BusyWith(l: Loop): Option<nat> {
    match l
    case Found(_, id) => Some(id)
    case ToDelete(_, id, _) => Some(id)
    case ToClose(id, _) => Some(id)
    case _ => None
  }

  /** A run is cancelled by the goroutine that issued it, a listener by its watcher, and the words
      name that stream. */
  ghost predicate TargetOk(s: State, th: nat, j: Job) {
    j.flavour.CancelCall? ==>
      && (if j.flavour.forRun then IsOwnRun(s.core, j.flavour.target, th)
          else IsStream(s.core, j.flavour.target, ListenKind))
      && (HasId(s, j) ==> j.words == CancelWords(s.core.heap[j.flavour.target].tag, s.core.heap[j.id.value].tag))
  }

  ghost predicate JobOk(s: State, th: nat, pc: PC) {
    match pc
    case WantWriter(j) =>
      && TargetOk(s, th, j)
      && (if j.flavour.RunCall? then j.id.None?
          else if j.flavour.ListenCall? then Fresh(s, th, j) && !s.core.heap[j.id.value].flushed
          else Joined(s, th, j) && !s.core.heap[j.id.value].flushed)
    case Writing(j, k) =>
      && TargetOk(s, th, j) && k <= |j.words|
      && (if j.flavour.RunCall? && j.id.None? then true
          else if j.flavour.CancelCall? then Joined(s, th, j) && !s.core.heap[j.id.value].flushed
          else Fresh(s, th, j) && !s.core.heap[j.id.value].flushed)
    case WantIsAsync(j) => j.flavour.RunCall? && j.id.None?
    case Numbering(j) => TargetOk(s, th, j) && j.id.None?
    case WantTags(j) => TargetOk(s, th, j) && Fresh(s, th, j) && !s.core.heap[j.id.value].flushed
    case Ending(j) =>
      && TargetOk(s, th, j) && HasId(s, j) && !s.core.heap[j.id.value].flushed
      && (if j.flavour.RunCall? then JustRegistered(s, th, j)
          else if j.flavour.ListenCall? then Fresh(s, th, j)
          else Joined(s, th, j))
    case ListenFlushed(j) => j.flavour.ListenCall? && Fresh(s, th, j) && s.core.heap[j.id.value].flushed
    case RunEnded(j, ok) => JustRegistered(s, th, j) && s.core.heap[j.id.value].flushed == ok
    case Waiting(id) => IsOwnRun(s.core, id, th)
    case Draining(id) => IsOwnRun(s.core, id, th)
    case Watching(id) => IsStream(s.core, id, ListenKind)
    case Returned(id, err) =>
      && IsOwnRun(s.core, id, th) && s.core.heap[id].phase.Closed?
      && (err.None? ==> s.core.heap[id].err.None?)
    case _ => true
  }

  ghost predicate ThreadsOk(s: State) {
    forall th :: th in s.threads ==> JobOk(s, th, s.threads[th].pc)
  }

  /** `c.tags` maps every tag in it to the object registered under that tag, and holds every
      registered object. */
  ghost predicate TagsOk(c: Core) {
    && !c.panicked
    && (c.tags.Some? ==>
          forall t :: t in c.tags.value ==>
            && c.tags.value[t] < |c.heap|
            && c.heap[c.tags.value[t]].tag == t
            && c.heap[c.tags.value[t]].phase.Live?)
    && (forall id :: 0 <= id < |c.heap| && c.heap[id].phase.Live? ==> InTags(c, id))
  }

  ghost predicate EntryOk(s: State, id: nat)
    requires id < |s.core.heap|
  {
    var e := s.core.heap[id];
    && e.tag == TagName(e.kind, id + 1)
    && !e.panicked
    && (e.body.ListenBody? <==> e.kind == ListenKind)
    && (e.phase.New? || e.phase.Withdrawn? ==> e.body == InitialBody(e.kind))
    && (e.phase.Withdrawn? ==> e.kind == RunKind && !e.flushed)
    && (e.phase.Closed? <==> e.reC == ClosedChan)
    && (!e.phase.Closed? ==> e.err.None?)
    && (e.phase.Removed? <==> s.loop.ToClose? && s.loop.id == id)
    && (e.phase.Live? && e.body.ListenBody? && !(s.loop.ToDelete? && s.loop.id == id) ==> e.body.stop != ClosedChan)
  }

  ghost predicate EntriesOk(s: State) {
    forall id :: 0 <= id < |s.core.heap| ==> EntryOk(s, id)
  }

  ghost predicate LoopOk(s: State) {
    && (s.loop.Found? || s.loop.ToDelete? ==>
          && s.loop.id < |s.core.heap|
          && s.core.heap[s.loop.id].phase.Live?
          && s.core.heap[s.loop.id].tag == s.loop.sen.tag)
    && (s.loop.Found? ==> |s.history| > 0 && s.history[|s.history| - 1] == s.loop.sen
                          && s.core.heap[s.loop.id].birth < |s.history|)
    && (s.loop.ToClose? ==> s.loop.id < |s.core.heap|)
    && (s.loop.Ended? <==> s.core.tags.None?)
  }

  /** Registered objects hold exactly the fold over their own sentences. */
  function Start(e: Entry): Body {
    match e.body
    case RunBody(_, _) => RunBody([], None)
    case ListenBody(_, _, stop) => ListenBody([], None, if stop == NilChan then NilChan else OpenChan)
  }

  function Processed(s: State, id: nat): seq<Sentence> {
    if s.loop.Found? && s.loop.id == id && s.history != [] then s.history[..|s.history| - 1] else s.history
  }

  function ResultOf(e: Entry, h: seq<Sentence>): Progress {
    Fold(Start(e), Mine(h, e.tag, e.birth))
  }

  ghost predicate StreamOk(s: State, id: nat)
    requires id < |s.core.heap|
  {
    var e := s.core.heap[id];
    var p := ResultOf(e, Processed(s, id));
    && e.birth <= |s.history|
    && e.body == p.body
    && (e.phase.Live? && !(s.loop.ToDelete? && s.loop.id == id) ==> p.Running?)
    && (s.loop.ToDelete? && s.loop.id == id ==> p == Finished(e.body, s.loop.err))
    && (s.loop.ToClose? && s.loop.id == id ==> p == Finished(e.body, s.loop.err))
    && (e.phase.Closed? ==>
          if p.Finished? then e.err == p.err
          else s.loop.Ended? && (e.err.None? ==> s.core.closing))
  }

  ghost predicate StreamsOk(s: State) {
    forall id :: 0 <= id < |s.core.heap| && Started(s.core.heap[id].phase) ==> StreamOk(s, id)
  }

  // ----- the wire -----

  /** The words the holder of the writer has given to it so far. */
  function WordsSoFar(pc: PC): seq<string> {
    match pc
    case Writing(j, k) => if k <= |j.words| then j.words[..k] else j.words
    case WantIsAsync(j) => j.words
    case Numbering(j) => j.words
    case WantTags(j) => j.words
    case Ending(j) => j.words
    case _ => []
  }

  ghost predicate WireOk(s: State) {
    && (!s.sink.failed ==> s.sink.out == EncodeAll(s.calls) + EncodeWords(s.open))
    && (s.sink.failed ==>
          && EncodeAll(s.calls) <= s.sink.out
          && s.sink.out <= EncodeAll(s.calls) + EncodeWords(s.open))
    && (!s.sink.failed && s.writerMu.Free? ==> s.open == [])
    && (!s.sink.failed && s.writerMu.Held? && s.writerMu.th in s.threads ==>
          s.open == WordsSoFar(s.threads[s.writerMu.th].pc))
  }

  // ----- replies to complete commands -----

  /** A tag that an honest device may use: none, or that of a command it has received whole. */
  ghost predicate Answerable(c: Core, tag: string) {
    tag == "" || exists id :: 0 <= id < |c.heap| && c.heap[id].tag == tag && c.heap[id].flushed
  }

  ghost predicate FlushedOk(s: State) {
    forall id :: 0 <= id < |s.core.heap| && s.core.heap[id].flushed && s.core.heap[id].phase.New? ==>
      s.core.tags.None? || RegistersNow(s, id)
  }

  ghost predicate RegistersNow(s: State, id: nat)
    requires id < |s.core.heap|
  {
    var th := s.core.heap[id].owner;
    th in s.threads && s.threads[th].pc.ListenFlushed? && s.threads[th].pc.job.id == Some(id)
  }

  ghost predicate NothingMissed(s: State) {
    && (s.loop.Got? ==> Answerable(s.core, s.loop.sen.tag))
    && (forall i :: 0 <= i < |s.history| ==> Answerable(s.core, s.history[i].tag))
    && (forall id, i :: 0 <= id < |s.core.heap| && 0 <= i < |s.history| && Unseen(s.core.heap[id], i) ==>
          s.history[i].tag != s.core.heap[id].tag)
  }

  ghost predicate Unseen(e: Entry, i: nat) {
    !Started(e.phase) || i < e.birth
  }

  // ----- together -----

  ghost predicate Inv(s: State) {
    && LocksAgree(s) && ThreadsOk(s) && TagsOk(s.core) && EntriesOk(s) && LoopOk(s) && StreamsOk(s)
    && WireOk(s) && FlushedOk(s)
  }

  lemma InitialInv()
    ensures Inv(Initial()) && NothingMissed(Initial())
  {
    assert EncodeAll([]) + EncodeWords([]) == [];
  }
}
