/** The tagged request multiplexer: every step that the reader goroutine, the callers of `Run` and
    `Listen`, the cancelling goroutines and `Close` can take, interleaved in any order.

    Sources: async.go, run.go, listen.go, cancel.go, chan_reply.go, client.go, proto/writer.go.
    A step is one access to shared state, or one critical section of `c.mu` up to the point where
    another goroutine could see it. A step that would block is not enabled. The machine starts
    where `AsyncContext` has just started the loop. */
module Multiplexer {
  import opened Protocol
  import opened Tags
  import opened Codec

  // ----- reply objects and the fields of Client that `c.mu` guards -----

  /** Life of a reply object: created, registered in `c.tags`, withdrawn by its own caller, taken
      out of `c.tags` by the loop, closed. */
  datatype Phase = New | Live | Withdrawn | Removed | Closed

  /** An `asyncReply` or `ListenReply`. `owner` is the goroutine that created it and `birth` the
      number of sentences the loop had looked up when it was registered; `flushed` says that its
      command is on the wire as a whole. `panicked` records a step that panics in Go: closing a
      closed channel or sending on one. */
  datatype Entry = Entry(
    kind: Kind, tag: string, body: Body, err: Option<Error>, reC: Chan,
    phase: Phase, owner: nat, birth: nat, flushed: bool, panicked: bool)

  /** `tags` is `c.tags`, nil once the loop has ended; `heap[n - 1]` is the object created for the
      counter value `n`, so that |heap| is `nextTag`. */
  datatype Core = Core(tags: Option<map<string, nat>>, heap: seq<Entry>, closing: bool, panicked: bool)

  function InitialBody(k: Kind): Body {
    if k == ListenKind then ListenBody([], None, NilChan) else RunBody([], None)
  }

  function NewEntry(k: Kind, n: nat, owner: nat): Entry {
    Entry(k, TagName(k, n), InitialBody(k), None, OpenChan, New, owner, 0, false, false)
  }

  function Put(c: Core, id: nat, e: Entry): Core
    requires id < |c.heap|
  {
    c.(heap := c.heap[id := e])
  }

  /** `incrementTag` and the creation of the reply object. */
  function Issue(c: Core, k: Kind, owner: nat): Core {
    c.(heap := c.heap + [NewEntry(k, |c.heap| + 1, owner)])
  }

  /** `c.tags[tag] = a`; on a nil map Go panics. A listener with a context also gets its `stop`
      channel in this critical section. */
  function Register(c: Core, id: nat, birth: nat, stop: Chan): Core
    requires id < |c.heap|
  {
    match c.tags
    case None => c.(panicked := true)
    case Some(m) =>
      var e := c.heap[id];
      var b := if e.body.ListenBody? then e.body.(stop := stop) else e.body;
      Put(c, id, e.(phase := Live, birth := birth, body := b)).(tags := Some(m[e.tag := id]))
  }

  function Unmap(c: Core, tag: string): Core {
    match c.tags
    case None => c
    case Some(m) => c.(tags := Some(m - {tag}))
  }

  /** The failing branch of `EndSentence` in `RunArgsContext`. */
  function Withdraw(c: Core, id: nat): Core
    requires id < |c.heap|
  {
    Put(Unmap(c, c.heap[id].tag), id, c.heap[id].(phase := Withdrawn))
  }

  function MarkFlushed(c: Core, id: nat): Core
    requires id < |c.heap|
  {
    Put(c, id, c.heap[id].(flushed := true))
  }

  /** `processSentence` panics when it sends on a closed channel or closes `stop` twice. */
  predicate ProcessPanics(e: Entry, sen: Sentence) {
    e.body.ListenBody? &&
    ((sen.word == RE && e.reC == ClosedChan) ||
     (VerdictOf(e.body, sen).Ends() && e.body.stop == ClosedChan))
  }

  function ProcessEntry(e: Entry, sen: Sentence): Entry {
    e.(body := Absorb(e.body, sen), panicked := e.panicked || ProcessPanics(e, sen))
  }

  /** `chanReply.close`: the first error is kept, the channel closed. */
  function CloseReply(e: Entry, err: Option<Error>): Entry {
    e.(err := if e.err.None? then err else e.err,
       reC := ClosedChan,
       panicked := e.panicked || e.reC == ClosedChan,
       phase := Closed)
  }

  predicate InTags(c: Core, id: nat)
    requires id < |c.heap|
  {
    c.tags.Some? && c.heap[id].tag in c.tags.value && c.tags.value[c.heap[id].tag] == id
  }

  /** What `closeTags` reports to the pending calls. */
  function ClosingError(c: Core, err: Error): Option<Error> {
    if c.closing then None else Some(err)
  }

  function CloseHeap(c: Core, err: Option<Error>): (h: seq<Entry>)
    ensures |h| == |c.heap|
    ensures forall i :: 0 <= i < |h| ==> h[i] == if InTags(c, i) then CloseReply(c.heap[i], err) else c.heap[i]
  {
    seq(|c.heap|, i requires 0 <= i < |c.heap| => if InTags(c, i) then CloseReply(c.heap[i], err) else c.heap[i])
  }

  /** `closeTags`: every registered reply is closed and the map becomes nil for good. */
  function CloseTags(c: Core, err: Error): Core {
    c.(heap := CloseHeap(c, ClosingError(c, err)), tags := None)
  }

  // ----- the writer -----

  /** What the buffered writer has accepted, and its sticky error. */
  datatype Sink = Sink(out: string, failed: bool)

  /** `writer.write`: nothing once an error has happened; a failing write may have accepted some
      first bytes. */
  function WriteBytes(s: Sink, b: string, fault: Option<nat>): Sink {
    if s.failed then s
    else
      match fault
      case None => Sink(s.out + b, false)
      case Some(n) => Sink(s.out + (if n <= |b| then b[..n] else b), true)
  }

  // ----- goroutines -----

  datatype Lock = InitLock | ProbeLock | WriterLock | StateLock

  /** Locks are taken in this order. Of initMu only `ensureRun` is modelled, which takes it first of all
      (orchestrate.go:18-20); `Facade` follows its calls from there to the probes. */
  function Level(l: Lock): nat {
    match l
    case InitLock => 0
    case ProbeLock => 1
    case WriterLock => 2
    case StateLock => 3
  }

  /** `Orphaned` is a mutex left locked by a call that has returned. */
  datatype Owner = Free | Held(th: nat) | Orphaned

  /** Which code a goroutine runs; `target` is the stream that a `/cancel` names and `forRun` tells
      the caller of `RunArgsContext` from the goroutine of a listener. */
  datatype Flavour = RunCall | ListenCall(hasContext: bool) | CancelCall(target: nat, forRun: bool)

  function KindOf(f: Flavour): Kind {
    match f
    case RunCall => RunKind
    case ListenCall(_) => ListenKind
    case CancelCall(_, _) => CancelKind
  }

  datatype Job = Job(flavour: Flavour, words: seq<string>, id: Option<nat>)

  datatype PC =
    | Idle
    | WantInit
    | WantProbe
    | WantRunState
    | WantWriter(job: Job)
    | Writing(job: Job, k: nat)
    | WantIsAsync(job: Job)
    | Numbering(job: Job)
    | WantTags(job: Job)
    | Ending(job: Job)
    | ListenFlushed(job: Job)
    | RunEnded(job: Job, ok: bool)
    | Waiting(id: nat)
    | Draining(id: nat)
    | Watching(id: nat)
    | Returned(id: nat, err: Option<Error>)

  /** A goroutine; `outer` are the facade mutexes it holds around its calls
      (client_transport.go:64-71, orchestrate.go:18-30). */
  datatype Thread = Thread(pc: PC, outer: set<Lock>)

  /** The reader goroutine (async.go:54-87). */
  datatype Loop =
    | Reading
    | Got(sen: Sentence)
    | Found(sen: Sentence, id: nat)
    | ToDelete(sen: Sentence, id: nat, err: Option<Error>)
    | ToClose(id: nat, err: Option<Error>)
    | Failing(cause: Error)
    | Ended

  /** `history` are the sentences the loop has looked up, `calls` the word lists whose
      `EndSentence` returned nil, `open` the words given to the writer since then. */
  datatype State = State(
    core: Core, sink: Sink, stateMu: Owner, writerMu: Owner, initMu: Owner, probeMu: Owner,
    threads: map<nat, Thread>, loop: Loop,
    history: seq<Sentence>, calls: seq<seq<string>>, open: seq<string>)

  function Initial(): State {
    State(Core(Some(map[]), [], false, false), Sink([], false), Free, Free, Free, Free,
          map[], Reading, [], [], [])
  }

  predicate HoldsWriter(pc: PC) {
    match pc
    case Writing(_, _) => true
    case WantIsAsync(_) => true
    case Numbering(j) => j.flavour.RunCall?
    case WantTags(j) => !j.flavour.CancelCall?
    case Ending(_) => true
    case _ => false
  }

  predicate HoldsState(pc: PC) {
    match pc
    case Ending(j) => !j.flavour.CancelCall?
    case ListenFlushed(_) => true
    case RunEnded(_, _) => true
    case _ => false
  }

  function Wants(pc: PC): Option<Lock> {
    match pc
    case WantInit => Some(InitLock)
    case WantProbe => Some(ProbeLock)
    case WantRunState => Some(StateLock)
    case WantWriter(_) => Some(WriterLock)
    case WantIsAsync(_) => Some(StateLock)
    case WantTags(_) => Some(StateLock)
    case _ => None
  }

  function Holds(t: Thread): set<Lock> {
    t.outer
    + (if HoldsWriter(t.pc) then {WriterLock} else {})
    + (if HoldsState(t.pc) then {StateLock} else {})
  }

  function OwnerOf(s: State, l: Lock): Owner {
    match l
    case InitLock => s.initMu
    case ProbeLock => s.probeMu
    case WriterLock => s.writerMu
    case StateLock => s.stateMu
  }

  function TagWord(tag: string): string {
    TAG_PREFIX + tag
  }

  /** The words of `/cancel =tag=<target> .tag=<own>` (cancel.go:27-29). */
  function CancelWords(target: string, own: string): seq<string> {
    ["/cancel", "=tag=" + target, TagWord(own)]
  }

  // ----- steps -----

  datatype Step =
    | Spawn(th: nat)
    | CallRun(th: nat, words: seq<string>)
    | CallListen(th: nat, words: seq<string>, hasContext: bool)
    | AskInit(th: nat)
    | AskProbe(th: nat)
    | AskRunState(th: nat)
    | TakeInit(th: nat)
    | TakeProbe(th: nat)
    | TakeRunState(th: nat)
    | DropInit(th: nat)
    | DropProbe(th: nat)
    | LockWriter(th: nat)
    | WriteWord(th: nat, fault: Option<nat>)
    | WordsDone(th: nat)
    | IsAsync(th: nat)
    | Number(th: nat)
    | LockTags(th: nat)
    | EndSentence(th: nat, fault: Option<nat>, flushFails: bool)
    | UnlockRun(th: nat)
    | RegisterListen(th: nat, watcher: nat)
    | ReturnReply(th: nat)
    | ContextDone(th: nat)
    | ReturnDrained(th: nat)
    | StopWatching(th: nat)
    | Resume(th: nat)
    | Read(sen: Sentence)
    | ReadFails(err: Error)
    | LookUp
    | Process
    | Delete
    | CloseDone
    | LoopEnds
    | CloseClient

  function At(s: State, th: nat): PC
    requires th in s.threads
  {
    s.threads[th].pc
  }

  function Move(s: State, th: nat, pc: PC): State
    requires th in s.threads
  {
    s.(threads := s.threads[th := s.threads[th].(pc := pc)])
  }

  predicate HasId(s: State, j: Job) {
    j.id.Some? && j.id.value < |s.core.heap|
  }

  predicate Enabled(s: State, a: Step) {
    match a
    case Spawn(th) => th !in s.threads
    case CallRun(th, _) => th in s.threads && At(s, th).Idle?
    case CallListen(th, _, _) => th in s.threads && At(s, th).Idle?
    case AskInit(th) => th in s.threads && At(s, th).Idle? && s.threads[th].outer == {}
    case AskProbe(th) => th in s.threads && At(s, th).Idle? && ProbeLock !in s.threads[th].outer
    case AskRunState(th) => th in s.threads && At(s, th).Idle?
    case TakeInit(th) => th in s.threads && At(s, th).WantInit? && s.initMu.Free?
    case TakeProbe(th) => th in s.threads && At(s, th).WantProbe? && s.probeMu.Free?
    case TakeRunState(th) => th in s.threads && At(s, th).WantRunState? && s.stateMu.Free?
    case DropInit(th) => th in s.threads && At(s, th).Idle? && s.threads[th].outer == {InitLock}
    case DropProbe(th) => th in s.threads && At(s, th).Idle? && ProbeLock in s.threads[th].outer
    case LockWriter(th) => th in s.threads && At(s, th).WantWriter? && s.writerMu.Free?
    case WriteWord(th, _) => th in s.threads && At(s, th).Writing? && At(s, th).k < |At(s, th).job.words|
    case WordsDone(th) => th in s.threads && At(s, th).Writing? && At(s, th).k == |At(s, th).job.words|
    case IsAsync(th) => th in s.threads && At(s, th).WantIsAsync? && s.stateMu.Free?
    case Number(th) =>
      && th in s.threads && At(s, th).Numbering?
      && (At(s, th).job.flavour.CancelCall? ==> At(s, th).job.flavour.target < |s.core.heap|)
    case LockTags(th) =>
      && th in s.threads && At(s, th).WantTags? && s.stateMu.Free?
      && HasId(s, At(s, th).job)
    case EndSentence(th, _, _) => th in s.threads && At(s, th).Ending? && HasId(s, At(s, th).job)
    case UnlockRun(th) => th in s.threads && At(s, th).RunEnded? && HasId(s, At(s, th).job)
    case RegisterListen(th, w) =>
      th in s.threads && At(s, th).ListenFlushed? && HasId(s, At(s, th).job) && w !in s.threads
    case ReturnReply(th) =>
      && th in s.threads && At(s, th).Waiting?
      && At(s, th).id < |s.core.heap| && s.core.heap[At(s, th).id].reC == ClosedChan
    case ContextDone(th) => th in s.threads && (At(s, th).Waiting? || At(s, th).Watching?)
    case ReturnDrained(th) =>
      && th in s.threads && At(s, th).Draining?
      && At(s, th).id < |s.core.heap| && s.core.heap[At(s, th).id].reC == ClosedChan
    case StopWatching(th) =>
      && th in s.threads && At(s, th).Watching? && At(s, th).id < |s.core.heap|
      && s.core.heap[At(s, th).id].body.ListenBody? && s.core.heap[At(s, th).id].body.stop == ClosedChan
    case Resume(th) => th in s.threads && At(s, th).Returned?
    case Read(_) => s.loop.Reading?
    case ReadFails(_) => s.loop.Reading?
    case LookUp => s.loop.Got? && s.stateMu.Free?
    case Process => s.loop.Found? && s.loop.id < |s.core.heap|
    case Delete => s.loop.ToDelete? && s.stateMu.Free? && s.loop.id < |s.core.heap|
    case CloseDone => s.loop.ToClose? && s.loop.id < |s.core.heap|
    case LoopEnds => s.loop.Failing? && s.stateMu.Free?
    case CloseClient => s.stateMu.Free?
  }

  /** One word of the open sentence. */
  function DoWrite(s: State, th: nat, fault: Option<nat>): State
    requires Enabled(s, WriteWord(th, fault))
  {
    var pc := At(s, th);
    var w := pc.job.words[pc.k];
    Move(s, th, Writing(pc.job, pc.k + 1))
      .(sink := WriteBytes(s.sink, EncodeWord(w), fault),
        open := if s.sink.failed then s.open else s.open + [w])
  }

  /** After the words: a run asks `IsAsync` before it gets its tag, and everyone else goes on to
      the tag map or, for a cancel, to `EndSentence`. */
  function DoWordsDone(s: State, th: nat): State
    requires Enabled(s, WordsDone(th))
  {
    var j := At(s, th).job;
    Move(s, th,
         if j.flavour.RunCall? && j.id.None? then WantIsAsync(j)
         else if j.flavour.CancelCall? then Ending(j)
         else WantTags(j))
  }

  /** `incrementTag`. A run holds the writer here and still has its tag word to write. */
  function DoNumber(s: State, th: nat): State
    requires Enabled(s, Number(th))
  {
    var j := At(s, th).job;
    var k := KindOf(j.flavour);
    var id := |s.core.heap|;
    var own := TagName(k, id + 1);
    var words :=
      if j.flavour.CancelCall? then CancelWords(s.core.heap[j.flavour.target].tag, own)
      else j.words + [TagWord(own)];
    var next := Job(j.flavour, words, Some(id));
    Move(s, th,
         match j.flavour
         case RunCall => Writing(next, |j.words|)
         case ListenCall(_) => WantWriter(next)
         case CancelCall(_, _) => WantTags(next))
      .(core := Issue(s.core, k, th))
  }

  function AfterCancel(j: Job): PC
    requires j.flavour.CancelCall?
  {
    if j.flavour.forRun then Draining(j.flavour.target) else Idle
  }

  /** The critical section on the tag map opens (run.go:53-58, listen.go:93, cancel.go:18-24). A run
      that finds no map returns without giving the writer back. */
  function DoLockTags(s: State, th: nat): State
    requires Enabled(s, LockTags(th))
  {
    var j := At(s, th).job;
    match j.flavour
    case RunCall =>
      if s.core.tags.None? then Move(s, th, Idle).(writerMu := Orphaned)
      else Move(s, th, Ending(j)).(core := Register(s.core, j.id.value, |s.history|, NilChan), stateMu := Held(th))
    case ListenCall(_) => Move(s, th, Ending(j)).(stateMu := Held(th))
    case CancelCall(_, _) =>
      if s.core.tags.None? then Move(s, th, AfterCancel(j))
      else Move(s, th, WantWriter(j)).(core := Register(s.core, j.id.value, |s.history|, NilChan))
  }

  /** `EndSentence`: the empty word, the flush, the result of the sticky error, the unlock. */
  function DoEnd(s: State, th: nat, fault: Option<nat>, flushFails: bool): State
    requires Enabled(s, EndSentence(th, fault, flushFails))
  {
    var j := At(s, th).job;
    var written := WriteBytes(s.sink, EncodeWord(""), fault);
    var sink := written.(failed := written.failed || flushFails);
    var s' := s.(sink := sink, writerMu := Free,
                 core := if sink.failed then s.core else MarkFlushed(s.core, j.id.value),
                 calls := if sink.failed then s.calls else s.calls + [j.words],
                 open := if !sink.failed then [] else if s.sink.failed then s.open else s.open + [""]);
    match j.flavour
    case RunCall => Move(s', th, RunEnded(j, !sink.failed))
    case ListenCall(_) =>
      if sink.failed then Move(s', th, Idle).(stateMu := Free) else Move(s', th, ListenFlushed(j))
    case CancelCall(_, _) => Move(s', th, AfterCancel(j))
  }

  function DoUnlockRun(s: State, th: nat): State
    requires Enabled(s, UnlockRun(th))
  {
    var pc := At(s, th);
    if pc.ok then Move(s, th, Waiting(pc.job.id.value)).(stateMu := Free)
    else Move(s, th, Idle).(stateMu := Free, core := Withdraw(s.core, pc.job.id.value))
  }

  /** End of the critical section of `ListenArgsQueueContext`: a listener with a context gets a
      `stop` channel and a goroutine of its own. */
  function DoRegisterListen(s: State, th: nat, watcher: nat): State
    requires Enabled(s, RegisterListen(th, watcher))
  {
    var j := At(s, th).job;
    var s' := Move(s, th, Idle).(stateMu := Free);
    if s.core.tags.None? then s'
    else if j.flavour.ListenCall? && j.flavour.hasContext then
      s'.(core := Register(s.core, j.id.value, |s.history|, OpenChan),
          threads := s'.threads[watcher := Thread(Watching(j.id.value), {})])
    else s'.(core := Register(s.core, j.id.value, |s.history|, NilChan))
  }

  /** A done context: a waiting run cancels its own tag, a watcher that of its listener. */
  function DoContextDone(s: State, th: nat): State
    requires Enabled(s, ContextDone(th))
  {
    var pc := At(s, th);
    Move(s, th, Numbering(Job(CancelCall(pc.id, pc.Waiting?), [], None)))
  }

  /** The loop looks a sentence up under `c.mu`; unknown tags are ignored. */
  function DoLookUp(s: State): State
    requires s.loop.Got?
  {
    var sen := s.loop.sen;
    s.(history := s.history + [sen],
       loop := if s.core.tags.Some? && sen.tag in s.core.tags.value
               then Found(sen, s.core.tags.value[sen.tag]) else Reading)
  }

  function DoProcess(s: State): State
    requires Enabled(s, Process)
  {
    var sen, id := s.loop.sen, s.loop.id;
    var v := VerdictOf(s.core.heap[id].body, sen);
    s.(core := Put(s.core, id, ProcessEntry(s.core.heap[id], sen)),
       loop := if v.Ends() then ToDelete(sen, id, v.err) else Reading)
  }

  /** `delete(c.tags, sen.Tag)`. */
  function DoDelete(s: State): State
    requires Enabled(s, Delete)
  {
    var id := s.loop.id;
    s.(core := Put(Unmap(s.core, s.loop.sen.tag), id, s.core.heap[id].(phase := Removed)),
       loop := ToClose(id, s.loop.err))
  }

  function DoCloseDone(s: State): State
    requires Enabled(s, CloseDone)
  {
    var id := s.loop.id;
    s.(core := Put(s.core, id, CloseReply(s.core.heap[id], s.loop.err)), loop := Reading)
  }

  function Next(s: State, a: Step): State
    requires Enabled(s, a)
  {
    match a
    case Spawn(th) => s.(threads := s.threads[th := Thread(Idle, {})])
    case CallRun(th, words) => Move(s, th, WantWriter(Job(RunCall, words, None)))
    case CallListen(th, words, ctx) => Move(s, th, Numbering(Job(ListenCall(ctx), words, None)))
    case AskInit(th) => Move(s, th, WantInit)
    case AskProbe(th) => Move(s, th, WantProbe)
    case AskRunState(th) => Move(s, th, WantRunState)
    case TakeInit(th) =>
      s.(initMu := Held(th), threads := s.threads[th := Thread(Idle, s.threads[th].outer + {InitLock})])
    case TakeProbe(th) =>
      s.(probeMu := Held(th), threads := s.threads[th := Thread(Idle, s.threads[th].outer + {ProbeLock})])
    case TakeRunState(th) => Move(s, th, Idle)
    case DropInit(th) =>
      s.(initMu := Free, threads := s.threads[th := Thread(Idle, s.threads[th].outer - {InitLock})])
    case DropProbe(th) =>
      s.(probeMu := Free, threads := s.threads[th := Thread(Idle, s.threads[th].outer - {ProbeLock})])
    case LockWriter(th) => Move(s, th, Writing(At(s, th).job, 0)).(writerMu := Held(th))
    case WriteWord(th, fault) => DoWrite(s, th, fault)
    case WordsDone(th) => DoWordsDone(s, th)
    case IsAsync(th) => Move(s, th, Numbering(At(s, th).job))
    case Number(th) => DoNumber(s, th)
    case LockTags(th) => DoLockTags(s, th)
    case EndSentence(th, fault, flushFails) => DoEnd(s, th, fault, flushFails)
    case UnlockRun(th) => DoUnlockRun(s, th)
    case RegisterListen(th, w) => DoRegisterListen(s, th, w)
    case ReturnReply(th) => Move(s, th, Returned(At(s, th).id, s.core.heap[At(s, th).id].err))
    case ContextDone(th) => DoContextDone(s, th)
    case ReturnDrained(th) =>
      var e := s.core.heap[At(s, th).id].err;
      Move(s, th, Returned(At(s, th).id, if e.Some? then e else Some(ContextError)))
    case StopWatching(th) => Move(s, th, Idle)
    case Resume(th) => Move(s, th, Idle)
    case Read(sen) => s.(loop := Loop.Got(sen))
    case ReadFails(err) => s.(loop := Failing(err))
    case LookUp => DoLookUp(s)
    case Process => DoProcess(s)
    case Delete => DoDelete(s)
    case CloseDone => DoCloseDone(s)
    case LoopEnds => s.(core := CloseTags(s.core, s.loop.cause), loop := Ended)
    case CloseClient => s.(core := s.core.(closing := true))
  }

  /** The state after taking `steps` one after another from `s`; `None` when one of them is not
      enabled. */
  function Execute(s: State, steps: seq<Step>): Option<State> {
    if steps == [] then Some(s)
    else
      match Execute(s, steps[..|steps| - 1])
      case None => None
      case Some(t) => if Enabled(t, steps[|steps| - 1]) then Some(Next(t, steps[|steps| - 1])) else None
  }

  ghost predicate Reachable(s: State) {
    exists steps :: Execute(Initial(), steps) == Some(s)
  }
}
