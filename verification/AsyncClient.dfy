/** The fields of `Client` that `c.mu` guards and the code that changes them (async.go, client.go and
    the critical sections of run.go, listen.go, cancel.go), as an object. Each method does what the
    step of `Multiplexer` with the same name does to its `Core`. */
module AsyncClient {
  import opened Protocol
  import opened Tags
  import opened Multiplexer
  import opened MuxInvariants
  import opened Codec
  import opened Wire
  import opened Replies

  class Client {
    var tags: Option<map<string, nat>>
    var heap: seq<Entry>
    var nextTag: nat
    var closing: bool
    var async: bool

    constructor ()
      ensures Valid() && AsCore() == Core(None, [], false, false) && !async
    {
      tags, heap, nextTag, closing, async := None, [], 0, false, false;
    }

    /** Keys of the map are the tags of the objects they lead to. */
    ghost predicate Valid()
      reads this
    {
      nextTag == |heap| && TagsOk(AsCore())
    }

    function AsCore(): Core
      reads this
    {
      Core(tags, heap, closing, false)
    }

    /** `AsyncContext`: a second call is refused. */
    method Async() returns (started: bool)
      modifies this
      ensures started == !old(async) && async
      ensures AsCore() == if started then old(AsCore()).(tags := Some(map[])) else old(AsCore())
      ensures heap == old(heap) && nextTag == old(nextTag)
    {
      started := !async;
      if started {
        async := true;
        tags := Some(map[]);
      }
    }

    /** `incrementTag` and the object made for the new number. */
    method NewReply(k: Kind, owner: nat) returns (id: nat)
      requires Valid()
      modifies this
      ensures Valid() && id == old(|heap|)
      ensures AsCore() == Issue(old(AsCore()), k, owner) && async == old(async)
    {
      nextTag := nextTag + 1;
      id := |heap|;
      heap := heap + [NewEntry(k, nextTag, owner)];
    }

    /** `c.tags[tag] = a` behind its nil check. */
    method RegisterReply(id: nat, birth: nat, stop: Chan) returns (ok: bool)
      requires Valid() && id < |heap| && heap[id].phase.New?
      requires forall i :: 0 <= i < |heap| && i != id ==> heap[i].tag != heap[id].tag
      modifies this
      ensures Valid() && ok == old(tags).Some? && async == old(async)
      ensures AsCore() == if ok then Register(old(AsCore()), id, birth, stop) else old(AsCore())
    {
      if tags.None? {
        return false;
      }
      RegisterKeeps(AsCore(), id, birth, stop);
      hide TagsOk;
      var e := heap[id];
      if e.body.ListenBody? {
        e := e.(body := e.body.(stop := stop));
      }
      heap := heap[id := e.(phase := Live, birth := birth)];
      tags := Some(tags.value[e.tag := id]);
      ok := true;
    }

    /** `closeReply` on an object of the heap. */
    method CloseObject(id: nat, err: Option<Error>)
      requires id < |heap| && heap[id].reC != ClosedChan
      modifies this`heap
      ensures heap == old(heap)[id := CloseReply(old(heap)[id], err)]
    {
      var e := heap[id];
      if e.err == None {
        e := e.(err := err);
      }
      heap := heap[id := e.(reC := ClosedChan, phase := Closed)];
    }

    /** One turn of `asyncLoop` when nobody comes between its steps. */
    method Dispatch(sen: Sentence)
      requires Valid() && tags.Some? && ChannelsOpen(heap)
      modifies this
      ensures Valid() && ChannelsOpen(heap) && tags.Some?
      ensures AsCore() == Handle(old(AsCore()), sen)
      ensures nextTag == old(nextTag) && async == old(async)
    {
      hide Absorb, VerdictOf;
      HandleKeeps(AsCore(), sen);
      if sen.tag !in tags.value {
        return;
      }
      var id := tags.value[sen.tag];
      OpenStays(heap[id], sen);
      assert id < |heap| && heap[id].phase.Live?;
      hide TagsOk, ChannelsOpen;
      var v := VerdictOf(heap[id].body, sen);
      heap := heap[id := heap[id].(body := Absorb(heap[id].body, sen))];
      if v.Ends() {
        tags := Some(tags.value - {sen.tag});
        CloseObject(id, v.err);
      }
    }

    /** `closeTags`: the loop over the map, in whatever order it comes. */
    method CloseAll(err: Error)
      requires Valid() && ChannelsOpen(heap)
      modifies this
      ensures Valid() && AsCore() == CloseTags(old(AsCore()), err)
      ensures nextTag == old(nextTag) && async == old(async)
    {
      hide TagsOk, ChannelsOpen, CloseReply, PartlyClosed;
      TagsOkAtEnd(AsCore(), err);
      var cause := if closing then None else Some(err);
      if tags.Some? {
        var m := tags.value;
        var rest := m.Keys;
        NothingClosed(AsCore(), cause);
        while rest != {}
          invariant rest <= m.Keys
          invariant tags == old(tags) && closing == old(closing) && nextTag == old(nextTag) && async == old(async)
          invariant PartlyClosed(old(AsCore()), heap, rest, cause)
          decreases |rest|
        {
          var t :| t in rest;
          OneMoreClosed(old(AsCore()), heap, rest, t, cause);
          CloseObject(m[t], cause);
          rest := rest - {t};
        }
        AllClosed(old(AsCore()), heap, cause);
      }
      tags := None;
      assert heap == CloseHeap(old(AsCore()), cause);
    }

    /** `asyncLoop` with no other goroutine at work: every sentence is dispatched, and the read error
        closes what is left. */
    method AsyncLoop(r: Reader) returns (err: Error)
      requires Valid() && tags.Some? && ChannelsOpen(heap) && r.src.Valid()
      modifies this, r.src
      ensures Valid() && tags.None?
      ensures AsCore() == LoopOn(old(AsCore()), old(r.src.Pending()), r.src.end)
      ensures err == LoopError(old(r.src.Pending()), r.src.end)
    {
      while true
        invariant Valid() && tags.Some? && ChannelsOpen(heap) && r.src.Valid()
        invariant LoopOn(old(AsCore()), old(r.src.Pending()), r.src.end)
                  == LoopOn(AsCore(), r.src.Pending(), r.src.end)
        invariant LoopError(old(r.src.Pending()), r.src.end) == LoopError(r.src.Pending(), r.src.end)
        decreases |r.src.Pending()|
      {
        var sen, fault := r.ReadSentence();
        if fault.Some? {
          err := AsError(fault.value);
          CloseAll(err);
          return;
        }
        Dispatch(sen);
      }
    }

    method Close()
      modifies this
      ensures AsCore() == old(AsCore()).(closing := true)
      ensures nextTag == old(nextTag) && async == old(async)
    {
      closing := true;
    }
  }

  /** Registered objects have their channels open. */
  ghost predicate ChannelsOpen(heap: seq<Entry>) {
    forall i :: 0 <= i < |heap| && heap[i].phase.Live? ==>
      heap[i].reC == OpenChan && (heap[i].body.ListenBody? ==> heap[i].body.stop != ClosedChan)
  }

  /** `closeTags` has closed the registered objects whose tags are no longer in `rest`. */
  ghost predicate PartlyClosed(c: Core, heap: seq<Entry>, rest: set<string>, err: Option<Error>) {
    && |heap| == |c.heap|
    && forall i :: 0 <= i < |heap| ==>
         heap[i] == if InTags(c, i) && c.heap[i].tag !in rest then CloseReply(c.heap[i], err) else c.heap[i]
  }

  lemma NothingClosed(c: Core, err: Option<Error>)
    requires TagsOk(c) && c.tags.Some?
    ensures PartlyClosed(c, c.heap, c.tags.value.Keys, err)
  {
    hide CloseReply;
  }

  /** The object of the next tag is open, and closing it is one step on. */
  lemma OneMoreClosed(c: Core, heap: seq<Entry>, rest: set<string>, t: string, err: Option<Error>)
    requires TagsOk(c) && ChannelsOpen(c.heap) && c.tags.Some? && t in rest && rest <= c.tags.value.Keys
    requires PartlyClosed(c, heap, rest, err)
    ensures var id := c.tags.value[t];
            && id < |heap| && heap[id].reC != ClosedChan
            && PartlyClosed(c, heap[id := CloseReply(heap[id], err)], rest - {t}, err)
  {
    hide CloseReply;
  }

  lemma AllClosed(c: Core, heap: seq<Entry>, err: Option<Error>)
    requires PartlyClosed(c, heap, {}, err)
    ensures heap == CloseHeap(c, err)
  {
    hide CloseReply;
  }

  lemma TagsOkAtEnd(c: Core, err: Error)
    requires TagsOk(c)
    ensures TagsOk(CloseTags(c, err)) && |CloseTags(c, err).heap| == |c.heap|
  {
  }

  lemma RegisterKeeps(c: Core, id: nat, birth: nat, stop: Chan)
    requires TagsOk(c) && c.tags.Some? && id < |c.heap| && c.heap[id].phase.New?
    requires forall i :: 0 <= i < |c.heap| && i != id ==> c.heap[i].tag != c.heap[id].tag
    ensures TagsOk(Register(c, id, birth, stop)) && |Register(c, id, birth, stop).heap| == |c.heap|
  {
  }

  lemma OpenStays(e: Entry, sen: Sentence)
    requires e.reC == OpenChan && (e.body.ListenBody? ==> e.body.stop != ClosedChan)
    ensures !ProcessPanics(e, sen) && Absorb(e.body, sen).ListenBody? == e.body.ListenBody?
    ensures !VerdictOf(e.body, sen).Ends() && e.body.ListenBody? ==> Absorb(e.body, sen).stop != ClosedChan
  {
  }

  /** The whole loop on the bytes of the connection. */
  function LoopOn(c: Core, input: string, end: End): Core
    decreases |input|
  {
    ReadFromConsumes(EMPTY_SENTENCE, input, end);
    match ReadSentence(input, end)
    case Failed(f) => CloseTags(c, AsError(f))
    case Got(sen, rest) => LoopOn(Handle(c, sen), rest, end)
  }

  /** The error that ends the loop: that of the first word or sentence that cannot be read. */
  function LoopError(input: string, end: End): Error
    decreases |input|
  {
    ReadFromConsumes(EMPTY_SENTENCE, input, end);
    match ReadSentence(input, end)
    case Failed(f) => AsError(f)
    case Got(_, rest) => LoopError(rest, end)
  }

  /** A sentence handled from lookup to close. */
  function Handle(c: Core, sen: Sentence): Core {
    if c.tags.None? || sen.tag !in c.tags.value || c.tags.value[sen.tag] >= |c.heap| then c
    else
      var id := c.tags.value[sen.tag];
      var v := VerdictOf(c.heap[id].body, sen);
      var processed := Put(c, id, ProcessEntry(c.heap[id], sen));
      if v.Ends() then Put(Unmap(processed, sen.tag), id, CloseReply(processed.heap[id], v.err)) else processed
  }

  lemma HandleKeeps(c: Core, sen: Sentence)
    requires TagsOk(c) && ChannelsOpen(c.heap)
    ensures var d := Handle(c, sen);
            TagsOk(d) && ChannelsOpen(d.heap) && |d.heap| == |c.heap| && (c.tags.Some? ==> d.tags.Some?)
  {
    hide Absorb, VerdictOf;
    if c.tags.Some? && sen.tag in c.tags.value {
      var id := c.tags.value[sen.tag];
      OpenStays(c.heap[id], sen);
    }
  }

  lemma ExecuteMore(s: State, steps: seq<Step>, a: Step)
    requires Execute(s, steps).Some? && Enabled(Execute(s, steps).value, a)
    ensures Execute(s, steps + [a]) == Some(Next(Execute(s, steps).value, a))
  {
    assert (steps + [a])[..|steps|] == steps;
  }

  /** `Handle` is what the steps of the loop do when no other goroutine comes between them. */
  lemma HandleIsSteps(s: State, sen: Sentence) returns (steps: seq<Step>, t: State)
    requires TagsOk(s.core) && s.loop.Reading? && s.stateMu.Free?
    ensures Execute(s, steps) == Some(t)
    ensures t.core == Handle(s.core, sen) && t.loop.Reading? && t.threads == s.threads && t.sink == s.sink
    ensures t.history == s.history + [sen]
  {
    assert [] + [Read(sen)] == [Read(sen)] && Execute(s, []) == Some(s);
    hide Execute;
    ExecuteMore(s, [], Read(sen));
    var u := Next(s, Read(sen));
    ExecuteMore(s, [Read(sen)], LookUp);
    steps := [Read(sen)] + [LookUp];
    t := DoLookUp(u);
    assert Next(u, LookUp) == t && t.core == s.core && t.history == s.history + [sen];
    if t.loop.Found? {
      steps, t := ProcessAndEnd(s, steps, t);
    }
  }

  lemma ProcessAndEnd(s: State, before: seq<Step>, u: State) returns (steps: seq<Step>, t: State)
    requires Execute(s, before) == Some(u) && u.loop.Found? && u.stateMu.Free? && TagsOk(u.core)
    requires u.core.tags.Some? && u.loop.sen.tag in u.core.tags.value
    requires u.core.tags.value[u.loop.sen.tag] == u.loop.id
    ensures Execute(s, steps) == Some(t)
    ensures t.core == Handle(u.core, u.loop.sen) && t.loop.Reading? && t.threads == u.threads && t.sink == u.sink
    ensures t.history == u.history
  {
    hide Execute, Absorb, VerdictOf;
    ExecuteMore(s, before, Process);
    steps, t := before + [Process], DoProcess(u);
    assert Next(u, Process) == t;
    hide Next, Enabled;
    if t.loop.ToDelete? {
      steps, t := RemoveAndClose(s, steps, t);
    }
  }

  lemma RemoveAndClose(s: State, before: seq<Step>, u: State) returns (steps: seq<Step>, t: State)
    requires Execute(s, before) == Some(u) && u.loop.ToDelete? && u.stateMu.Free?
    requires u.loop.id < |u.core.heap|
    ensures Execute(s, steps) == Some(t)
    ensures t.core == Put(Unmap(u.core, u.loop.sen.tag), u.loop.id, CloseReply(u.core.heap[u.loop.id], u.loop.err))
    ensures t.loop.Reading? && t.threads == u.threads && t.sink == u.sink && t.history == u.history
  {
    hide Execute;
    var id := u.loop.id;
    ExecuteMore(s, before, Delete);
    var w := Next(u, Delete);
    ExecuteMore(s, before + [Delete], CloseDone);
    steps := before + [Delete] + [CloseDone];
    t := Next(w, CloseDone);
    assert t.core.heap == u.core.heap[id := CloseReply(u.core.heap[id], u.loop.err)];
  }
}
