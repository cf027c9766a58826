/** Across the layers: from bytes to streams, and from a finished run to the reply of a command. */
module EndToEnd {
  import opened Protocol
  import opened Codec
  import opened CodecProofs
  import opened Multiplexer
  import opened MuxInvariants
  import opened MuxTheorems
  import opened AsyncClient
  import opened ClientTransport
  import Text

  // ----- from bytes to streams -----

  function HandleAll(c: Core, sens: seq<Sentence>): Core {
    if sens == [] then c else Handle(HandleAll(c, sens[..|sens| - 1]), sens[|sens| - 1])
  }

  lemma {:induction false} HandleAllCons(c: Core, sen: Sentence, sens: seq<Sentence>)
    ensures HandleAll(c, [sen] + sens) == HandleAll(Handle(c, sen), sens)
  {
    if sens == [] {
      assert [sen] + sens == [sen] && [sen][..0] == [];
      assert HandleAll(c, []) == c;
    } else {
      var n := |sens| - 1;
      HandleAllCons(c, sen, sens[..n]);
      assert ([sen] + sens)[..n + 1] == [sen] + sens[..n];
    }
  }

  /** The loop on the bytes of any readable sentences handles those sentences in order. */
  lemma {:induction false} LoopReadsStream(c: Core, ss: seq<seq<string>>, rest: string, end: End)
    requires forall i :: 0 <= i < |ss| ==> Readable(ss[i])
    ensures LoopOn(c, EncodeAll(ss) + rest, end) == LoopOn(HandleAll(c, ParseAll(ss)), rest, end)
    decreases |ss|
  {
    if ss == [] {
      assert EncodeAll(ss) + rest == rest;
    } else {
      assert Readable(ss[0]);
      var tail := EncodeAll(ss[1..]) + rest;
      Text.Associative(EncodeSentence(ss[0]), EncodeAll(ss[1..]), rest);
      SentenceRoundTrip(ss[0], tail, end);
      var sen := Parse(ss[0]).value;
      LoopReadsStream(Handle(c, sen), ss[1..], rest, end);
      HandleAllCons(c, sen, ParseAll(ss[1..]));
    }
  }

  /** What has become of a registered object: it holds the fold of its own sentences, and it is out
      of the map and closed, with the error of the fold, once that has ended. */
  ghost predicate Served(c: Core, d: Core, id: nat, sens: seq<Sentence>)
    requires id < |c.heap|
  {
    var p := Fold(c.heap[id].body, Mine(sens, c.heap[id].tag, 0));
    && id < |d.heap| && d.heap[id].tag == c.heap[id].tag && d.heap[id].body == p.body
    && (if p.Running? then InTags(d, id) && d.heap[id].phase.Live? && d.heap[id].err.None?
        else d.heap[id].phase.Closed? && d.heap[id].err == p.err
             && (d.tags.Some? ==> d.heap[id].tag !in d.tags.value))
  }

  /** A sentence with another tag leaves the object alone. */
  lemma HandleOther(d: Core, id: nat, sen: Sentence)
    requires TagsOk(d) && id < |d.heap| && sen.tag != d.heap[id].tag
    ensures var f := Handle(d, sen);
            && |f.heap| == |d.heap| && f.heap[id] == d.heap[id]
            && (InTags(d, id) ==> InTags(f, id))
            && (f.tags.Some? ==> d.tags.Some? && f.tags.value.Keys <= d.tags.value.Keys)
  {
    hide Absorb, VerdictOf;
  }

  /** Its own next sentence advances it. */
  lemma HandleOwn(d: Core, id: nat, sen: Sentence)
    requires TagsOk(d) && ChannelsOpen(d.heap) && id < |d.heap| && InTags(d, id) && sen.tag == d.heap[id].tag
    requires d.heap[id].phase.Live? && d.heap[id].err.None?
    ensures var f, v := Handle(d, sen), VerdictOf(d.heap[id].body, sen);
            && |f.heap| == |d.heap| && f.heap[id].tag == sen.tag && f.heap[id].body == Absorb(d.heap[id].body, sen)
            && (v.Ends() ==> f.heap[id].phase.Closed? && f.heap[id].err == v.err && sen.tag !in f.tags.value)
            && (!v.Ends() ==> InTags(f, id) && f.heap[id].phase.Live? && f.heap[id].err.None?)
  {
    hide Absorb, VerdictOf;
  }

  lemma ServedNext(c: Core, d: Core, id: nat, sens: seq<Sentence>, sen: Sentence)
    requires id < |c.heap| && TagsOk(d) && ChannelsOpen(d.heap) && Served(c, d, id, sens)
    ensures Served(c, Handle(d, sen), id, sens + [sen])
  {
    FoldNext(c.heap[id].body, sens, sen, c.heap[id].tag, 0);
    if sen.tag != c.heap[id].tag {
      HandleOther(d, id, sen);
    } else if Fold(c.heap[id].body, Mine(sens, sen.tag, 0)).Running? {
      HandleOwn(d, id, sen);
    } else {
      assert Handle(d, sen) == d;
    }
    hide Handle, Absorb, VerdictOf, TagsOk, ChannelsOpen, Fold, Mine;
  }

  lemma {:induction false} HandleAllServes(c: Core, sens: seq<Sentence>, id: nat)
    requires TagsOk(c) && ChannelsOpen(c.heap) && id < |c.heap|
    requires InTags(c, id) && c.heap[id].phase.Live? && c.heap[id].err.None?
    ensures TagsOk(HandleAll(c, sens)) && ChannelsOpen(HandleAll(c, sens).heap)
    ensures Served(c, HandleAll(c, sens), id, sens)
    ensures HandleAll(c, sens).closing == c.closing && |HandleAll(c, sens).heap| == |c.heap|
  {
    hide Handle;
    if sens == [] {
      assert Mine([], c.heap[id].tag, 0) == [];
    } else {
      var n := |sens| - 1;
      HandleAllServes(c, sens[..n], id);
      var d := HandleAll(c, sens[..n]);
      HandleKeeps(d, sens[n]);
      HandleLeavesClosing(d, sens[n]);
      ServedNext(c, d, id, sens[..n], sens[n]);
      assert sens == sens[..n] + [sens[n]];
    }
  }

  lemma HandleLeavesClosing(c: Core, sen: Sentence)
    ensures Handle(c, sen).closing == c.closing
  {
  }

  function EndError(end: End): Error {
    match end
    case Eof => ReadError(-1)
    case Broken(code) => ReadError(code)
  }

  lemma LoopAtEnd(c: Core, end: End)
    ensures LoopOn(c, [], end) == CloseTags(c, EndError(end))
  {
    assert ReadSentence([], end) == Failed(if end.Eof? then EndOfInput else Connection(end.code));
  }

  lemma ClosedAtEnd(c: Core, d: Core, id: nat, sens: seq<Sentence>, err: Error)
    requires id < |c.heap| && Served(c, d, id, sens) && TagsOk(d)
    ensures var f, p := CloseTags(d, err), Fold(c.heap[id].body, Mine(sens, c.heap[id].tag, 0));
            && f.tags.None? && id < |f.heap| && f.heap[id].phase.Closed? && f.heap[id].body == p.body
            && f.heap[id].err == if p.Finished? then p.err else if d.closing then None else Some(err)
  {
    hide Fold, Mine;
  }

  /** From the bytes on the connection to one call: whatever sentences the device interleaves, a call
      that is registered when they come ends up with the fold of its own ones, in order. When the
      stream then ends it has the error of that fold if it ended, and otherwise the read error, or
      nil after `Close`. */
  lemma StreamOverTheWire(c: Core, ss: seq<seq<string>>, end: End, id: nat)
    requires TagsOk(c) && ChannelsOpen(c.heap) && id < |c.heap|
    requires InTags(c, id) && c.heap[id].phase.Live? && c.heap[id].err.None?
    requires forall i :: 0 <= i < |ss| ==> Readable(ss[i])
    ensures var d := LoopOn(c, EncodeAll(ss), end);
            var p := Fold(c.heap[id].body, Mine(ParseAll(ss), c.heap[id].tag, 0));
            && d.tags.None? && id < |d.heap| && d.heap[id].phase.Closed? && d.heap[id].body == p.body
            && d.heap[id].err == if p.Finished? then p.err else if c.closing then None else Some(EndError(end))
  {
    hide LoopOn, HandleAll, Served, CloseTags, Fold, Mine, EncodeAll, ParseAll;
    assert EncodeAll(ss) + [] == EncodeAll(ss);
    LoopReadsStream(c, ss, [], end);
    var d := HandleAll(c, ParseAll(ss));
    HandleAllServes(c, ParseAll(ss), id);
    LoopAtEnd(d, end);
    ClosedAtEnd(c, d, id, ParseAll(ss), EndError(end));
  }

  // ----- from a run to the reply of a command -----

  /** In a run in which `Close` is never called, a command whose run returned nil gets the `!done`
      with the tag of that run as its canonical reply. */
  lemma NilErrorGivesDone(s: State, th: nat)
    requires Reachable(s) && th in s.threads && At(s, th).Returned? && At(s, th).err.None? && !s.core.closing
    ensures At(s, th).id < |s.core.heap| && s.core.heap[At(s, th).id].body.RunBody?
    ensures var e := s.core.heap[At(s, th).id];
            var r := CommandOf(RunResult.Returned(e.body.re, e.body.done));
            r.Ok? && r.value.kind == DONE && r.value.tag == e.tag
  {
    NilErrorMeansDone(s, th);
    var e := s.core.heap[At(s, th).id];
    TerminalReply(RunResult.Returned(e.body.re, e.body.done));
  }
}
