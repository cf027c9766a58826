/** What a device finds on the wire in any state of the multiplexer: which sentences it can make out of
    the bytes, and whose tag each of them carries. */
module MuxFrames {
  import opened Protocol
  import opened Codec
  import opened CodecProofs
  import opened Frames
  import opened Multiplexer
  import opened MuxInvariants
  import opened MuxTheorems

  /** The bytes behind the complete calls. */
  function Unfinished(s: State): string
    requires EncodeAll(s.calls) <= s.sink.out
  {
    s.sink.out[|EncodeAll(s.calls)|..]
  }

  lemma WireInTwoParts(s: State)
    requires Reachable(s)
    ensures EncodeAll(s.calls) <= s.sink.out && s.sink.out == EncodeAll(s.calls) + Unfinished(s)
    ensures Unfinished(s) <= EncodeWords(s.open)
    ensures !s.sink.failed ==> Unfinished(s) == EncodeWords(s.open)
  {
    hide EncodeAll, EncodeWords, Reachable;
    WireIsWholeSentences(s);
  }

  /** The device reads exactly the words of the calls, call by call, if and only if no word of any call
      is empty or too long for its prefix; words of the open call are then not taken for a sentence. */
  lemma CallsAreReadExactly(s: State, end: End)
    requires Reachable(s)
    ensures EncodeAll(s.calls) <= s.sink.out
    ensures ReadFrames(s.sink.out, end, |s.calls|) == Decoded.Got(s.calls, Unfinished(s))
            <==> forall i :: 0 <= i < |s.calls| ==> Framed(s.calls[i])
    ensures !s.sink.failed && Framed(s.open) ==> ReadFrame(Unfinished(s), end).Failed?
  {
    hide EncodeAll, EncodeWords, ReadFrame, ReadFrames, Framed, Reachable;
    WireInTwoParts(s);
    FramesRoundTrip(s.calls, Unfinished(s), end);
    if !s.sink.failed && Framed(s.open) {
      OpenWordsAreCut(s.open, end);
    }
  }

  lemma OpenWordsAreCut(ws: seq<string>, end: End)
    requires Framed(ws)
    ensures ReadFrame(EncodeWords(ws), end).Failed?
  {
    hide EncodeWords, ReadFrame;
    assert EncodeWord("") != [];
    var n := |EncodeWords(ws)|;
    assert EncodeSentence(ws)[..n] == EncodeWords(ws);
    UnfinishedFrameIsNotRead(ws, n, end);
  }

  /** Whatever words callers pass, as long as they fit, the device reads the pieces between the empty
      ones, in order, each as a sentence of its own. */
  lemma PiecesOfCallsAreRead(s: State, end: End)
    requires Reachable(s) && forall i :: 0 <= i < |s.calls| ==> Fits(s.calls[i])
    ensures EncodeAll(s.calls) <= s.sink.out
    ensures ReadFrames(s.sink.out, end, |AllPieces(s.calls)|) == Decoded.Got(AllPieces(s.calls), Unfinished(s))
  {
    hide EncodeAll, EncodeWords, ReadFrames, Fits, Reachable, AllPieces;
    WireInTwoParts(s);
    PiecesAreRead(s.calls, Unfinished(s), end);
  }

  /** `id` is the object of the call with these words. */
  ghost predicate IsCallOf(c: Core, id: nat, ws: seq<string>) {
    id < |c.heap| && c.heap[id].flushed && LastWord(ws) == TagWord(c.heap[id].tag)
  }

  lemma TagWordIs(tag: string)
    ensures TagWord(tag) != [] && TAG_PREFIX <= TagWord(tag) && TagWord(tag)[5..] == tag
  {
  }

  /** The last piece of a call ends with the tag word, which is a tag there only behind another word. */
  lemma TagOfLastPiece(ws: seq<string>, tag: string)
    requires ws != [] && ws[|ws| - 1] == TagWord(tag) && tag != ""
    ensures FrameTag(LastPiece(ws)) == if |ws| > 1 && ws[|ws| - 2] != [] then tag else ""
  {
    hide LastPiece;
    TagWordIs(tag);
    assert ws == ws[..|ws| - 1] + [TagWord(tag)];
    LastPieceIs(ws[..|ws| - 1], TagWord(tag));
  }

  /** The sentence in which a call ends carries the tag of that call's own object, and of no other
      call's, if and only if a word that is not empty stands before the tag word; otherwise it
      carries no tag. */
  lemma LastPieceCarriesTag(s: State, i: nat)
    requires Reachable(s) && i < |s.calls|
    ensures exists id: nat :: IsCallOf(s.core, id, s.calls[i])
    ensures forall id: nat :: IsCallOf(s.core, id, s.calls[i]) ==>
              && (forall k :: 0 <= k < |s.calls| && IsCallOf(s.core, id, s.calls[k]) ==> k == i)
              && FrameTag(LastPiece(s.calls[i])) ==
                 if |s.calls[i]| > 1 && s.calls[i][|s.calls[i]| - 2] != [] then s.core.heap[id].tag else ""
  {
    var steps :| Execute(Initial(), steps) == Some(s);
    EveryCallIsTagged(steps, s);
    assert TaggedByFlushed(s.core, s.calls[i]);
    var x :| 0 <= x < |s.core.heap| && s.core.heap[x].flushed
             && LastWord(s.calls[i]) == TagWord(s.core.heap[x].tag);
    assert IsCallOf(s.core, x, s.calls[i]);
    forall id: nat | IsCallOf(s.core, id, s.calls[i])
      ensures FrameTag(LastPiece(s.calls[i])) ==
              if |s.calls[i]| > 1 && s.calls[i][|s.calls[i]| - 2] != [] then s.core.heap[id].tag else ""
    {
      TagIsSomething(s, id);
      TagWordIs(s.core.heap[id].tag);
      TagOfLastPiece(s.calls[i], s.core.heap[id].tag);
    }
  }

  lemma TagIsSomething(s: State, id: nat)
    requires Reachable(s) && id < |s.core.heap|
    ensures s.core.heap[id].tag != ""
  {
    ReachableInv(s);
    assert EntryOk(s, id);
  }

  /** So the device knows every call for what it is, its words and the tag of its object, if and only
      if each has a word besides the tag word, none that is empty and none that is too long. */
  lemma CallsAreKnownExactly(s: State, end: End)
    requires Reachable(s)
    ensures var f := ReadFrames(s.sink.out, end, |s.calls|);
            (f.Got? && f.value == s.calls && forall i :: 0 <= i < |s.calls| ==> CarriesOwnTag(s.core, s.calls[i]))
            <==> forall i :: 0 <= i < |s.calls| ==> Framed(s.calls[i]) && |s.calls[i]| > 1
  {
    hide Reachable, ReadFrames, Framed, FrameTag, LastPiece, IsCallOf;
    WireInTwoParts(s);
    FramesRoundTrip(s.calls, Unfinished(s), end);
    forall i | 0 <= i < |s.calls| && Framed(s.calls[i])
      ensures CarriesOwnTag(s.core, s.calls[i]) <==> |s.calls[i]| > 1
    {
      WholeCallTag(s, i);
    }
  }

  /** The words, as one sentence, carry the tag of their own call. */
  ghost predicate CarriesOwnTag(c: Core, ws: seq<string>) {
    exists id: nat :: IsCallOf(c, id, ws) && FrameTag(ws) == c.heap[id].tag
  }

  lemma WholeCallTag(s: State, i: nat)
    requires Reachable(s) && i < |s.calls| && Framed(s.calls[i])
    ensures CarriesOwnTag(s.core, s.calls[i]) <==> |s.calls[i]| > 1
  {
    hide Reachable, FrameTag;
    LastPieceCarriesTag(s, i);
    PieceIsWhole(s.calls[i]);
    forall id: nat | IsCallOf(s.core, id, s.calls[i])
      ensures s.core.heap[id].tag != ""
    {
      TagIsSomething(s, id);
    }
    assert LastPiece(s.calls[i]) == s.calls[i];
  }

  /** The reader of this library reads them back as the sentences they stand for, with those tags,
      where it accepts them; queries and proplists it does not accept. */
  lemma ReadableCallsComeBack(s: State, end: End)
    requires Reachable(s) && forall i :: 0 <= i < |s.calls| ==> Readable(s.calls[i])
    ensures EncodeAll(s.calls) <= s.sink.out
    ensures ReadSentences(s.sink.out, end, |s.calls|) == Decoded.Got(ParseAll(s.calls), Unfinished(s))
    ensures |ParseAll(s.calls)| == |s.calls|
    ensures forall i :: 0 <= i < |s.calls| ==> ParseAll(s.calls)[i].tag == FrameTag(s.calls[i])
  {
    hide Reachable, EncodeAll, EncodeWords, ReadSentences, FrameTag;
    WireInTwoParts(s);
    StreamRoundTrip(s.calls, Unfinished(s), end);
    ParsedTags(s.calls);
  }

  lemma {:induction false} ParsedTags(ss: seq<seq<string>>)
    requires forall i :: 0 <= i < |ss| ==> Readable(ss[i])
    ensures |ParseAll(ss)| == |ss|
    ensures forall i :: 0 <= i < |ss| ==> ParseAll(ss)[i].tag == FrameTag(ss[i])
    decreases |ss|
  {
    hide FrameTag, Parse;
    if ss != [] {
      assert Readable(ss[0]);
      ReaderAgreesOnTag(ss[0]);
      ParsedTags(ss[1..]);
    }
  }
}
