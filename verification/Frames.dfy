/** What the words on the wire look like to a device: it reads words and takes each empty one for the
    end of a sentence, whatever a caller meant by them. */
module Frames {
  import opened Codec
  import opened CodecProofs
  import Text

  // ----- reading words up to an empty one -----

  /** The words before the next empty one. */
  function ReadFrame(input: string, end: End): Decoded<seq<string>>
    decreases |input|
  {
    ReadWordConsumes(input, end);
    match ReadWord(input, end)
    case Failed(e) => Failed(e)
    case Got(w, rest) =>
      if w == [] then Got([], rest)
      else
        match ReadFrame(rest, end)
        case Failed(e) => Failed(e)
        case Got(ws, left) => Got([w] + ws, left)
  }

  /** `k` such sentences in a row. */
  function ReadFrames(input: string, end: End, k: nat): Decoded<seq<seq<string>>>
    decreases k
  {
    if k == 0 then Got([], input)
    else
      match ReadFrame(input, end)
      case Failed(e) => Failed(e)
      case Got(ws, rest) =>
        match ReadFrames(rest, end, k - 1)
        case Failed(e) => Failed(e)
        case Got(frames, left) => Got([ws] + frames, left)
  }

  /** No word ends the sentence early and none is too long for its prefix. */
  predicate Framed(ws: seq<string>) {
    NonEmptyWords(ws) && Fits(ws)
  }

  lemma ReadNextWord(w: string, rest: string, end: End)
    requires w != [] && |w| < LIMIT
    ensures ReadFrame(EncodeWord(w) + rest, end) ==
            match ReadFrame(rest, end)
            case Failed(e) => Failed(e)
            case Got(ws, left) => Got([w] + ws, left)
  {
    hide EncodeWord, ReadWord;
    WordRoundTrip(w, rest, end);
  }

  lemma ReadEmptyWord(rest: string, end: End)
    ensures ReadFrame(EncodeWord("") + rest, end) == Got([], rest)
  {
    hide EncodeWord, ReadWord;
    WordRoundTrip("", rest, end);
  }

  /** A word that does not fit is not read as itself. */
  lemma LongWordIsMisread(w: string, rest: string, end: End)
    requires |w| >= LIMIT
    ensures var f := ReadFrame(EncodeWord(w) + rest, end); f.Got? ==> f.value == [] || f.value[0] != w
  {
    assert EncodeWord(w) + rest == EncodeLength(|w|) + (w + rest);
    hide EncodeWord, ReadLength;
    LengthReadBack(|w|, w + rest, end);
    assert ReadWord(EncodeWord(w) + rest, end) == ReadFull(w + rest, end, |w| % LIMIT);
    hide ReadWord;
  }

  /** The words of one sentence are read back as they are, with nothing else consumed, if and only if
      none of them is empty and all of them fit. */
  lemma {:induction false} FrameRoundTrip(ws: seq<string>, rest: string, end: End)
    ensures var f := ReadFrame(EncodeSentence(ws) + rest, end);
            && (f.Got? && f.value == ws <==> Framed(ws))
            && (Framed(ws) ==> f == Got(ws, rest))
    decreases |ws|
  {
    hide EncodeSentence, EncodeWord, ReadFrame;
    if ws == [] {
      EncodedNothing();
      ReadEmptyWord(rest, end);
    } else {
      var tail := EncodeSentence(ws[1..]) + rest;
      EncodedTail(ws, rest);
      if ws[0] == [] {
        ReadEmptyWord(tail, end);
      } else if |ws[0]| >= LIMIT {
        LongWordIsMisread(ws[0], tail, end);
      } else {
        ReadNextWord(ws[0], tail, end);
        FrameRoundTrip(ws[1..], rest, end);
        assert ws == [ws[0]] + ws[1..];
      }
    }
  }

  /** So are all sentences of a stream, one after another. */
  lemma {:induction false} FramesRoundTrip(ss: seq<seq<string>>, rest: string, end: End)
    ensures var f := ReadFrames(EncodeAll(ss) + rest, end, |ss|);
            && (f.Got? && f.value == ss <==> forall i :: 0 <= i < |ss| ==> Framed(ss[i]))
            && ((forall i :: 0 <= i < |ss| ==> Framed(ss[i])) ==> f == Got(ss, rest))
    decreases |ss|
  {
    hide EncodeSentence, ReadFrame, Framed;
    if ss == [] {
      assert EncodeAll(ss) + rest == rest;
    } else {
      var tail := EncodeAll(ss[1..]) + rest;
      Text.Associative(EncodeSentence(ss[0]), EncodeAll(ss[1..]), rest);
      FrameRoundTrip(ss[0], tail, end);
      assert ss == [ss[0]] + ss[1..];
      if Framed(ss[0]) {
        FramesRoundTrip(ss[1..], rest, end);
      }
    }
  }

  /** A strict prefix of the encoding of such words is not taken for a sentence. */
  lemma {:induction false} UnfinishedFrameIsNotRead(ws: seq<string>, n: nat, end: End)
    requires Framed(ws) && n < |EncodeSentence(ws)|
    ensures ReadFrame(EncodeSentence(ws)[..n], end).Failed?
    decreases |ws|
  {
    hide EncodeSentence, EncodeWord, ReadWord;
    if ws == [] {
      EncodedNothing();
      CutWord("", n, end);
    } else {
      var head, tail := EncodeWord(ws[0]), EncodeSentence(ws[1..]);
      EncodeSentenceCons(ws);
      if n < |head| {
        assert EncodeSentence(ws)[..n] == head[..n];
        CutWord(ws[0], n, end);
      } else {
        assert EncodeSentence(ws)[..n] == head + tail[..n - |head|];
        ReadNextWord(ws[0], tail[..n - |head|], end);
        UnfinishedFrameIsNotRead(ws[1..], n - |head|, end);
      }
    }
  }

  // ----- words that end a sentence early -----

  /** The words between the empty ones. */
  function Pieces(ws: seq<string>): (ps: seq<seq<string>>)
    ensures ps != []
  {
    if ws == [] then [[]]
    else
      var ps := Pieces(ws[1..]);
      if ws[0] == [] then [[]] + ps else [[ws[0]] + ps[0]] + ps[1..]
  }

  function AllPieces(ss: seq<seq<string>>): seq<seq<string>> {
    if ss == [] then [] else Pieces(ss[0]) + AllPieces(ss[1..])
  }

  /** Sending words with empty ones among them is sending several sentences. */
  lemma {:induction false} PiecesAreSent(ws: seq<string>)
    ensures EncodeAll(Pieces(ws)) == EncodeSentence(ws)
    decreases |ws|
  {
    hide EncodeSentence, EncodeWord;
    if ws == [] {
      var none: seq<seq<string>> := [[]];
      assert Pieces(ws) == none && none[1..] == [];
      assert EncodeAll(none) == EncodeSentence([]) + [];
    } else {
      var ps := Pieces(ws[1..]);
      PiecesAreSent(ws[1..]);
      EncodeSentenceCons(ws);
      if ws[0] == [] {
        EncodedNothing();
        assert Pieces(ws)[1..] == ps;
      } else {
        var first := [ws[0]] + ps[0];
        EncodeSentenceCons(first);
        assert first[1..] == ps[0] && ([first] + ps[1..])[1..] == ps[1..];
        Text.Associative(EncodeWord(ws[0]), EncodeSentence(ps[0]), EncodeAll(ps[1..]));
      }
    }
  }

  lemma {:induction false} PiecesAreFramed(ws: seq<string>)
    requires Fits(ws)
    ensures forall i :: 0 <= i < |Pieces(ws)| ==> Framed(Pieces(ws)[i])
    decreases |ws|
  {
    if ws != [] {
      assert Fits(ws[1..]);
      PiecesAreFramed(ws[1..]);
      var ps := Pieces(ws[1..]);
      assert Framed(ps[0]) && Framed([]);
    }
  }

  lemma {:induction false} EncodeAllConcat(ss: seq<seq<string>>, tt: seq<seq<string>>)
    ensures EncodeAll(ss + tt) == EncodeAll(ss) + EncodeAll(tt)
    decreases |ss|
  {
    hide EncodeSentence;
    if ss == [] {
      assert ss + tt == tt;
    } else {
      assert (ss + tt)[1..] == ss[1..] + tt;
      EncodeAllConcat(ss[1..], tt);
      Text.Associative(EncodeSentence(ss[0]), EncodeAll(ss[1..]), EncodeAll(tt));
    }
  }

  lemma {:induction false} AllPiecesAreSent(ss: seq<seq<string>>)
    requires forall i :: 0 <= i < |ss| ==> Fits(ss[i])
    ensures EncodeAll(AllPieces(ss)) == EncodeAll(ss)
    ensures forall i :: 0 <= i < |AllPieces(ss)| ==> Framed(AllPieces(ss)[i])
    decreases |ss|
  {
    hide EncodeSentence, Framed, Fits, Pieces;
    if ss != [] {
      AllPiecesAreSent(ss[1..]);
      PiecesAreSent(ss[0]);
      PiecesAreFramed(ss[0]);
      EncodeAllConcat(Pieces(ss[0]), AllPieces(ss[1..]));
    }
  }

  /** Whatever words are sent, the device reads the pieces between the empty ones. */
  lemma PiecesAreRead(ss: seq<seq<string>>, rest: string, end: End)
    requires forall i :: 0 <= i < |ss| ==> Fits(ss[i])
    ensures ReadFrames(EncodeAll(ss) + rest, end, |AllPieces(ss)|) == Got(AllPieces(ss), rest)
  {
    hide EncodeAll, ReadFrames, Framed, Fits, AllPieces;
    AllPiecesAreSent(ss);
    FramesRoundTrip(AllPieces(ss), rest, end);
  }

  // ----- tags -----

  /** The tag of a sentence: the command word comes first and the last tag word counts. */
  function FrameTag(ws: seq<string>): string {
    if |ws| < 2 then ""
    else if TAG_PREFIX <= ws[|ws| - 1] then ws[|ws| - 1][5..]
    else FrameTag(ws[..|ws| - 1])
  }

  /** The reader agrees wherever it accepts the words. */
  lemma {:induction false} ReaderAgreesOnTag(ws: seq<string>)
    requires NonEmptyWords(ws) && Parse(ws).Some?
    ensures Parse(ws).value.tag == FrameTag(ws)
    ensures Parse(ws).value.word == "" <==> ws == []
    decreases |ws|
  {
    if ws != [] {
      ReaderAgreesOnTag(ws[..|ws| - 1]);
    }
  }

  function LastPiece(ws: seq<string>): seq<string> {
    Pieces(ws)[|Pieces(ws)| - 1]
  }

  /** There is one piece exactly when no word is empty. */
  lemma {:induction false} PieceIsWhole(ws: seq<string>)
    ensures |Pieces(ws)| == 1 <==> NonEmptyWords(ws)
    ensures NonEmptyWords(ws) ==> Pieces(ws) == [ws]
    decreases |ws|
  {
    if ws != [] {
      PieceIsWhole(ws[1..]);
      assert ws == [ws[0]] + ws[1..];
    }
  }

  /** The word sent last is the last one of the last piece, and alone there exactly when nothing or
      an empty word stands before it. */
  lemma {:induction false} LastPieceIs(ws: seq<string>, w: string)
    requires w != []
    ensures var p := LastPiece(ws + [w]);
            && p != [] && p[|p| - 1] == w
            && (|p| > 1 <==> ws != [] && ws[|ws| - 1] != [])
    decreases |ws|
  {
    if ws == [] {
      assert ws + [w] == [w];
      assert [w][1..] == [] && Pieces([])[0] == [];
      assert Pieces([w])[0] == [w];
    } else {
      var tail := ws[1..] + [w];
      assert (ws + [w])[0] == ws[0] && (ws + [w])[1..] == tail;
      LastPieceIs(ws[1..], w);
      LastPieceOfRest(ws + [w]);
      PieceIsWhole(tail);
      assert |ws| > 1 ==> tail[|ws| - 2] == ws[|ws| - 1];
      hide LastPiece;
    }
  }

  lemma LastPieceOfRest(ws: seq<string>)
    requires ws != []
    ensures var p := LastPiece(ws[1..]);
            LastPiece(ws) == if ws[0] != [] && |Pieces(ws[1..])| == 1 then [ws[0]] + p else p
  {
    var ps, all := Pieces(ws[1..]), Pieces(ws);
    if ws[0] == [] {
      assert all == [[]] + ps;
    } else {
      assert all == [[ws[0]] + ps[0]] + ps[1..];
    }
    hide Pieces;
  }
}
