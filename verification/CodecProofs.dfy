/** What the wire format guarantees: prefixes, words and sentences are read back as they were
    written, and no unfinished sentence is ever taken for a sentence. */
module CodecProofs {
  import opened Protocol
  import opened Codec
  import Text

  // ----- length prefixes -----

  /** The range tests of `ReadLength` and the sums of `EncodeLength` are the bit masks of the
      source: the guards `l & mask == lead`, the stripped value `l & ^mask`, and `b | lead`. */
  lemma LeadByteMasks(b: bv8)
    ensures b & 0x80 == 0x00 <==> (b as nat) < 0x80
    ensures b & 0xC0 == 0x80 <==> 0x80 <= (b as nat) < 0xC0
    ensures b & 0xE0 == 0xC0 <==> 0xC0 <= (b as nat) < 0xE0
    ensures b & 0xF0 == 0xE0 <==> 0xE0 <= (b as nat) < 0xF0
    ensures b & 0xF8 == 0xF0 <==> 0xF0 <= (b as nat) < 0xF8
    ensures b & 0xC0 == 0x80 ==> (b & 0x3F) as nat == b as nat - 0x80
    ensures b & 0xE0 == 0xC0 ==> (b & 0x1F) as nat == b as nat - 0xC0
    ensures b & 0xF0 == 0xE0 ==> (b & 0x0F) as nat == b as nat - 0xE0
    ensures (b as nat) < 0x40 ==> (b | 0x80) as nat == 0x80 + b as nat
    ensures (b as nat) < 0x20 ==> (b | 0xC0) as nat == 0xC0 + b as nat
    ensures (b as nat) < 0x10 ==> (b | 0xE0) as nat == 0xE0 + b as nat
  {
  }

  lemma ReadFullSplits(p: string, rest: string, end: End)
    ensures ReadFull(p + rest, end, |p|) == Got(p, rest)
  {
  }

  lemma NumberSnoc(b: string, c: char)
    ensures Number(b + [c]) == Number(b) * 0x100 + c as nat
  {
    assert (b + [c])[..|b|] == b;
  }

  lemma NumberOf1(a: char)
    ensures Number([a]) == a as nat
  {
    assert [a] == [] + [a];
    NumberSnoc([], a);
  }

  lemma NumberOf2(a: char, b: char)
    ensures Number([a, b]) == a as nat * 0x100 + b as nat
  {
    assert [a, b] == [a] + [b];
    NumberSnoc([a], b);
    NumberOf1(a);
  }

  lemma ReadNumberSplits(p: string, rest: string, end: End)
    ensures ReadNumber(p + rest, end, |p|) == Got(Number(p), rest)
  {
    ReadFullSplits(p, rest, end);
  }

  /** The big-endian value of the low bytes of a number. */
  lemma NumberOfBytes2(l: nat)
    ensures Number([Byte(l / 0x100), Byte(l)]) == l % 0x1_0000
  {
    hide Number;
    NumberOf2(Byte(l / 0x100), Byte(l));
    LowBytes(l, 0x100);
  }

  /** The low part of a number, one byte at a time: from named quotients and remainders. */
  lemma LowBytes(l: nat, m: nat)
    requires m == 0x100 || m == 0x1_0000 || m == 0x100_0000
    ensures l % (m * 0x100) == l / 0x100 % m * 0x100 + l % 0x100
  {
    var q, r := l / 0x100, l % 0x100;
    var high, low := q / m, q % m;
    assert l == 0x100 * q + r;
    assert q == m * high + low;
    assert l == (m * 0x100) * high + (low * 0x100 + r) by {
      if m == 0x100 {
        assert l == 0x1_0000 * high + (low * 0x100 + r);
      } else if m == 0x1_0000 {
        assert l == 0x100_0000 * high + (low * 0x100 + r);
      } else {
        assert l == LIMIT * high + (low * 0x100 + r);
      }
    }
    Remainder(l, m * 0x100, high, low * 0x100 + r);
  }

  lemma Multiples(m: nat, a: int, b: int)
    ensures a < b ==> m * a + m <= m * b
  {
    if a < b {
      var k: nat := b - a - 1;
      assert b == a + 1 + k;
      assert m * b == m * a + m + m * k;
    }
  }

  lemma Remainder(l: nat, m: nat, q: nat, r: nat)
    requires r < m && l == m * q + r
    ensures l % m == r
  {
    Multiples(m, l / m, q);
    Multiples(m, q, l / m);
  }

  lemma WithoutLastByte(l: nat)
    ensures l / 0x100 / 0x100 == l / 0x1_0000 && l / 0x100 / 0x1_0000 == l / 0x100_0000
    ensures l % 0x100_0000 == l / 0x100 % 0x1_0000 * 0x100 + l % 0x100
    ensures l % LIMIT == l / 0x100 % 0x100_0000 * 0x100 + l % 0x100
  {
    LowBytes(l, 0x1_0000);
    LowBytes(l, 0x100_0000);
  }

  lemma NumberOfBytes3(l: nat)
    ensures Number([Byte(l / 0x1_0000), Byte(l / 0x100), Byte(l)]) == l % 0x100_0000
  {
    hide Number;
    var q := l / 0x100;
    WithoutLastByte(l);
    NumberOfBytes2(q);
    var high := [Byte(l / 0x1_0000), Byte(l / 0x100)];
    assert high + [Byte(l)] == [Byte(l / 0x1_0000), Byte(l / 0x100), Byte(l)];
    NumberSnoc(high, Byte(l));
  }

  lemma NumberOfBytes4(l: nat)
    ensures Number([Byte(l / 0x100_0000), Byte(l / 0x1_0000), Byte(l / 0x100), Byte(l)]) == l % LIMIT
  {
    hide Number;
    var q := l / 0x100;
    WithoutLastByte(l);
    NumberOfBytes3(q);
    var high := [Byte(l / 0x100_0000), Byte(l / 0x1_0000), Byte(l / 0x100)];
    assert high + [Byte(l)] == [Byte(l / 0x100_0000), Byte(l / 0x1_0000), Byte(l / 0x100), Byte(l)];
    NumberSnoc(high, Byte(l));
  }

  /** What the first byte says: the high part of the length and how many bytes follow. */
  ghost predicate Announces(head: char, high: nat, size: nat) {
    || (size == 0 && head < 0x80 as char && high == head as nat)
    || (size == 1 && 0x80 as char <= head < 0xC0 as char && high == head as nat - 0x80)
    || (size == 2 && 0xC0 as char <= head < 0xE0 as char && high == head as nat - 0xC0)
    || (size == 3 && 0xE0 as char <= head < 0xF0 as char && high == head as nat - 0xE0)
    || (size == 4 && 0xF0 as char <= head < 0xF8 as char && high == 0)
  }

  lemma ReadLengthOf(head: char, high: nat, size: nat, n: nat, input: string, more: string, rest: string, end: End)
    requires Announces(head, high, size) && ReadNumber(input, end, 1) == Got(head as nat, more)
    requires if size == 0 then n == 0 && more == rest else ReadNumber(more, end, size) == Got(n, rest)
    ensures ReadLength(input, end) == Got(Shift(high, size) + n, rest)
  {
    hide ReadNumber;
  }

  lemma ReadLengthSplits(head: char, high: nat, tail: string, rest: string, end: End)
    requires Announces(head, high, |tail|)
    ensures ReadLength([head] + (tail + rest), end) == Got(Shift(high, |tail|) + Number(tail), rest)
  {
    hide ReadLength, ReadNumber, Announces, Shift;
    var more := tail + rest;
    ReadNumberSplits([head], more, end);
    NumberOf1(head);
    ReadNumberSplits(tail, rest, end);
    if tail == [] {
      assert more == rest && Number(tail) == 0;
    }
    ReadLengthOf(head, high, |tail|, Number(tail), [head] + more, more, rest, end);
  }

  /** `p` is a first byte that announces exactly the bytes after it, and its value is `value`. */
  ghost predicate IsPrefixOf(p: string, high: nat, value: nat) {
    && p != [] && Announces(p[0], high, |p| - 1)
    && Shift(high, |p| - 1) + Number(p[1..]) == value
  }

  lemma EncodedParts2(l: nat)
    requires 0x80 <= l < 0x4000
    ensures IsPrefixOf(EncodeLength(l), l / 0x100, l)
  {
    NumberOf1(Byte(l));
    hide Number;
    assert EncodeLength(l)[1..] == [Byte(l)];
  }

  lemma EncodedParts3(l: nat)
    requires 0x4000 <= l < 0x20_0000
    ensures IsPrefixOf(EncodeLength(l), l / 0x1_0000, l)
  {
    hide Number;
    NumberOfBytes2(l);
    assert EncodeLength(l)[1..] == [Byte(l / 0x100), Byte(l)];
  }

  lemma EncodedParts4(l: nat)
    requires 0x20_0000 <= l < 0x1000_0000
    ensures IsPrefixOf(EncodeLength(l), l / 0x100_0000, l)
  {
    hide Number;
    NumberOfBytes3(l);
    assert EncodeLength(l)[1..] == [Byte(l / 0x1_0000), Byte(l / 0x100), Byte(l)];
  }

  lemma EncodedParts5(l: nat)
    requires 0x1000_0000 <= l
    ensures IsPrefixOf(EncodeLength(l), 0, l % LIMIT)
  {
    hide Number;
    NumberOfBytes4(l);
    assert EncodeLength(l)[1..] == [Byte(l / 0x100_0000), Byte(l / 0x1_0000), Byte(l / 0x100), Byte(l)];
  }

  lemma EncodedParts(l: nat) returns (high: nat)
    ensures IsPrefixOf(EncodeLength(l), high, if l < LIMIT then l else l % LIMIT)
  {
    if l < 0x80 {
      high := l;
      assert EncodeLength(l)[1..] == [];
    } else {
      hide EncodeLength, IsPrefixOf;
      if l < 0x4000 {
        high := l / 0x100;
        EncodedParts2(l);
      } else if l < 0x20_0000 {
        high := l / 0x1_0000;
        EncodedParts3(l);
      } else if l < 0x1000_0000 {
        high := l / 0x100_0000;
        EncodedParts4(l);
      } else {
        high := 0;
        EncodedParts5(l);
      }
    }
  }

  /** The prefix written for `l` is read back as `l` modulo 2^32, whatever follows it. */
  lemma LengthReadBack(l: nat, rest: string, end: End)
    ensures ReadLength(EncodeLength(l) + rest, end) == Got(if l < LIMIT then l else l % LIMIT, rest)
  {
    hide EncodeLength, ReadLength, Shift, Number;
    var high := EncodedParts(l);
    var head, tail := EncodeLength(l)[0], EncodeLength(l)[1..];
    ReadLengthSplits(head, high, tail, rest, end);
    assert EncodeLength(l) + rest == [head] + (tail + rest);
  }

  /** `readLength` inverts `encodeLength`, consuming exactly the prefix, if and only if the length
      fits in 32 bits. */
  lemma LengthRoundTrip(l: nat, rest: string, end: End)
    ensures ReadLength(EncodeLength(l) + rest, end) == Got(l, rest) <==> l < LIMIT
  {
    LengthReadBack(l, rest, end);
  }

  ghost predicate AllBytes(s: string) {
    forall i :: 0 <= i < |s| ==> s[i] < 0x100 as char
  }

  /** How many bytes follow the first one. */
  function TailSize(head: char): nat {
    if head < 0x80 as char then 0
    else if head < 0xC0 as char then 1
    else if head < 0xE0 as char then 2
    else if head < 0xF0 as char then 3
    else 4
  }

  lemma {:induction false} NumberBound(s: string)
    requires AllBytes(s) && |s| <= 3
    ensures Number(s) < if |s| == 0 then 1 else if |s| == 1 then 0x100 else if |s| == 2 then 0x1_0000 else 0x100_0000
  {
    if s != [] {
      NumberBound(s[..|s| - 1]);
    }
  }

  lemma DecodedSize(p: string, l: nat, end: End)
    requires p != [] && p[0] < 0xF8 as char && ReadLength(p, end) == Got(l, [])
    ensures |p| == 1 + TailSize(p[0])
    ensures TailSize(p[0]) < 4 ==> Announces(p[0], HighPart(p[0]), |p| - 1)
                                   && l == Shift(HighPart(p[0]), |p| - 1) + Number(p[1..])
  {
    var tail := p[1..];
    assert p == [p[0]] + tail;
    ReadNumberSplits([p[0]], tail, end);
    NumberOf1(p[0]);
    assert Number([]) == 0;
    assert tail[..|tail|] == tail;
    hide Number;
  }

  function HighPart(head: char): nat {
    if head < 0x80 as char then head as nat
    else if head < 0xC0 as char then head as nat - 0x80
    else if head < 0xE0 as char then head as nat - 0xC0
    else if head < 0xF0 as char then head as nat - 0xE0
    else 0
  }

  /** No prefix that decodes to `l` is shorter than the one `encodeLength` writes; the first bytes
      that `readLength` lets through undecoded are the exception. */
  lemma ShortestPrefix(p: string, l: nat, end: End)
    requires AllBytes(p) && p != [] && p[0] < 0xF8 as char
    requires ReadLength(p, end) == Got(l, [])
    ensures |EncodeLength(l)| <= |p|
  {
    DecodedSize(p, l, end);
    if |p| <= 4 {
      NumberBound(p[1..]);
    }
    hide ReadLength, Number;
  }

  /** The exception: a lone first byte of 0xF8 or more is a length of its own, although
      `encodeLength` writes two bytes for that length. */
  lemma UndecodedFirstByte(b: char, rest: string, end: End)
    requires 0xF8 as char <= b < 0x100 as char
    ensures ReadLength([b] + rest, end) == Got(b as nat, rest)
    ensures |EncodeLength(b as nat)| == 2
  {
    ReadNumberSplits([b], rest, end);
    NumberOf1(b);
  }

  // ----- words and sentences -----

  predicate Fits(ws: seq<string>) {
    forall i :: 0 <= i < |ws| ==> |ws[i]| < LIMIT
  }

  /** A word is read back, with nothing else consumed, if and only if its length fits. */
  lemma WordRoundTrip(w: string, rest: string, end: End)
    ensures ReadWord(EncodeWord(w) + rest, end) == Got(w, rest) <==> |w| < LIMIT
  {
    assert EncodeWord(w) + rest == EncodeLength(|w|) + (w + rest);
    LengthReadBack(|w|, w + rest, end);
    ReadFullSplits(w, rest, end);
  }

  lemma EncodeWordsSnoc(ws: seq<string>, w: string)
    ensures EncodeWords(ws + [w]) == EncodeWords(ws) + EncodeWord(w)
  {
    assert (ws + [w])[..|ws|] == ws;
  }

  lemma {:induction false} EncodeWordsConcat(vs: seq<string>, ws: seq<string>)
    ensures EncodeWords(vs + ws) == EncodeWords(vs) + EncodeWords(ws)
  {
    if ws == [] {
      assert vs + ws == vs;
    } else {
      var n := |ws| - 1;
      var init, last := EncodeWords(ws[..n]), EncodeWord(ws[n]);
      assert EncodeWords(ws) == init + last;
      assert vs + ws == (vs + ws[..n]) + [ws[n]];
      EncodeWordsConcat(vs, ws[..n]);
      EncodeWordsSnoc(vs + ws[..n], ws[n]);
      hide EncodeWords, EncodeWord;
      Text.Associative(EncodeWords(vs), init, last);
    }
  }

  lemma EncodeWordsCons(w: string, ws: seq<string>)
    ensures EncodeWords([w] + ws) == EncodeWord(w) + EncodeWords(ws)
  {
    EncodeWordsConcat([w], ws);
    assert [w] == [] + [w];
    EncodeWordsSnoc([], w);
    assert EncodeWords([w]) == EncodeWord(w);
  }

  /** Parsing goes on from any sentence already built. */
  function ParseFrom(sen: Sentence, ws: seq<string>): Option<Sentence>
    requires NonEmptyWords(ws)
    decreases |ws|
  {
    if ws == [] then Some(sen)
    else
      match AddWord(sen, ws[0])
      case None => None
      case Some(next) => ParseFrom(next, ws[1..])
  }

  lemma {:induction false} ParseFromSnoc(sen: Sentence, ws: seq<string>, w: string)
    requires NonEmptyWords(ws) && w != []
    ensures NonEmptyWords(ws + [w])
    ensures ParseFrom(sen, ws + [w]) ==
            match ParseFrom(sen, ws) case None => None case Some(s) => AddWord(s, w)
    decreases |ws|
  {
    if ws == [] {
      assert ws + [w] == [w];
      assert [w][1..] == [];
    } else {
      assert (ws + [w])[1..] == ws[1..] + [w];
      match AddWord(sen, ws[0])
      case None =>
      case Some(next) => ParseFromSnoc(next, ws[1..], w);
    }
  }

  lemma {:induction false} ParseIsParseFrom(ws: seq<string>)
    requires NonEmptyWords(ws)
    ensures Parse(ws) == ParseFrom(EMPTY_SENTENCE, ws)
  {
    if ws != [] {
      var n := |ws| - 1;
      ParseIsParseFrom(ws[..n]);
      ParseFromSnoc(EMPTY_SENTENCE, ws[..n], ws[n]);
      assert ws == ws[..n] + [ws[n]];
    }
  }

  lemma EncodeSentenceCons(ws: seq<string>)
    requires ws != []
    ensures EncodeSentence(ws) == EncodeWord(ws[0]) + EncodeSentence(ws[1..])
  {
    hide EncodeWord, EncodeWords;
    assert ws == [ws[0]] + ws[1..];
    EncodeWordsCons(ws[0], ws[1..]);
    Text.Associative(EncodeWord(ws[0]), EncodeWords(ws[1..]), EncodeWord(""));
  }

  lemma EncodedTail(ws: seq<string>, rest: string)
    requires ws != []
    ensures EncodeSentence(ws) + rest == EncodeWord(ws[0]) + (EncodeSentence(ws[1..]) + rest)
  {
    hide EncodeSentence, EncodeWord;
    EncodeSentenceCons(ws);
    Text.Associative(EncodeWord(ws[0]), EncodeSentence(ws[1..]), rest);
  }

  lemma EncodedNothing()
    ensures EncodeSentence([]) == EncodeWord("")
  {
  }

  /** One word of a sentence is read and added, or the sentence is rejected for it. */
  lemma ReadOneWord(sen: Sentence, w: string, rest: string, end: End)
    requires w != [] && |w| < LIMIT
    ensures match AddWord(sen, w)
            case None => ReadSentenceFrom(sen, EncodeWord(w) + rest, end).Failed?
                         && ReadSentenceFrom(sen, EncodeWord(w) + rest, end).fault.InvalidWord?
            case Some(next) => ReadSentenceFrom(sen, EncodeWord(w) + rest, end) == ReadSentenceFrom(next, rest, end)
  {
    hide EncodeWord, ReadWord, AddWord;
    WordRoundTrip(w, rest, end);
  }

  lemma ReadLastWord(sen: Sentence, rest: string, end: End)
    ensures ReadSentenceFrom(sen, EncodeWord("") + rest, end) == Got(sen, rest)
  {
    hide EncodeWord, ReadWord, AddWord;
    WordRoundTrip("", rest, end);
  }

  lemma NoWordNoSentence(sen: Sentence, input: string, end: End)
    requires ReadWord(input, end).Failed?
    ensures ReadSentenceFrom(sen, input, end).Failed?
  {
    hide ReadWord;
  }

  lemma {:induction false} ReadBackFrom(sen: Sentence, ws: seq<string>, rest: string, end: End)
    requires NonEmptyWords(ws) && Fits(ws)
    requires ParseFrom(sen, ws).Some?
    ensures ReadSentenceFrom(sen, EncodeSentence(ws) + rest, end) == Got(ParseFrom(sen, ws).value, rest)
    decreases |ws|
  {
    hide EncodeSentence, EncodeWord, ReadWord, AddWord, ReadSentenceFrom;
    if ws == [] {
      EncodedNothing();
      ReadLastWord(sen, rest, end);
    } else {
      var tail := EncodeSentence(ws[1..]) + rest;
      EncodedTail(ws, rest);
      ReadOneWord(sen, ws[0], tail, end);
      ReadBackFrom(AddWord(sen, ws[0]).value, ws[1..], rest, end);
    }
  }

  /** A sentence of accepted words is read back as the sentence those words stand for, and the
      reader stops exactly at its end. */
  lemma SentenceRoundTrip(ws: seq<string>, rest: string, end: End)
    requires NonEmptyWords(ws) && Fits(ws) && Parse(ws).Some?
    ensures ReadSentence(EncodeSentence(ws) + rest, end) == Got(Parse(ws).value, rest)
  {
    ParseIsParseFrom(ws);
    ReadBackFrom(EMPTY_SENTENCE, ws, rest, end);
  }

  lemma {:induction false} RejectedFrom(sen: Sentence, ws: seq<string>, rest: string, end: End)
    requires NonEmptyWords(ws) && Fits(ws)
    requires ParseFrom(sen, ws).None?
    ensures ReadSentenceFrom(sen, EncodeSentence(ws) + rest, end).Failed?
    ensures ReadSentenceFrom(sen, EncodeSentence(ws) + rest, end).fault.InvalidWord?
    decreases |ws|
  {
    hide EncodeSentence, EncodeWord, ReadWord, AddWord, ReadSentenceFrom;
    var tail := EncodeSentence(ws[1..]) + rest;
    EncodedTail(ws, rest);
    ReadOneWord(sen, ws[0], tail, end);
    match AddWord(sen, ws[0])
    case None =>
    case Some(next) => RejectedFrom(next, ws[1..], rest, end);
  }

  /** Exactly the word lists that `Parse` accepts come back as a sentence. */
  lemma ReadsExactlyWhatParses(ws: seq<string>, rest: string, end: End)
    requires NonEmptyWords(ws) && Fits(ws)
    ensures ReadSentence(EncodeSentence(ws) + rest, end).Got? <==> Parse(ws).Some?
  {
    ParseIsParseFrom(ws);
    if Parse(ws).Some? {
      SentenceRoundTrip(ws, rest, end);
    } else {
      RejectedFrom(EMPTY_SENTENCE, ws, rest, end);
    }
  }

  predicate Readable(ws: seq<string>) {
    NonEmptyWords(ws) && Fits(ws) && Parse(ws).Some?
  }

  function ParseAll(ss: seq<seq<string>>): seq<Sentence>
    requires forall i :: 0 <= i < |ss| ==> Readable(ss[i])
  {
    if ss == [] then [] else
      assert Readable(ss[0]);
      [Parse(ss[0]).value] + ParseAll(ss[1..])
  }

  lemma {:induction false} EncodeAllSnoc(ss: seq<seq<string>>, ws: seq<string>)
    ensures EncodeAll(ss + [ws]) == EncodeAll(ss) + EncodeSentence(ws)
    decreases |ss|
  {
    hide EncodeSentence;
    if ss == [] {
      assert ss + [ws] == [ws] && [ws][1..] == [];
      assert EncodeAll([]) == [] && EncodeSentence(ws) + [] == EncodeSentence(ws);
    } else {
      assert (ss + [ws])[0] == ss[0] && (ss + [ws])[1..] == ss[1..] + [ws];
      EncodeAllSnoc(ss[1..], ws);
      Text.Associative(EncodeSentence(ss[0]), EncodeAll(ss[1..]), EncodeSentence(ws));
    }
  }

  /** Any sequence of readable sentences comes back in order, consuming exactly its bytes. */
  lemma {:induction false} StreamRoundTrip(ss: seq<seq<string>>, rest: string, end: End)
    requires forall i :: 0 <= i < |ss| ==> Readable(ss[i])
    ensures ReadSentences(EncodeAll(ss) + rest, end, |ss|) == Got(ParseAll(ss), rest)
  {
    if ss == [] {
      assert EncodeAll(ss) + rest == rest;
    } else {
      var tail := EncodeAll(ss[1..]) + rest;
      Text.Associative(EncodeSentence(ss[0]), EncodeAll(ss[1..]), rest);
      SentenceRoundTrip(ss[0], tail, end);
      StreamRoundTrip(ss[1..], rest, end);
    }
  }

  // ----- unfinished input -----

  lemma TooFewBytes(head: char, high: nat, size: nat, tail: string, end: End)
    requires Announces(head, high, size) && |tail| < size
    ensures ReadLength([head] + tail, end).Failed?
  {
    ReadNumberSplits([head], tail, end);
    NumberOf1(head);
    hide Number;
  }

  /** A strict prefix of an encoded length does not decode. */
  lemma CutLength(l: nat, n: nat, end: End)
    requires n < |EncodeLength(l)|
    ensures ReadLength(EncodeLength(l)[..n], end).Failed?
  {
    if n > 0 {
      hide EncodeLength, ReadLength;
      var p := EncodeLength(l)[..n];
      assert p == [p[0]] + p[1..];
      var high := EncodedParts(l);
      TooFewBytes(p[0], high, |EncodeLength(l)| - 1, p[1..], end);
    }
  }

  lemma CutWord(w: string, n: nat, end: End)
    requires |w| < LIMIT && n < |EncodeWord(w)|
    ensures ReadWord(EncodeWord(w)[..n], end).Failed?
  {
    var p := EncodeLength(|w|);
    if n < |p| {
      assert EncodeWord(w)[..n] == p[..n];
      CutLength(|w|, n, end);
    } else {
      assert EncodeWord(w)[..n] == p + w[..n - |p|];
      LengthReadBack(|w|, w[..n - |p|], end);
    }
  }

  lemma {:induction false} CutSentenceFrom(sen: Sentence, ws: seq<string>, n: nat, end: End)
    requires NonEmptyWords(ws) && Fits(ws)
    requires n < |EncodeSentence(ws)|
    ensures ReadSentenceFrom(sen, EncodeSentence(ws)[..n], end).Failed?
    decreases |ws|
  {
    if ws == [] {
      assert EncodeSentence(ws)[..n] == EncodeWord("")[..n];
      CutWord("", n, end);
    } else {
      hide EncodeSentence, EncodeWord, ReadWord, AddWord, ReadSentenceFrom;
      var head, tail := EncodeWord(ws[0]), EncodeSentence(ws[1..]);
      EncodeSentenceCons(ws);
      if n < |head| {
        assert EncodeSentence(ws)[..n] == head[..n];
        CutWord(ws[0], n, end);
        NoWordNoSentence(sen, head[..n], end);
      } else {
        assert EncodeSentence(ws)[..n] == head + tail[..n - |head|];
        ReadOneWord(sen, ws[0], tail[..n - |head|], end);
        match AddWord(sen, ws[0])
        case None =>
        case Some(next) => CutSentenceFrom(next, ws[1..], n - |head|, end);
      }
    }
  }

  /** A strict prefix of one encoded sentence never yields a sentence, however the stream ends. */
  lemma UnfinishedSentenceIsNotRead(ws: seq<string>, n: nat, end: End)
    requires NonEmptyWords(ws) && Fits(ws)
    requires n < |EncodeSentence(ws)|
    ensures ReadSentence(EncodeSentence(ws)[..n], end).Failed?
  {
    CutSentenceFrom(EMPTY_SENTENCE, ws, n, end);
  }
}
