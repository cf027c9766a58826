/** Commands and how they are rendered: as the words of a sentence, and as a console line
    (transport/contract.go, client_transport.go:187-200). */
module Commands {
  import opened Protocol
  import opened Codec
  import opened CodecProofs
  import opened Text

  datatype Command = Command(
    path: string, verb: string, attrs: map<string, string>,
    queries: seq<string>, proplist: seq<string>, script: string)

  function ScriptCommand(s: string): Command {
    Command("", "", map[], [], [], s)
  }

  // ----- words -----

  function TrimSlashes(s: string): string {
    if s != [] && s[|s| - 1] == '/' then TrimSlashes(s[..|s| - 1]) else s
  }

  function CommandWord(c: Command): string {
    if c.verb == "" then c.path else TrimSlashes(c.path) + "/" + c.verb
  }

  function AttributeWord(k: string, v: string): string {
    "=" + k + "=" + v
  }

  function AttributeWords(ks: seq<string>, attrs: map<string, string>): seq<string>
    requires forall k :: k in ks ==> k in attrs
  {
    if ks == [] then []
    else AttributeWords(ks[..|ks| - 1], attrs) + [AttributeWord(ks[|ks| - 1], attrs[ks[|ks| - 1]])]
  }

  function QueryWords(qs: seq<string>): seq<string> {
    if qs == [] then [] else QueryWords(qs[..|qs| - 1]) + ["?" + qs[|qs| - 1]]
  }

  function ProplistWords(ps: seq<string>): seq<string> {
    if ps != [] then [".proplist=" + Join(ps, ",")] else []
  }

  lemma ListedKeys(m: map<string, string>)
    ensures forall k :: k in Listed(m.Keys) <==> k in m
  {
    assert forall k :: k in Listed(m.Keys) <==> k in Elements(Listed(m.Keys));
  }

  ghost function WordsOf(c: Command): seq<string> {
    ListedKeys(c.attrs);
    if c.script != "" then ["/execute", "=script=" + c.script, "=as-string="]
    else
      [CommandWord(c)] + AttributeWords(Listed(c.attrs.Keys), c.attrs) + QueryWords(c.queries)
      + ProplistWords(c.proplist)
  }

  /** `Words`. */
  method Words(c: Command) returns (words: seq<string>)
    ensures words == WordsOf(c)
  {
    hide CommandWord, AttributeWord, Join;
    if c.script != "" {
      return ["/execute", "=script=" + c.script, "=as-string="];
    }
    ListedKeys(c.attrs);
    words := [CommandWord(c)];
    var keys := SortedKeys(c.attrs);
    var i := 0;
    while i < |keys|
      invariant i <= |keys| && words == [CommandWord(c)] + AttributeWords(keys[..i], c.attrs)
    {
      assert keys[..i + 1][..i] == keys[..i];
      words := words + [AttributeWord(keys[i], c.attrs[keys[i]])];
      i := i + 1;
    }
    assert keys[..i] == keys;
    var j := 0;
    while j < |c.queries|
      invariant j <= |c.queries|
      invariant words == [CommandWord(c)] + AttributeWords(keys, c.attrs) + QueryWords(c.queries[..j])
    {
      assert c.queries[..j + 1][..j] == c.queries[..j];
      words := words + ["?" + c.queries[j]];
      j := j + 1;
    }
    assert c.queries[..j] == c.queries;
    if c.proplist != [] {
      words := words + [".proplist=" + Join(c.proplist, ",")];
    }
  }

  // ----- reading a command back -----

  function Pairs(ks: seq<string>, attrs: map<string, string>): seq<Pair>
    requires forall k :: k in ks ==> k in attrs
  {
    if ks == [] then [] else Pairs(ks[..|ks| - 1], attrs) + [Pair(ks[|ks| - 1], attrs[ks[|ks| - 1]])]
  }

  /** The last value of each key, as the reader fills `Map`. */
  function MapOf(ps: seq<Pair>): map<string, string> {
    if ps == [] then map[] else MapOf(ps[..|ps| - 1])[ps[|ps| - 1].key := ps[|ps| - 1].value]
  }

  ghost predicate KeysFree(ps: seq<Pair>) {
    forall i :: 0 <= i < |ps| ==> Free(ps[i].key, '=')
  }

  /** What the reader makes of an attribute word: the key ends at the first `=` after the first
      character. */
  lemma SplitOfAttribute(k: string, v: string)
    ensures Free(k, '=') ==> SplitAttribute(AttributeWord(k, v)) == Pair(k, v)
    ensures Free(SplitAttribute(AttributeWord(k, v)).key, '=')
  {
    var body := AttributeWord(k, v)[1..];
    assert body == k + "=" + v;
    assert body[|k|] == '=';
    var i := Find(body, '=');
    if Free(k, '=') {
      assert forall j :: 0 <= j < |k| ==> body[j] == k[j];
      assert i == |k|;
      assert body[..i] == k && body[i + 1..] == v;
    }
  }

  lemma AttributeIsAccepted(sen: Sentence, k: string, v: string)
    requires sen.word != ""
    ensures AttributeWord(k, v) != []
    ensures var p := SplitAttribute(AttributeWord(k, v));
            AddWord(sen, AttributeWord(k, v)) ==
            Some(sen.(list := sen.list + [p], attrs := sen.attrs[p.key := p.value]))
  {
    assert AttributeWord(k, v)[0] == '=';
    assert !(TAG_PREFIX <= AttributeWord(k, v));
  }

  lemma ParseSnoc(ws: seq<string>, w: string)
    requires NonEmptyWords(ws) && w != []
    ensures NonEmptyWords(ws + [w])
    ensures Parse(ws + [w]) == match Parse(ws) case None => None case Some(s) => AddWord(s, w)
  {
    assert (ws + [w])[..|ws|] == ws;
  }

  lemma ParseFirst(w: string)
    requires w != []
    ensures NonEmptyWords([w]) && Parse([w]) == Some(Sentence(w, "", [], map[]))
  {
    assert [w] == [] + [w];
    ParseSnoc([], w);
  }

  /** The reader's view of rendered attributes, for any keys. */
  lemma {:induction false} ParseAttributes(w: string, ks: seq<string>, attrs: map<string, string>)
    requires w != [] && forall k :: k in ks ==> k in attrs
    ensures var ws := [w] + AttributeWords(ks, attrs);
            && NonEmptyWords(ws) && Parse(ws).Some?
            && Parse(ws).value.word == w && Parse(ws).value.tag == ""
            && KeysFree(Parse(ws).value.list) && Parse(ws).value.attrs == MapOf(Parse(ws).value.list)
            && ((forall i :: 0 <= i < |ks| ==> Free(ks[i], '=')) ==> Parse(ws).value.list == Pairs(ks, attrs))
  {
    if ks == [] {
      ParseFirst(w);
      assert [w] + [] == [w];
    } else {
      var n := |ks| - 1;
      var init := [w] + AttributeWords(ks[..n], attrs);
      var last := AttributeWord(ks[n], attrs[ks[n]]);
      ParseAttributes(w, ks[..n], attrs);
      AttributeIsAccepted(Parse(init).value, ks[n], attrs[ks[n]]);
      ParseSnoc(init, last);
      SplitOfAttribute(ks[n], attrs[ks[n]]);
      assert [w] + AttributeWords(ks, attrs) == init + [last];
      var p := SplitAttribute(last);
      MapOfSnoc(Parse(init).value.list, p);
    }
  }

  lemma MapOfSnoc(ps: seq<Pair>, p: Pair)
    ensures MapOf(ps + [p]) == MapOf(ps)[p.key := p.value]
  {
    assert (ps + [p])[..|ps|] == ps;
  }

  lemma {:induction false} MapOfPairs(ks: seq<string>, attrs: map<string, string>)
    requires forall k :: k in ks ==> k in attrs
    ensures MapOf(Pairs(ks, attrs)) == map k | k in attrs && k in ks :: attrs[k]
  {
    if ks != [] {
      var n := |ks| - 1;
      MapOfPairs(ks[..n], attrs);
      MapOfSnoc(Pairs(ks[..n], attrs), Pair(ks[n], attrs[ks[n]]));
      assert ks == ks[..n] + [ks[n]];
    }
  }

  lemma {:induction false} MapOfKeys(ps: seq<Pair>, k: string)
    requires k in MapOf(ps) && KeysFree(ps)
    ensures Free(k, '=')
  {
    var n := |ps| - 1;
    assert KeysFree(ps[..n]) by {
      forall i | 0 <= i < n ensures Free(ps[..n][i].key, '=') { assert ps[..n][i] == ps[i]; }
    }
    if k != ps[n].key {
      MapOfKeys(ps[..n], k);
    }
  }

  ghost predicate Plain(c: Command) {
    c.script == "" && CommandWord(c) != "" && c.queries == [] && c.proplist == []
  }

  /** The sentence a plain command becomes carries its command word and no tag; its map equals
      `Attributes` if and only if no attribute name contains `=`, and then the pairs come in the
      order of their keys. */
  lemma CommandReadBack(c: Command)
    requires Plain(c)
    ensures NonEmptyWords(WordsOf(c)) && Parse(WordsOf(c)).Some?
    ensures var sen := Parse(WordsOf(c)).value;
            && sen.word == CommandWord(c) && sen.tag == ""
            && (sen.attrs == c.attrs <==> forall k :: k in c.attrs ==> Free(k, '='))
    ensures (forall k :: k in c.attrs ==> Free(k, '=')) ==>
              (forall k :: k in Listed(c.attrs.Keys) <==> k in c.attrs)
              && Parse(WordsOf(c)).value.list == Pairs(Listed(c.attrs.Keys), c.attrs)
  {
    var ks := Listed(c.attrs.Keys);
    ListedKeys(c.attrs);
    assert WordsOf(c) == [CommandWord(c)] + AttributeWords(ks, c.attrs);
    ParseAttributes(CommandWord(c), ks, c.attrs);
    var sen := Parse(WordsOf(c)).value;
    if forall k :: k in c.attrs ==> Free(k, '=') {
      MapOfPairs(ks, c.attrs);
    } else {
      var k :| k in c.attrs && !Free(k, '=');
      if k in sen.attrs {
        MapOfKeys(sen.list, k);
      }
    }
  }

  /** From the command to the wire and back, with the tag word a run appends. */
  lemma CommandRoundTrip(c: Command, tag: string, rest: string, end: End) returns (sen: Sentence)
    requires Plain(c) && (forall k :: k in c.attrs ==> Free(k, '='))
    requires Fits(WordsOf(c) + [TAG_PREFIX + tag])
    ensures ReadSentence(EncodeSentence(WordsOf(c) + [TAG_PREFIX + tag]) + rest, end) == Got(sen, rest)
    ensures sen.word == CommandWord(c) && sen.tag == tag && sen.attrs == c.attrs
  {
    hide WordsOf, ReadSentence, EncodeSentence;
    CommandReadBack(c);
    var w := TAG_PREFIX + tag;
    WordsNotEmpty(c);
    ReadSentencesHaveForm(WordsOf(c));
    ParseSnoc(WordsOf(c), w);
    assert w[5..] == tag && TAG_PREFIX <= w;
    sen := Parse(WordsOf(c) + [w]).value;
    SentenceRoundTrip(WordsOf(c) + [w], rest, end);
  }

  /** Query and proplist words, which commands may send, are words `ReadSentence` rejects. */
  lemma {:induction false} RejectedAfter(ws: seq<string>, more: seq<string>)
    requires NonEmptyWords(ws) && NonEmptyWords(more) && Parse(ws).None?
    ensures NonEmptyWords(ws + more) && Parse(ws + more).None?
  {
    if more == [] {
      assert ws + more == ws;
    } else {
      var n := |more| - 1;
      RejectedAfter(ws, more[..n]);
      assert ws + more == (ws + more[..n]) + [more[n]];
      ParseSnoc(ws + more[..n], more[n]);
    }
  }

  lemma {:induction false} QueryWordsNonEmpty(qs: seq<string>)
    ensures NonEmptyWords(QueryWords(qs)) && |QueryWords(qs)| == |qs|
    ensures qs != [] ==> QueryWords(qs)[0] == "?" + qs[0]
  {
    if qs != [] {
      QueryWordsNonEmpty(qs[..|qs| - 1]);
    }
  }

  lemma OddWordRejected(sen: Sentence, w: string)
    requires sen.word != "" && w != [] && (w[0] == '?' || ".proplist=" <= w)
    ensures AddWord(sen, w).None?
  {
    if ".proplist=" <= w {
      assert w[1] == 'p' && TAG_PREFIX[1] == 't';
    }
  }

  lemma OddWordsRejected(start: seq<string>, odd: seq<string>)
    requires NonEmptyWords(start) && start != [] && Parse(start).Some? && NonEmptyWords(odd)
    requires odd != [] && (odd[0][0] == '?' || ".proplist=" <= odd[0])
    ensures NonEmptyWords(start + odd) && Parse(start + odd).None?
  {
    ReadSentencesHaveForm(start);
    OddWordRejected(Parse(start).value, odd[0]);
    ParseSnoc(start, odd[0]);
    RejectedAfter(start + [odd[0]], odd[1..]);
    assert start + odd == (start + [odd[0]]) + odd[1..];
  }

  lemma WordsNotEmpty(c: Command)
    ensures WordsOf(c) != []
  {
  }

  lemma OddWords(c: Command)
    requires c.script == ""
    ensures var odd := QueryWords(c.queries) + ProplistWords(c.proplist);
            && WordsOf(c) == WordsOf(c.(queries := [], proplist := [])) + odd
            && NonEmptyWords(odd) && (odd == [] <==> c.queries == [] && c.proplist == [])
            && (odd != [] ==> odd[0][0] == '?' || ".proplist=" <= odd[0])
  {
    QueryWordsNonEmpty(c.queries);
    ListedKeys(c.attrs);
    hide QueryWords, AttributeWords;
    if c.queries == [] {
      assert QueryWords(c.queries) == [];
    }
    assert QueryWords([]) == [] by { QueryWordsNonEmpty([]); }
  }

  /** A command without script is accepted by the sentence reader if and only if it has neither
      queries nor a proplist. */
  lemma ReadableExactlyWithoutQueries(c: Command)
    requires c.script == "" && CommandWord(c) != ""
    ensures NonEmptyWords(WordsOf(c))
    ensures Parse(WordsOf(c)).Some? <==> c.queries == [] && c.proplist == []
  {
    hide WordsOf, Parse, QueryWords, ProplistWords;
    var plain := c.(queries := [], proplist := []);
    assert CommandWord(plain) == CommandWord(c);
    CommandReadBack(plain);
    OddWords(c);
    var start, odd := WordsOf(plain), QueryWords(c.queries) + ProplistWords(c.proplist);
    assert start != [] by { WordsNotEmpty(plain); }
    if odd != [] {
      OddWordsRejected(start, odd);
    }
  }

  // ----- raw words of a sentence -----

  function PairWords(ps: seq<Pair>): seq<string> {
    if ps == [] then []
    else PairWords(ps[..|ps| - 1]) + [AttributeWord(ps[|ps| - 1].key, ps[|ps| - 1].value)]
  }

  function RawWordsOf(sen: Sentence): seq<string> {
    [sen.word] + PairWords(sen.list) + (if sen.tag != "" then [TAG_PREFIX + sen.tag] else [])
  }

  /** `rawSentenceWords`. */
  method RawSentenceWords(sen: Sentence) returns (words: seq<string>)
    ensures words == RawWordsOf(sen)
  {
    words := [sen.word];
    var i := 0;
    while i < |sen.list|
      invariant i <= |sen.list| && words == [sen.word] + PairWords(sen.list[..i])
    {
      assert sen.list[..i + 1][..i] == sen.list[..i];
      words := words + ["=" + sen.list[i].key + "=" + sen.list[i].value];
      i := i + 1;
    }
    assert sen.list[..i] == sen.list;
    if sen.tag != "" {
      words := words + [".tag=" + sen.tag];
    }
  }

  ghost predicate ReadForm(sen: Sentence) {
    KeysFree(sen.list) && sen.attrs == MapOf(sen.list)
  }

  lemma SplitKeyFree(w: string)
    requires w != [] && w[0] == '='
    ensures Free(SplitAttribute(w).key, '=')
  {
  }

  /** Every sentence read has its map made from its list, with keys without `=`. */
  lemma {:induction false} ReadSentencesHaveForm(ws: seq<string>)
    requires NonEmptyWords(ws) && Parse(ws).Some?
    ensures ReadForm(Parse(ws).value)
    ensures ws != [] ==> Parse(ws).value.word == ws[0]
  {
    if ws != [] {
      var n := |ws| - 1;
      ReadSentencesHaveForm(ws[..n]);
      FormKept(Parse(ws[..n]).value, ws[n]);
    }
  }

  lemma FormKept(sen: Sentence, w: string)
    requires ReadForm(sen) && w != [] && AddWord(sen, w).Some?
    ensures ReadForm(AddWord(sen, w).value)
    ensures AddWord(sen, w).value.word == if sen.word == "" then w else sen.word
  {
    hide MapOf, SplitAttribute, KeysFree;
    if sen.word != "" && !(TAG_PREFIX <= w) && w[0] == '=' {
      SplitKeyFree(w);
      KeysFreeSnoc(sen.list, SplitAttribute(w));
      MapOfSnoc(sen.list, SplitAttribute(w));
    }
  }

  lemma KeysFreeSnoc(ps: seq<Pair>, p: Pair)
    requires KeysFree(ps) && Free(p.key, '=')
    ensures KeysFree(ps + [p])
  {
  }

  lemma {:induction false} ParsePairs(w: string, ps: seq<Pair>)
    requires w != [] && KeysFree(ps)
    ensures NonEmptyWords([w] + PairWords(ps))
    ensures Parse([w] + PairWords(ps)) == Some(Sentence(w, "", ps, MapOf(ps)))
  {
    if ps == [] {
      ParseFirst(w);
      assert [w] + [] == [w];
    } else {
      var n := |ps| - 1;
      var last := AttributeWord(ps[n].key, ps[n].value);
      var init := [w] + PairWords(ps[..n]);
      assert KeysFree(ps[..n]) by {
        forall i | 0 <= i < n ensures Free(ps[..n][i].key, '=') { assert ps[..n][i] == ps[i]; }
      }
      ParsePairs(w, ps[..n]);
      AttributeIsAccepted(Parse(init).value, ps[n].key, ps[n].value);
      SplitOfAttribute(ps[n].key, ps[n].value);
      ParseSnoc(init, last);
      assert [w] + PairWords(ps) == init + [last];
      assert ps == ps[..n] + [ps[n]];
    }
  }

  /** Writing the raw words of any sentence that was read gives a sentence that reads back the
      same; the empty sentence is the only exception. */
  lemma RawWordsRoundTrip(ws: seq<string>, rest: string, end: End)
    requires NonEmptyWords(ws) && Parse(ws).Some? && ws != []
    requires Fits(RawWordsOf(Parse(ws).value))
    ensures NonEmptyWords(RawWordsOf(Parse(ws).value))
    ensures Parse(RawWordsOf(Parse(ws).value)) == Parse(ws)
    ensures ReadSentence(EncodeSentence(RawWordsOf(Parse(ws).value)) + rest, end) == Got(Parse(ws).value, rest)
  {
    var sen := Parse(ws).value;
    ReadSentencesHaveForm(ws);
    ParsePairs(sen.word, sen.list);
    var init := [sen.word] + PairWords(sen.list);
    if sen.tag != "" {
      var w := TAG_PREFIX + sen.tag;
      assert TAG_PREFIX <= w && w[5..] == sen.tag;
      ParseSnoc(init, w);
      assert RawWordsOf(sen) == init + [w];
    } else {
      assert RawWordsOf(sen) == init;
    }
    SentenceRoundTrip(RawWordsOf(sen), rest, end);
  }
}
