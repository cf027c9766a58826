/** The objects that write to and read from the connection: `writer` of proto/writer.go and `reader`
    of proto/reader.go, against the pure wire format of `Codec`. */
module Wire {
  import opened Protocol
  import opened Codec
  import opened CodecProofs
  import opened Multiplexer
  import Text

  // ----- writing -----

  /** `writer`. The outcome of each write to the connection is a parameter: `None` for success,
      `Some(n)` for an error after `n` accepted bytes. */
  class Writer {
    var out: string
    var failed: bool
    var locked: bool

    constructor ()
      ensures AsSink() == Sink("", false) && !locked
    {
      out, failed, locked := "", false, false;
    }

    function AsSink(): Sink
      reads this
    {
      Sink(out, failed)
    }

    /** A second caller waits here until the lock is free. */
    method BeginSentence()
      requires !locked
      modifies this
      ensures locked && AsSink() == old(AsSink())
    {
      locked := true;
    }

    method Write(b: string, fault: Option<nat>)
      modifies this
      ensures AsSink() == WriteBytes(old(AsSink()), b, fault) && locked == old(locked)
    {
      if failed {
        return;
      }
      match fault
      case None =>
        out := out + b;
      case Some(n) =>
        out := out + (if n <= |b| then b[..n] else b);
        failed := true;
    }

    method Flush(flushFails: bool)
      modifies this
      ensures out == old(out) && failed == (old(failed) || flushFails) && locked == old(locked)
    {
      if failed {
        return;
      }
      failed := flushFails;
    }

    /** Two writes, which together act as one write of the encoded word. */
    method WriteWord(word: string, prefixFault: Option<nat>, bodyFault: Option<nat>)
      modifies this
      ensures locked == old(locked)
      ensures AsSink() == WriteBytes(old(AsSink()), EncodeWord(word),
                                     BothFaults(|EncodeLength(|word|)|, prefixFault, bodyFault))
      ensures old(failed) ==> AsSink() == old(AsSink())
      ensures !failed ==> out == old(out) + EncodeWord(word)
      ensures old(out) <= out <= old(out) + EncodeWord(word)
    {
      Write(EncodeLength(|word|), prefixFault);
      Write(word, bodyFault);
      TwoWritesAreOne(old(AsSink()), EncodeLength(|word|), word, prefixFault, bodyFault);
    }

    /** The empty word, the flush and the unlock; the result is the sticky error. */
    method EndSentence(fault: Option<nat>, flushFails: bool) returns (err: Option<Error>)
      requires locked
      modifies this
      ensures !locked && (err.None? <==> !failed)
      ensures AsSink() ==
              var w := WriteBytes(old(AsSink()), EncodeWord(""), fault); w.(failed := w.failed || flushFails)
      ensures old(failed) ==> AsSink() == old(AsSink())
      ensures err.None? ==> out == old(out) + EncodeWord("")
      ensures old(out) <= out <= old(out) + EncodeWord("")
    {
      WriteWord("", fault, None);
      Flush(flushFails);
      locked := false;
      err := if failed then Some(WriteError) else None;
    }

    /** A call's whole sentence, with a fault possible in every write and in the flush: on success
        exactly its encoding has been appended. */
    method WriteSentence(words: seq<string>, prefixFaults: seq<Option<nat>>, bodyFaults: seq<Option<nat>>,
        endFault: Option<nat>, flushFails: bool)
      returns (err: Option<Error>)
      requires !locked && |prefixFaults| == |words| && |bodyFaults| == |words|
      modifies this
      ensures !locked
      ensures old(failed) ==> err.Some? && AsSink() == old(AsSink())
      ensures err.None? ==> out == old(out) + EncodeSentence(words)
      ensures old(out) <= out <= old(out) + EncodeSentence(words)
    {
      hide WriteBytes, EncodeWord, EncodeWords, BothFaults;
      BeginSentence();
      var k := 0;
      assert words[..0] == [] && EncodeWords([]) == [] by { EmptyWords(); }
      while k < |words|
        invariant k <= |words| && locked
        invariant old(failed) ==> AsSink() == old(AsSink())
        invariant !failed ==> out == old(out) + EncodeWords(words[..k])
        invariant old(out) <= out <= old(out) + EncodeWords(words[..k])
      {
        var before := out;
        var start := old(out);
        WriteWord(words[k], prefixFaults[k], bodyFaults[k]);
        assert words[..k + 1] == words[..k] + [words[k]];
        EncodeWordsSnoc(words[..k], words[k]);
        Text.Associative(start, EncodeWords(words[..k]), EncodeWord(words[k]));
        assert before <= out <= before + EncodeWord(words[k]);
        PrefixGrows(start + EncodeWords(words[..k]), EncodeWord(words[k]), out, before);
        k := k + 1;
      }
      assert words[..k] == words;
      var before := out;
      err := EndSentence(endFault, flushFails);
      Text.Associative(old(out), EncodeWords(words), EncodeWord(""));
      PrefixGrows(old(out) + EncodeWords(words), EncodeWord(""), out, before);
    }
  }

  lemma EmptyWords()
    ensures EncodeWords([]) == []
  {
  }

  /** The fault of one write that does what two writes with these faults do. */
  function BothFaults(cut: nat, first: Option<nat>, second: Option<nat>): Option<nat> {
    match first
    case Some(n) => Some(if n <= cut then n else cut)
    case None => if second.Some? then Some(cut + second.value) else None
  }

  lemma TwoWritesAreOne(s: Sink, a: string, b: string, first: Option<nat>, second: Option<nat>)
    ensures WriteBytes(WriteBytes(s, a, first), b, second) == WriteBytes(s, a + b, BothFaults(|a|, first, second))
  {
    Text.Associative(s.out, a, b);
    match first
    case Some(n) =>
      var m := if n <= |a| then n else |a|;
      assert (a + b)[..m] == a[..m];
    case None =>
      if second.Some? && second.value <= |b| {
        assert (a + b)[..|a| + second.value] == a + b[..second.value];
        Text.Associative(s.out, a, b[..second.value]);
      }
  }

  lemma PrefixGrows(whole: string, more: string, out: string, before: string)
    requires before <= whole
    requires out == before || (before == whole && whole <= out <= whole + more)
    ensures out <= whole + more
  {
    if out == before {
      assert (whole + more)[..|whole|] == whole;
    }
  }

  // ----- reading -----

  function Flatten(chunks: seq<string>): string {
    if chunks == [] then [] else chunks[0] + Flatten(chunks[1..])
  }

  /** The connection as a reader sees it: non-empty chunks in some division, then an end. */
  class Source {
    var chunks: seq<string>
    const end: End

    constructor (chunks: seq<string>, end: End)
      requires NonEmptyWords(chunks)
      ensures Valid() && Pending() == Flatten(chunks) && this.end == end
    {
      this.chunks, this.end := chunks, end;
    }

    ghost predicate Valid()
      reads this
    {
      NonEmptyWords(chunks)
    }

    /** All the bytes that have not been read, whatever the division. */
    function Pending(): string
      reads this
    {
      Flatten(chunks)
    }

    /** One `Read` into a buffer of `n` bytes. */
    method Read(n: nat) returns (b: string, ended: bool)
      requires Valid() && n > 0
      modifies this
      ensures Valid() && old(Pending()) == b + Pending()
      ensures ended <==> old(Pending()) == ""
      ensures !ended ==> 0 < |b| <= n
    {
      if chunks == [] {
        return "", true;
      }
      var c := chunks[0];
      ended := false;
      if |c| <= n {
        b := c;
        chunks := chunks[1..];
      } else {
        b := c[..n];
        assert c == c[..n] + c[n..];
        Text.Associative(c[..n], c[n..], Flatten(chunks[1..]));
        chunks := [c[n..]] + chunks[1..];
      }
    }
  }

  /** `reader`: every result depends on the pending bytes alone, not on how they are divided. */
  class Reader {
    const src: Source

    constructor (src: Source)
      ensures this.src == src
    {
      this.src := src;
    }

    /** `io.ReadFull`. */
    method ReadFull(n: nat) returns (b: string, fault: Option<Fault>)
      requires src.Valid()
      modifies src
      ensures src.Valid()
      ensures match Codec.ReadFull(old(src.Pending()), src.end, n)
              case Got(v, rest) => fault.None? && b == v && src.Pending() == rest
              case Failed(e) => fault == Some(e)
    {
      b, fault := "", None;
      var input := src.Pending();
      while |b| < n
        invariant src.Valid() && |b| <= n && input == b + src.Pending()
        decreases n - |b|
      {
        var more, ended := src.Read(n - |b|);
        if ended {
          assert input == b;
          match src.end
          case Broken(code) => return b, Some(Connection(code));
          case Eof => return b, Some(if b == "" then EndOfInput else UnexpectedEnd);
        }
        Text.Associative(b, more, src.Pending());
        b := b + more;
      }
    }

    method ReadNumber(size: nat) returns (num: nat, fault: Option<Fault>)
      requires src.Valid()
      modifies src
      ensures src.Valid()
      ensures match Codec.ReadNumber(old(src.Pending()), src.end, size)
              case Got(v, rest) => fault.None? && num == v && src.Pending() == rest
              case Failed(e) => fault == Some(e)
    {
      num := 0;
      var b;
      b, fault := ReadFull(size);
      if fault.Some? {
        return;
      }
      var rest := src.Pending();
      var k := 0;
      while k < |b|
        invariant src.Valid() && src.Pending() == rest
        invariant k <= |b| && num == Codec.Number(b[..k])
      {
        assert b[..k + 1] == b[..k] + [b[k]];
        NumberSnoc(b[..k], b[k]);
        num := num * 0x100 + b[k] as nat;
        k := k + 1;
      }
      assert b[..k] == b;
    }

    method ReadLength() returns (l: nat, fault: Option<Fault>)
      requires src.Valid()
      modifies src
      ensures src.Valid()
      ensures match Codec.ReadLength(old(src.Pending()), src.end)
              case Got(v, rest) => fault.None? && l == v && src.Pending() == rest
              case Failed(e) => fault == Some(e)
    {
      l, fault := ReadNumber(1);
      if fault.Some? {
        return;
      }
      var n;
      if l < 0x80 {
      } else if l < 0xC0 {
        n, fault := ReadNumber(1);
        l := (l - 0x80) * 0x100 + n;
      } else if l < 0xE0 {
        n, fault := ReadNumber(2);
        l := (l - 0xC0) * 0x1_0000 + n;
      } else if l < 0xF0 {
        n, fault := ReadNumber(3);
        l := (l - 0xE0) * 0x100_0000 + n;
      } else if l < 0xF8 {
        l, fault := ReadNumber(4);
      }
    }

    method ReadWord() returns (w: string, fault: Option<Fault>)
      requires src.Valid()
      modifies src
      ensures src.Valid()
      ensures match Codec.ReadWord(old(src.Pending()), src.end)
              case Got(v, rest) => fault.None? && w == v && src.Pending() == rest
              case Failed(e) => fault == Some(e)
    {
      w := "";
      var l;
      l, fault := ReadLength();
      if fault.Some? {
        return;
      }
      w, fault := ReadFull(l);
    }

    /** `ReadSentence`: the sentence of the pending bytes, for every way they may arrive. */
    method ReadSentence() returns (sen: Sentence, fault: Option<Fault>)
      requires src.Valid()
      modifies src
      ensures src.Valid()
      ensures match Codec.ReadSentence(old(src.Pending()), src.end)
              case Got(v, rest) => fault.None? && sen == v && src.Pending() == rest
              case Failed(e) => fault == Some(e)
      ensures fault.None? ==> |src.Pending()| < |old(src.Pending())|
    {
      sen := EMPTY_SENTENCE;
      while true
        invariant src.Valid() && |src.Pending()| <= |old(src.Pending())|
        invariant Codec.ReadSentence(old(src.Pending()), src.end) == ReadSentenceFrom(sen, src.Pending(), src.end)
        decreases |src.Pending()|
      {
        ReadWordConsumes(src.Pending(), src.end);
        var w;
        w, fault := ReadWord();
        if fault.Some? || w == "" {
          return;
        }
        match AddWord(sen, w)
        case None => return sen, Some(InvalidWord(w));
        case Some(next) => sen := next;
      }
    }
  }
}
