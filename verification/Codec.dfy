/** The wire format of proto/writer.go and proto/reader.go: a word is a variable-length length
    prefix followed by its bytes, a sentence is a sequence of words ended by an empty word.
    A byte is a char below 256. */
module Codec {
  import opened Protocol
  import Text

  const LIMIT: nat := 0x1_0000_0000

  /** Go's conversion `byte(n)`. */
  function Byte(n: nat): char {
    (n % 0x100) as char
  }

  /** `encodeLength`: the top bits of the first byte tell how many bytes follow. `Byte` makes the
      five-byte form drop everything above 32 bits, as the conversions of the source do. */
  function EncodeLength(l: nat): string {
    if l < 0x80 then
      [Byte(l)]
    else if l < 0x4000 then
      [Byte(0x80 + l / 0x100), Byte(l)]
    else if l < 0x20_0000 then
      [Byte(0xC0 + l / 0x1_0000), Byte(l / 0x100), Byte(l)]
    else if l < 0x1000_0000 then
      [Byte(0xE0 + l / 0x100_0000), Byte(l / 0x1_0000), Byte(l / 0x100), Byte(l)]
    else
      [Byte(0xF0), Byte(l / 0x100_0000), Byte(l / 0x1_0000), Byte(l / 0x100), Byte(l)]
  }

  function EncodeWord(w: string): string {
    EncodeLength(|w|) + w
  }

  function EncodeWords(ws: seq<string>): string {
    if ws == [] then [] else EncodeWords(ws[..|ws| - 1]) + EncodeWord(ws[|ws| - 1])
  }

  function EncodeSentence(ws: seq<string>): string {
    EncodeWords(ws) + EncodeWord("")
  }

  function EncodeAll(ss: seq<seq<string>>): string {
    if ss == [] then [] else EncodeSentence(ss[0]) + EncodeAll(ss[1..])
  }

  /** How the byte stream ends: orderly, or with an error of the connection. */
  datatype End = Eof | Broken(code: int)

  datatype Fault = EndOfInput | UnexpectedEnd | Connection(code: int) | InvalidWord(word: string)

  /** A value read from the front of the input and what is left of the input. */
  datatype Decoded<+T> = Got(value: T, rest: string) | Failed(fault: Fault)

  /** `io.ReadFull` for `n` bytes. */
  function ReadFull(input: string, end: End, n: nat): Decoded<string> {
    if n <= |input| then Got(input[..n], input[n..])
    else
      match end
      case Broken(code) => Failed(Connection(code))
      case Eof => Failed(if input == [] then EndOfInput else UnexpectedEnd)
  }

  /** Big-endian value of some bytes: `num<<8 | ch` from left to right. */
  function Number(b: string): nat {
    if b == [] then 0 else Number(b[..|b| - 1]) * 0x100 + b[|b| - 1] as nat
  }

  function ReadNumber(input: string, end: End, size: nat): Decoded<nat> {
    match ReadFull(input, end, size)
    case Failed(e) => Failed(e)
    case Got(b, rest) => Got(Number(b), rest)
  }

  /** `readLength`. First bytes 0xF8 to 0xFF match no case and are returned as they are. */
  function ReadLength(input: string, end: End): Decoded<nat> {
    match ReadNumber(input, end, 1)
    case Failed(e) => Failed(e)
    case Got(l, more) =>
      if l < 0x80 then Got(l, more)
      else if l < 0xC0 then Extend(l - 0x80, 1, more, end)
      else if l < 0xE0 then Extend(l - 0xC0, 2, more, end)
      else if l < 0xF0 then Extend(l - 0xE0, 3, more, end)
      else if l < 0xF8 then Extend(0, 4, more, end)
      else Got(l, more)
  }

  /** The bits of the first byte above those of the bytes after it. */
  function Shift(high: nat, size: nat): nat {
    if size == 1 then high * 0x100
    else if size == 2 then high * 0x1_0000
    else if size == 3 then high * 0x100_0000
    else high
  }

  function Extend(high: nat, size: nat, input: string, end: End): Decoded<nat> {
    match ReadNumber(input, end, size)
    case Failed(e) => Failed(e)
    case Got(n, rest) => Got(Shift(high, size) + n, rest)
  }

  function ReadWord(input: string, end: End): Decoded<string> {
    match ReadLength(input, end)
    case Failed(e) => Failed(e)
    case Got(l, rest) => ReadFull(rest, end, l)
  }

  const EMPTY_SENTENCE := Sentence("", "", [], map[])

  const TAG_PREFIX := ".tag="

  /** `SplitN(b[1:], "=", 2)` of an attribute word, with an empty value when there is no second
      `=`. */
  function SplitAttribute(w: string): Pair
    requires w != [] && w[0] == '='
  {
    var body := w[1..];
    var i := Text.Find(body, '=');
    if i < |body| then Pair(body[..i], body[i + 1..]) else Pair(body, "")
  }

  /** One turn of the loop of `ReadSentence` on a non-empty word; `None` is the rejected word. */
  function AddWord(sen: Sentence, w: string): Option<Sentence>
    requires w != []
  {
    if sen.word == "" then Some(sen.(word := w))
    else if TAG_PREFIX <= w then Some(sen.(tag := w[5..]))
    else if w[0] == '=' then
      var p := SplitAttribute(w);
      Some(sen.(list := sen.list + [p], attrs := sen.attrs[p.key := p.value]))
    else None
  }

  predicate NonEmptyWords(ws: seq<string>) {
    forall i :: 0 <= i < |ws| ==> ws[i] != []
  }

  /** The sentence a list of words stands for; `None` when `ReadSentence` rejects one of them. */
  function Parse(ws: seq<string>): Option<Sentence>
    requires NonEmptyWords(ws)
  {
    if ws == [] then Some(EMPTY_SENTENCE)
    else
      match Parse(ws[..|ws| - 1])
      case None => None
      case Some(sen) => AddWord(sen, ws[|ws| - 1])
  }

  lemma ReadLengthConsumes(input: string, end: End)
    ensures ReadLength(input, end).Got? ==> |ReadLength(input, end).rest| < |input|
  {
  }

  lemma ReadWordConsumes(input: string, end: End)
    ensures ReadWord(input, end).Got? ==> |ReadWord(input, end).rest| < |input|
  {
    ReadLengthConsumes(input, end);
  }

  /** `ReadSentence` from the point where `sen` has been built. */
  function ReadSentenceFrom(sen: Sentence, input: string, end: End): Decoded<Sentence>
    decreases |input|
  {
    ReadWordConsumes(input, end);
    match ReadWord(input, end)
    case Failed(e) => Failed(e)
    case Got(w, rest) =>
      if w == [] then Got(sen, rest)
      else
        match AddWord(sen, w)
        case None => Failed(InvalidWord(w))
        case Some(next) => ReadSentenceFrom(next, rest, end)
  }

  function ReadSentence(input: string, end: End): Decoded<Sentence> {
    ReadSentenceFrom(EMPTY_SENTENCE, input, end)
  }

  /** `k` calls of `ReadSentence` in a row. */
  function ReadSentences(input: string, end: End, k: nat): Decoded<seq<Sentence>>
    decreases k
  {
    if k == 0 then Got([], input)
    else
      match ReadSentence(input, end)
      case Failed(e) => Failed(e)
      case Got(sen, rest) =>
        match ReadSentences(rest, end, k - 1)
        case Failed(e) => Failed(e)
        case Got(sens, left) => Got([sen] + sens, left)
  }
}
