/** Console lines, string literals and the quote check of Gate 1 (transport/contract.go:77-139,
    gate/gate1.go:19-52 and 196-216). A char is a rune here. */
module Quoting {
  import opened Protocol
  import opened Text
  import opened Commands

  const DQ := '"'
  const SQ := '\''
  const BS := '\\'

  // ----- string literals -----

  /** `strings.ReplaceAll` of a single character. */
  function ReplaceAll(s: string, c: char, by_: string): string {
    if s == [] then [] else (if s[0] == c then by_ else [s[0]]) + ReplaceAll(s[1..], c, by_)
  }

  /** `StringLiteral`: backslashes first, then quotes. */
  function StringLiteral(s: string): string {
    [DQ] + ReplaceAll(ReplaceAll(s, BS, [BS, BS]), DQ, [BS, DQ]) + [DQ]
  }

  /** Escaping in one pass. */
  function Escape(s: string): string {
    if s == [] then []
    else (if s[0] == BS || s[0] == DQ then [BS, s[0]] else [s[0]]) + Escape(s[1..])
  }

  lemma {:induction false} ReplaceOfConcat(a: string, b: string, c: char, by_: string)
    ensures ReplaceAll(a + b, c, by_) == ReplaceAll(a, c, by_) + ReplaceAll(b, c, by_)
    decreases |a|
  {
    if a == [] {
      assert a + b == b;
    } else {
      assert (a + b)[1..] == a[1..] + b;
      ReplaceOfConcat(a[1..], b, c, by_);
    }
  }

  /** The two passes in their order are one escape of both characters. */
  lemma {:induction false} TwoPassesEscape(s: string)
    ensures ReplaceAll(ReplaceAll(s, BS, [BS, BS]), DQ, [BS, DQ]) == Escape(s)
  {
    if s != [] {
      TwoPassesEscape(s[1..]);
      var first := if s[0] == BS then [BS, BS] else [s[0]];
      ReplaceOfConcat(first, ReplaceAll(s[1..], BS, [BS, BS]), DQ, [BS, DQ]);
      assert [s[0]][1..] == [] && [BS, BS][1..] == [BS] && [BS][1..] == [];
      assert ReplaceAll([BS], DQ, [BS, DQ]) == [BS];
    }
  }

  /** In the other order they are not: one quote becomes an escaped backslash and a bare quote. */
  lemma OtherOrderBreaks()
    ensures ReplaceAll(ReplaceAll([DQ], DQ, [BS, DQ]), BS, [BS, BS]) == [BS, BS, DQ]
    ensures Escape([DQ]) == [BS, DQ]
  {
    assert [DQ][1..] == [] && [BS, DQ][1..] == [DQ];
    assert ReplaceAll([DQ], DQ, [BS, DQ]) == [BS, DQ];
    assert ReplaceAll([DQ], BS, [BS, BS]) == [DQ];
  }

  datatype Literal = Literal(value: string, rest: string)

  /** A reader of the inside of a literal that knows the escapes `\\` and `\"` and nothing else. */
  function ReadLiteral(t: string): Option<Literal> {
    if t == [] then None
    else if t[0] == DQ then Some(Literal([], t[1..]))
    else if t[0] == BS then
      if |t| > 1 && (t[1] == BS || t[1] == DQ) then Prepend(t[1], ReadLiteral(t[2..])) else None
    else Prepend(t[0], ReadLiteral(t[1..]))
  }

  function Prepend(c: char, l: Option<Literal>): Option<Literal> {
    match l
    case None => None
    case Some(x) => Some(Literal([c] + x.value, x.rest))
  }

  lemma {:induction false} ReadEscaped(s: string, rest: string)
    ensures ReadLiteral(Escape(s) + [DQ] + rest) == Some(Literal(s, rest))
  {
    var t := Escape(s) + [DQ] + rest;
    if s == [] {
      assert t[1..] == rest;
    } else {
      var more := Escape(s[1..]) + [DQ] + rest;
      EscapeStep(s, rest);
      hide ReadLiteral, Escape;
      ReadEscaped(s[1..], rest);
      ReadChar(s[0], more);
      assert s == [s[0]] + s[1..];
    }
  }

  lemma EscapeStep(s: string, rest: string)
    requires s != []
    ensures Escape(s) + [DQ] + rest ==
              (if s[0] == BS || s[0] == DQ then [BS, s[0]] else [s[0]]) + (Escape(s[1..]) + [DQ] + rest)
  {
  }

  lemma ReadChar(c: char, more: string)
    ensures ReadLiteral((if c == BS || c == DQ then [BS, c] else [c]) + more) == Prepend(c, ReadLiteral(more))
  {
    assert ([BS, c] + more)[2..] == more && ([c] + more)[1..] == more;
  }

  /** A literal is read back as exactly the text it was made from, whatever the text. */
  lemma LiteralRoundTrip(s: string, rest: string)
    ensures StringLiteral(s)[0] == DQ
    ensures ReadLiteral((StringLiteral(s) + rest)[1..]) == Some(Literal(s, rest))
  {
    TwoPassesEscape(s);
    ReadEscaped(s, rest);
    assert (StringLiteral(s) + rest)[1..] == Escape(s) + [DQ] + rest;
  }

  const PARSE := ":put [:parse "

  /** The script Gate 1 sends (gate/gate1.go:212). */
  function ParseScript(cli: string): string {
    PARSE + StringLiteral(cli) + "]"
  }

  /** The device reads from the script exactly the command line, with the closing bracket left. */
  lemma ScriptHoldsTheLine(cli: string)
    ensures PARSE <= ParseScript(cli)
    ensures ReadLiteral(ParseScript(cli)[|PARSE| + 1..]) == Some(Literal(cli, "]"))
    ensures |ParseScript(cli)| > |cli|
  {
    LiteralRoundTrip(cli, "]");
    assert ParseScript(cli)[|PARSE| + 1..] == (StringLiteral(cli) + "]")[1..];
    TwoPassesEscape(cli);
    EscapeGrows(cli);
  }

  lemma {:induction false} EscapeGrows(s: string)
    ensures |Escape(s)| >= |s|
    ensures |Escape(s)| == |s| <==> Free(s, BS) && Free(s, DQ)
  {
    if s != [] {
      EscapeGrows(s[1..]);
      assert s == [s[0]] + s[1..];
      assert forall c :: Free(s, c) <==> s[0] != c && Free(s[1..], c);
    }
  }

  // ----- the quote check -----

  datatype Quotes = Quotes(escaped: bool, dq: nat, sq: nat)

  function ScanChar(q: Quotes, c: char): Quotes {
    if q.escaped then q.(escaped := false)
    else if c == BS then q.(escaped := true)
    else if c == DQ then q.(dq := q.dq + 1)
    else if c == SQ then q.(sq := q.sq + 1)
    else q
  }

  function Scan(q: Quotes, s: string): Quotes {
    if s == [] then q else ScanChar(Scan(q, s[..|s| - 1]), s[|s| - 1])
  }

  const NO_QUOTES := Quotes(false, 0, 0)

  predicate Unbalanced(s: string) {
    Scan(NO_QUOTES, s).dq % 2 == 1 || Scan(NO_QUOTES, s).sq % 2 == 1
  }

  /** `HasUnbalancedQuotes`. */
  method HasUnbalancedQuotes(s: string) returns (r: bool)
    ensures r == Unbalanced(s)
  {
    var escaped, dq, sq := false, 0, 0;
    var i := 0;
    while i < |s|
      invariant i <= |s| && dq >= 0 && sq >= 0
      invariant Scan(NO_QUOTES, s[..i]) == Quotes(escaped, dq, sq)
    {
      assert s[..i + 1][..i] == s[..i];
      if escaped {
        escaped := false;
      } else if s[i] == BS {
        escaped := true;
      } else if s[i] == DQ {
        dq := dq + 1;
      } else if s[i] == SQ {
        sq := sq + 1;
      }
      i := i + 1;
    }
    assert s[..i] == s;
    return dq % 2 == 1 || sq % 2 == 1;
  }

  /** The text without its escapes: what is left are the quotes that count. */
  function Unescaped(s: string): string {
    if s == [] then []
    else if s[0] == BS then (if |s| > 1 then Unescaped(s[2..]) else [])
    else [s[0]] + Unescaped(s[1..])
  }

  function Count(s: string, c: char): nat {
    if s == [] then 0 else (if s[0] == c then 1 else 0) + Count(s[1..], c)
  }

  lemma {:induction false} ScanOfConcat(q: Quotes, a: string, b: string)
    ensures Scan(q, a + b) == Scan(Scan(q, a), b)
  {
    if b == [] {
      assert a + b == a;
    } else {
      var n := |b| - 1;
      assert (a + b)[..|a + b| - 1] == a + b[..n];
      ScanOfConcat(q, a, b[..n]);
    }
  }

  lemma ScanOne(q: Quotes, c: char)
    ensures Scan(q, [c]) == ScanChar(q, c)
  {
    assert [c][..0] == [];
  }

  /** The automaton counts exactly the quotes that no backslash escapes. */
  lemma {:induction false} ScanCounts(s: string, dq: nat, sq: nat)
    ensures Scan(Quotes(false, dq, sq), s).dq == dq + Count(Unescaped(s), DQ)
    ensures Scan(Quotes(false, dq, sq), s).sq == sq + Count(Unescaped(s), SQ)
  {
    if s == [] {
    } else if s[0] == BS {
      if |s| > 1 {
        assert s == [s[0]] + ([s[1]] + s[2..]);
        ScanOfConcat(Quotes(false, dq, sq), [s[0]], [s[1]] + s[2..]);
        ScanOfConcat(Quotes(true, dq, sq), [s[1]], s[2..]);
        ScanOne(Quotes(false, dq, sq), s[0]);
        ScanOne(Quotes(true, dq, sq), s[1]);
        ScanCounts(s[2..], dq, sq);
      } else {
        assert s == [s[0]];
        ScanOne(Quotes(false, dq, sq), s[0]);
      }
    } else {
      assert s == [s[0]] + s[1..];
      ScanOfConcat(Quotes(false, dq, sq), [s[0]], s[1..]);
      ScanOne(Quotes(false, dq, sq), s[0]);
      var q := ScanChar(Quotes(false, dq, sq), s[0]);
      ScanCounts(s[1..], q.dq, q.sq);
      assert ([s[0]] + Unescaped(s[1..]))[1..] == Unescaped(s[1..]);
    }
  }

  // ----- console lines -----

  predicate NeedsQuotes(v: string) {
    ' ' in v || '\t' in v || DQ in v
  }

  /** `quoteCLIValue`: backslashes are left as they are. */
  function QuoteValue(v: string): string {
    if !NeedsQuotes(v) then v else [DQ] + ReplaceAll(v, DQ, [BS, DQ]) + [DQ]
  }

  function AttributeText(ks: seq<string>, attrs: map<string, string>): string
    requires forall k :: k in ks ==> k in attrs
  {
    if ks == [] then []
    else
      AttributeText(ks[..|ks| - 1], attrs)
      + (" " + ks[|ks| - 1] + "=" + QuoteValue(attrs[ks[|ks| - 1]]))
  }

  function QueryText(qs: seq<string>): string {
    if qs == [] then [] else QueryText(qs[..|qs| - 1]) + (" ?" + qs[|qs| - 1])
  }

  function ProplistText(ps: seq<string>): string {
    if ps != [] then " .proplist=" + Join(ps, ",") else []
  }

  ghost function ArgumentText(c: Command): string {
    ListedKeys(c.attrs);
    AttributeText(Listed(c.attrs.Keys), c.attrs) + QueryText(c.queries) + ProplistText(c.proplist)
  }

  /** `CLI`: the menu path joined by slashes. */
  ghost function SlashLine(c: Command): string {
    if c.script != "" then c.script
    else c.path + (if c.verb != "" then "/" + c.verb else "") + ArgumentText(c)
  }

  /** `ConsoleCLI`: the menu path joined by spaces. */
  ghost function SpaceLine(c: Command): string {
    if c.script != "" then c.script
    else "/" + Join(Fields(c.path, '/'), " ") + (if c.verb != "" then " " + c.verb else "") + ArgumentText(c)
  }

  /** The loops that `CLI` and `ConsoleCLI` share. */
  method WriteArguments(c: Command, start: string) returns (line: string)
    ensures line == start + ArgumentText(c)
  {
    hide QuoteValue, Join;
    ListedKeys(c.attrs);
    line := start;
    var keys := SortedKeys(c.attrs);
    var i := 0;
    while i < |keys|
      invariant i <= |keys| && line == start + AttributeText(keys[..i], c.attrs)
    {
      assert keys[..i + 1][..i] == keys[..i];
      Associative(start, AttributeText(keys[..i], c.attrs), " " + keys[i] + "=" + QuoteValue(c.attrs[keys[i]]));
      line := line + (" " + keys[i] + "=" + QuoteValue(c.attrs[keys[i]]));
      i := i + 1;
    }
    assert keys[..i] == keys;
    var attrs := AttributeText(keys, c.attrs);
    var j := 0;
    while j < |c.queries|
      invariant j <= |c.queries| && line == start + (attrs + QueryText(c.queries[..j]))
    {
      assert c.queries[..j + 1][..j] == c.queries[..j];
      Associative(attrs, QueryText(c.queries[..j]), " ?" + c.queries[j]);
      Associative(start, attrs + QueryText(c.queries[..j]), " ?" + c.queries[j]);
      line := line + (" ?" + c.queries[j]);
      j := j + 1;
    }
    assert c.queries[..j] == c.queries;
    Associative(start, attrs + QueryText(c.queries), ProplistText(c.proplist));
    if c.proplist != [] {
      line := line + (" .proplist=" + Join(c.proplist, ","));
    }
  }

  method CLI(c: Command) returns (line: string)
    ensures line == SlashLine(c)
  {
    if c.script != "" {
      return c.script;
    }
    line := c.path;
    if c.verb != "" {
      line := line + ("/" + c.verb);
    }
    line := WriteArguments(c, line);
  }

  method ConsoleCLI(c: Command) returns (line: string)
    ensures line == SpaceLine(c)
  {
    if c.script != "" {
      return c.script;
    }
    line := "/" + Join(Fields(c.path, '/'), " ");
    if c.verb != "" {
      line := line + (" " + c.verb);
    }
    line := WriteArguments(c, line);
  }

  // ----- rendered commands and the quote check -----

  /** How many of the quotes `c` in `s` no backslash escapes. */
  function Loose(s: string, c: char): nat {
    Count(Unescaped(s), c)
  }

  lemma CountCons(x: char, s: string, c: char)
    ensures Count([x] + s, c) == (if x == c then 1 else 0) + Count(s, c)
  {
    assert ([x] + s)[1..] == s;
  }

  lemma UnescapedPlain(x: char, s: string)
    requires x != BS
    ensures Unescaped([x] + s) == [x] + Unescaped(s)
  {
    assert ([x] + s)[1..] == s;
  }

  lemma UnescapedPair(x: char, s: string)
    ensures Unescaped([BS, x] + s) == Unescaped(s)
  {
    assert ([BS, x] + s)[2..] == s;
  }

  /** What follows starts with an ordinary character: whether a backslash before it swallows that one
      or not, no quote is lost. */
  ghost predicate Settles(s: string, c: char) {
    s != [] ==> s[0] != BS && s[0] != c
  }

  lemma {:induction false} LooseOfConcat(a: string, b: string, c: char)
    requires Settles(b, c)
    ensures Loose(a + b, c) == Loose(a, c) + Loose(b, c)
    decreases |a|
  {
    if a == [] {
      assert a + b == b;
    } else if a[0] != BS {
      hide Unescaped, Count;
      assert a == [a[0]] + a[1..] && a + b == [a[0]] + (a[1..] + b);
      UnescapedPlain(a[0], a[1..]);
      UnescapedPlain(a[0], a[1..] + b);
      CountCons(a[0], Unescaped(a[1..]), c);
      CountCons(a[0], Unescaped(a[1..] + b), c);
      LooseOfConcat(a[1..], b, c);
    } else if |a| == 1 {
      if b == [] {
        assert a + b == a;
      } else {
        assert a + b == [BS, b[0]] + b[1..] && b == [b[0]] + b[1..];
        UnescapedPair(b[0], b[1..]);
        UnescapedPlain(b[0], b[1..]);
        CountCons(b[0], Unescaped(b[1..]), c);
      }
    } else {
      hide Unescaped, Count;
      assert a == [BS, a[1]] + a[2..] && a + b == [BS, a[1]] + (a[2..] + b);
      UnescapedPair(a[1], a[2..]);
      UnescapedPair(a[1], a[2..] + b);
      LooseOfConcat(a[2..], b, c);
    }
  }

  /** After a `=` nothing is pending. */
  lemma {:induction false} LooseAfterEquals(a: string, b: string, c: char)
    requires c != '=' && c != BS
    ensures Loose(a + "=" + b, c) == Loose(a, c) + Loose(b, c)
    decreases |a|
  {
    if a == [] {
      assert a + "=" + b == ['='] + b;
      UnescapedPlain('=', b);
      CountCons('=', Unescaped(b), c);
    } else if a[0] != BS {
      assert a == [a[0]] + a[1..] && a + "=" + b == [a[0]] + (a[1..] + "=" + b);
      UnescapedPlain(a[0], a[1..]);
      UnescapedPlain(a[0], a[1..] + "=" + b);
      CountCons(a[0], Unescaped(a[1..]), c);
      CountCons(a[0], Unescaped(a[1..] + "=" + b), c);
      LooseAfterEquals(a[1..], b, c);
    } else if |a| == 1 {
      assert a + "=" + b == [BS, '='] + b;
      UnescapedPair('=', b);
    } else {
      assert a == [BS, a[1]] + a[2..] && a + "=" + b == [BS, a[1]] + (a[2..] + "=" + b);
      UnescapedPair(a[1], a[2..]);
      UnescapedPair(a[1], a[2..] + "=" + b);
      LooseAfterEquals(a[2..], b, c);
    }
  }

  /** How often the backslashes of a quoted value break its quotes: each backslash that stands before
      a quote, and a last one that nothing follows. Two backslashes in a row cancel. */
  function Breaks(v: string): nat {
    if v == [] then 0
    else if v[0] != BS then Breaks(v[1..])
    else if |v| == 1 then 1
    else (if v[1] == DQ then 1 else 0) + Breaks(v[2..])
  }

  /** What stands between the quotes of a value, with the closing quote. */
  function Quoted(v: string): string {
    ReplaceAll(v, DQ, [BS, DQ]) + [DQ]
  }

  lemma QuotedStep(v: string)
    requires v != []
    ensures Quoted(v) == (if v[0] == DQ then [BS, DQ] else [v[0]]) + Quoted(v[1..])
  {
  }

  /** Of the quotes of a quoted value, its own double quotes are escaped, the closing one is loose, and
      every break takes away or adds one; single quotes are as loose as they were. */
  lemma {:induction false} LooseOfQuoted(v: string)
    ensures Loose(Quoted(v), DQ) % 2 == (1 + Breaks(v)) % 2
    ensures Loose(Quoted(v), SQ) == Loose(v, SQ)
    decreases |v|
  {
    if v == [] {
      assert Quoted(v) == [DQ] + [];
      UnescapedPlain(DQ, []);
      CountCons(DQ, [], DQ);
      CountCons(DQ, [], SQ);
    } else {
      QuotedStep(v);
      assert v == [v[0]] + v[1..];
      if v[0] == DQ {
        LooseOfQuoted(v[1..]);
        UnescapedPair(DQ, Quoted(v[1..]));
        UnescapedPlain(DQ, v[1..]);
        CountCons(DQ, Unescaped(v[1..]), SQ);
      } else if v[0] != BS {
        LooseOfQuoted(v[1..]);
        UnescapedPlain(v[0], Quoted(v[1..]));
        UnescapedPlain(v[0], v[1..]);
        CountCons(v[0], Unescaped(Quoted(v[1..])), DQ);
        CountCons(v[0], Unescaped(Quoted(v[1..])), SQ);
        CountCons(v[0], Unescaped(v[1..]), SQ);
      } else {
        LooseAfterBackslash(v);
      }
    }
  }

  lemma {:induction false} LooseAfterBackslash(v: string)
    requires v != [] && v[0] == BS
    ensures Loose(Quoted(v), DQ) % 2 == (1 + Breaks(v)) % 2
    ensures Loose(Quoted(v), SQ) == Loose(v, SQ)
    decreases |v|, 0
  {
    QuotedStep(v);
    if |v| == 1 {
      assert v == [BS] && Quoted(v) == [BS, DQ] + [];
      UnescapedPair(DQ, []);
    } else {
      QuotedStep(v[1..]);
      assert v[1..][1..] == v[2..] && v == [BS, v[1]] + v[2..];
      LooseOfQuoted(v[2..]);
      UnescapedPair(v[1], v[2..]);
      if v[1] == DQ {
        assert Quoted(v) == [BS, BS] + ([DQ] + Quoted(v[2..]));
        UnescapedPair(BS, [DQ] + Quoted(v[2..]));
        UnescapedPlain(DQ, Quoted(v[2..]));
        CountCons(DQ, Unescaped(Quoted(v[2..])), DQ);
        CountCons(DQ, Unescaped(Quoted(v[2..])), SQ);
      } else {
        assert Quoted(v) == [BS, v[1]] + Quoted(v[2..]);
        UnescapedPair(v[1], Quoted(v[2..]));
      }
    }
  }

  function ValueBreaks(v: string): nat {
    if NeedsQuotes(v) then Breaks(v) else 0
  }

  lemma {:induction false} NoQuoteIsLoose(s: string, c: char)
    requires Free(s, c)
    ensures Loose(s, c) == 0
    decreases |s|
  {
    if s != [] {
      assert s == [s[0]] + s[1..];
      if s[0] != BS {
        UnescapedPlain(s[0], s[1..]);
        CountCons(s[0], Unescaped(s[1..]), c);
        NoQuoteIsLoose(s[1..], c);
      } else if |s| > 1 {
        assert s == [BS, s[1]] + s[2..];
        UnescapedPair(s[1], s[2..]);
        NoQuoteIsLoose(s[2..], c);
      }
    }
  }

  /** Exactly when a single rendered value has unbalanced quotes, for every value. */
  lemma ValueBalance(v: string)
    ensures Loose(QuoteValue(v), DQ) % 2 == ValueBreaks(v) % 2
    ensures Loose(QuoteValue(v), SQ) == Loose(v, SQ)
    ensures Unbalanced(QuoteValue(v)) <==> ValueBreaks(v) % 2 == 1 || Loose(v, SQ) % 2 == 1
  {
    ScanCounts(QuoteValue(v), 0, 0);
    if NeedsQuotes(v) {
      assert QuoteValue(v) == [DQ] + Quoted(v);
      UnescapedPlain(DQ, Quoted(v));
      CountCons(DQ, Unescaped(Quoted(v)), DQ);
      CountCons(DQ, Unescaped(Quoted(v)), SQ);
      LooseOfQuoted(v);
    } else {
      NoQuoteIsLoose(v, DQ);
    }
  }

  /** How many backslashes `v` ends with. */
  function TrailingBackslashes(v: string): nat {
    if v != [] && v[|v| - 1] == BS then 1 + TrailingBackslashes(v[..|v| - 1]) else 0
  }

  lemma {:induction false} TrailingOfConcat(a: string, b: string)
    ensures TrailingBackslashes(a + b) ==
              if TrailingBackslashes(b) < |b| then TrailingBackslashes(b) else |b| + TrailingBackslashes(a)
    ensures TrailingBackslashes(b) <= |b|
    decreases |b|
  {
    if b == [] {
      assert a + b == a;
    } else {
      assert (a + b)[..|a + b| - 1] == a + b[..|b| - 1];
      TrailingOfConcat(a, b[..|b| - 1]);
    }
  }

  /** Without double quotes in it, a quoted value breaks its quotes if and only if it ends in an odd
      number of backslashes. */
  lemma {:induction false} TrailingBackslashRejected(v: string)
    requires Free(v, DQ)
    ensures Breaks(v) == TrailingBackslashes(v) % 2
    decreases |v|
  {
    if v == [] {
    } else if v[0] != BS {
      TrailingBackslashRejected(v[1..]);
      assert v == [v[0]] + v[1..];
      TrailingOfConcat([v[0]], v[1..]);
      assert TrailingBackslashes([v[0]]) == 0;
    } else if |v| == 1 {
      assert v[..0] == [];
    } else {
      TrailingBackslashRejected(v[2..]);
      assert v == [BS, v[1]] + v[2..];
      TrailingOfConcat([BS, v[1]], v[2..]);
      assert [BS, v[1]][..1] == [BS] && [BS][..0] == [];
      assert TrailingBackslashes([BS]) == 1;
      assert TrailingBackslashes([BS, v[1]]) == if v[1] == BS then 2 else 0;
    }
  }

  // ----- whole lines -----

  ghost function SlashHead(c: Command): string {
    c.path + (if c.verb != "" then "/" + c.verb else "")
  }

  ghost function SpaceHead(c: Command): string {
    "/" + Join(Fields(c.path, '/'), " ") + (if c.verb != "" then " " + c.verb else "")
  }

  function KeysLoose(ks: seq<string>, c: char): nat {
    if ks == [] then 0 else KeysLoose(ks[..|ks| - 1], c) + Loose(ks[|ks| - 1], c)
  }

  function ValuesLoose(ks: seq<string>, attrs: map<string, string>, c: char): nat
    requires forall k :: k in ks ==> k in attrs
  {
    if ks == [] then 0 else ValuesLoose(ks[..|ks| - 1], attrs, c) + Loose(attrs[ks[|ks| - 1]], c)
  }

  function ValuesBreaks(ks: seq<string>, attrs: map<string, string>): nat
    requires forall k :: k in ks ==> k in attrs
  {
    if ks == [] then 0 else ValuesBreaks(ks[..|ks| - 1], attrs) + ValueBreaks(attrs[ks[|ks| - 1]])
  }

  lemma {:induction false} AttributesBalance(ks: seq<string>, attrs: map<string, string>)
    requires forall k :: k in ks ==> k in attrs
    ensures Loose(AttributeText(ks, attrs), DQ) % 2 == (KeysLoose(ks, DQ) + ValuesBreaks(ks, attrs)) % 2
    ensures Loose(AttributeText(ks, attrs), SQ) == KeysLoose(ks, SQ) + ValuesLoose(ks, attrs, SQ)
    ensures Settles(AttributeText(ks, attrs), DQ) && Settles(AttributeText(ks, attrs), SQ)
  {
    if ks == [] {
      assert Loose([], DQ) == 0 && Loose([], SQ) == 0;
    } else {
      hide Loose, Settles, QuoteValue, ValueBreaks;
      var k, init := ks[|ks| - 1], ks[..|ks| - 1];
      AttributesBalance(init, attrs);
      AttributeBalance(AttributeText(init, attrs), k, attrs[k]);
      Parity(Loose(AttributeText(init, attrs), DQ), KeysLoose(init, DQ) + ValuesBreaks(init, attrs),
             Loose(k, DQ) + ValueBreaks(attrs[k]));
    }
  }

  lemma Parity(a: nat, b: nat, c: nat)
    requires a % 2 == b % 2
    ensures (a + c) % 2 == (b + c) % 2
  {
  }

  lemma AttributeBalance(before: string, k: string, v: string)
    requires Settles(before, DQ) && Settles(before, SQ)
    ensures var part := " " + k + "=" + QuoteValue(v);
            && Loose(before + part, DQ) % 2 == (Loose(before, DQ) + Loose(k, DQ) + ValueBreaks(v)) % 2
            && Loose(before + part, SQ) == Loose(before, SQ) + Loose(k, SQ) + Loose(v, SQ)
            && Settles(before + part, DQ) && Settles(before + part, SQ)
  {
    hide Loose, QuoteValue, ValueBreaks;
    var value := QuoteValue(v);
    var part := " " + k + "=" + value;
    ValueBalance(v);
    LooseAfterEquals(" " + k, value, DQ);
    LooseAfterEquals(" " + k, value, SQ);
    LooseAfterSpace(k, DQ);
    LooseAfterSpace(k, SQ);
    assert Settles(part, DQ) && Settles(part, SQ) by { assert part[0] == ' '; }
    LooseOfConcat(before, part, DQ);
    LooseOfConcat(before, part, SQ);
    assert Settles(before + part, DQ) && Settles(before + part, SQ) by {
      assert (before + part)[0] == if before == [] then ' ' else before[0];
    }
    hide Settles;
    Parity(Loose(value, DQ), ValueBreaks(v), Loose(before, DQ) + Loose(k, DQ));
  }

  lemma LooseAfterSpace(s: string, c: char)
    requires c != ' '
    ensures Loose(" " + s, c) == Loose(s, c)
  {
    UnescapedPlain(' ', s);
    CountCons(' ', Unescaped(s), c);
  }

  lemma {:induction false} QueriesBalance(qs: seq<string>, c: char)
    requires c != ' ' && c != '?' && c != BS
    ensures Loose(QueryText(qs), c) == KeysLoose(qs, c) && Settles(QueryText(qs), c)
  {
    if qs != [] {
      var q, init := qs[|qs| - 1], qs[..|qs| - 1];
      QueriesBalance(init, c);
      LooseOfConcat(QueryText(init), " ?" + q, c);
      assert " ?" + q == [' '] + (['?'] + q);
      UnescapedPlain(' ', ['?'] + q);
      UnescapedPlain('?', q);
      CountCons(' ', ['?'] + Unescaped(q), c);
      CountCons('?', Unescaped(q), c);
    }
  }

  lemma ProplistQuiet(c: char)
    requires c == DQ || c == SQ
    ensures Loose(" .proplist", c) == 0
  {
    assert Free(" .proplist", c);
    hide Loose;
    NoQuoteIsLoose(" .proplist", c);
  }

  lemma ProplistBalance(ps: seq<string>, c: char)
    requires c == DQ || c == SQ
    ensures Loose(ProplistText(ps), c) == Loose(Join(ps, ","), c) && Settles(ProplistText(ps), c)
  {
    if ps != [] {
      var start, rest := " .proplist", Join(ps, ",");
      assert start[0] == ' ' && ProplistText(ps) == start + "=" + rest;
      hide Loose, Join;
      LooseAfterEquals(start, rest, c);
      ProplistQuiet(c);
    }
  }

  /** Loose quotes of a command outside its attribute values. */
  ghost function FrameLoose(head: string, c: Command, q: char): nat {
    Loose(head, q) + KeysLoose(Listed(c.attrs.Keys), q) + KeysLoose(c.queries, q) + Loose(Join(c.proplist, ","), q)
  }

  ghost function DoubleFaults(head: string, c: Command): nat {
    ListedKeys(c.attrs);
    FrameLoose(head, c, DQ) + ValuesBreaks(Listed(c.attrs.Keys), c.attrs)
  }

  ghost function SingleFaults(head: string, c: Command): nat {
    ListedKeys(c.attrs);
    FrameLoose(head, c, SQ) + ValuesLoose(Listed(c.attrs.Keys), c.attrs, SQ)
  }

  lemma LineBalance(head: string, c: Command)
    ensures Loose(head + ArgumentText(c), DQ) % 2 == DoubleFaults(head, c) % 2
    ensures Loose(head + ArgumentText(c), SQ) == SingleFaults(head, c)
    ensures Unbalanced(head + ArgumentText(c)) <==> DoubleFaults(head, c) % 2 == 1 || SingleFaults(head, c) % 2 == 1
  {
    hide Loose, Settles, AttributeText, QueryText, ProplistText;
    ListedKeys(c.attrs);
    var a, q, p := AttributeText(Listed(c.attrs.Keys), c.attrs), QueryText(c.queries), ProplistText(c.proplist);
    AttributesBalance(Listed(c.attrs.Keys), c.attrs);
    LineParts(head, a, q, p, DQ, c);
    LineParts(head, a, q, p, SQ, c);
    ScanCounts(head + ArgumentText(c), 0, 0);
    LooseIs(head + ArgumentText(c), DQ);
    LooseIs(head + ArgumentText(c), SQ);
  }

  lemma LooseIs(s: string, c: char)
    ensures Loose(s, c) == Count(Unescaped(s), c)
  {
  }

  lemma LineParts(head: string, a: string, q: string, p: string, c: char, cmd: Command)
    requires (c == DQ || c == SQ) && Settles(a, c)
    requires q == QueryText(cmd.queries) && p == ProplistText(cmd.proplist)
    ensures Loose(head + (a + q + p), c) ==
              Loose(head, c) + Loose(a, c) + KeysLoose(cmd.queries, c) + Loose(Join(cmd.proplist, ","), c)
  {
    QueriesBalance(cmd.queries, c);
    ProplistBalance(cmd.proplist, c);
    hide Loose, QueryText, ProplistText;
    LooseOfConcat(a, q, c);
    LooseOfConcat(a + q, p, c);
    LooseOfConcat(head, a + q + p, c);
  }

  /** For every command, exactly when its two console forms have unbalanced quotes: when the double
      quotes outside the values and the breaks inside them are odd in number together, or the loose
      single quotes are. */
  lemma LinesBalanceExactly(c: Command)
    requires c.script == ""
    ensures Unbalanced(SlashLine(c)) <==>
              DoubleFaults(SlashHead(c), c) % 2 == 1 || SingleFaults(SlashHead(c), c) % 2 == 1
    ensures Unbalanced(SpaceLine(c)) <==>
              DoubleFaults(SpaceHead(c), c) % 2 == 1 || SingleFaults(SpaceHead(c), c) % 2 == 1
  {
    LineBalance(SlashHead(c), c);
    LineBalance(SpaceHead(c), c);
    assert SlashLine(c) == SlashHead(c) + ArgumentText(c);
    assert SpaceLine(c) == SpaceHead(c) + ArgumentText(c);
  }

  // ----- commands without backslashes, and commands with one value -----

  /** Text without backslashes and double quotes. */
  ghost predicate Bare(s: string) {
    Free(s, BS) && Free(s, DQ)
  }

  /** No backslash anywhere, and double quotes in attribute values only. */
  ghost predicate QuotesOnlyInValues(c: Command) {
    && Bare(c.path) && Bare(c.verb)
    && (forall k :: k in c.attrs ==> Bare(k) && Free(c.attrs[k], BS))
    && (forall i :: 0 <= i < |c.queries| ==> Bare(c.queries[i]))
    && (forall i :: 0 <= i < |c.proplist| ==> Bare(c.proplist[i]))
  }

  lemma {:induction false} NoBreaks(v: string)
    requires Free(v, BS)
    ensures Breaks(v) == 0
  {
    if v != [] {
      NoBreaks(v[1..]);
    }
  }

  lemma {:induction false} NoValueBreaks(ks: seq<string>, attrs: map<string, string>)
    requires forall k :: k in ks ==> k in attrs && Free(attrs[k], BS)
    ensures ValuesBreaks(ks, attrs) == 0
  {
    if ks != [] {
      NoValueBreaks(ks[..|ks| - 1], attrs);
      NoBreaks(attrs[ks[|ks| - 1]]);
    }
  }

  lemma {:induction false} NoKeysLoose(ks: seq<string>, c: char)
    requires forall i :: 0 <= i < |ks| ==> Free(ks[i], c)
    ensures KeysLoose(ks, c) == 0
  {
    if ks != [] {
      NoKeysLoose(ks[..|ks| - 1], c);
      NoQuoteIsLoose(ks[|ks| - 1], c);
    }
  }

  lemma {:induction false} FieldsFree(ss: seq<string>, c: char)
    requires AllFree(ss, c)
    ensures AllFree(NonEmpty(ss), c)
    decreases |ss|
  {
    if ss != [] {
      assert AllFree(ss[1..], c) && Free(ss[0], c);
      FieldsFree(ss[1..], c);
    }
  }

  lemma HeadsFree(c: Command, q: char)
    requires Free(c.path, q) && Free(c.verb, q) && q != '/' && q != ' '
    ensures Free(SlashHead(c), q) && Free(SpaceHead(c), q)
  {
    SplitFree(c.path, '/', q);
    FieldsFree(Split(c.path, '/'), q);
    JoinFree(Fields(c.path, '/'), " ", q);
  }

  /** Nothing but the values can have a quote `q` when the other parts are free of it. */
  ghost predicate FrameFree(c: Command, q: char) {
    && Free(c.path, q) && Free(c.verb, q)
    && (forall k :: k in c.attrs ==> Free(k, q))
    && (forall i :: 0 <= i < |c.queries| ==> Free(c.queries[i], q))
    && (forall i :: 0 <= i < |c.proplist| ==> Free(c.proplist[i], q))
  }

  lemma FrameIsQuiet(c: Command, q: char)
    requires FrameFree(c, q) && (q == DQ || q == SQ)
    ensures FrameLoose(SlashHead(c), c, q) == 0 && FrameLoose(SpaceHead(c), c, q) == 0
  {
    ListedKeys(c.attrs);
    HeadsFree(c, q);
    NoQuoteIsLoose(SlashHead(c), q);
    NoQuoteIsLoose(SpaceHead(c), q);
    forall i | 0 <= i < |Listed(c.attrs.Keys)|
      ensures Free(Listed(c.attrs.Keys)[i], q)
    {
      assert Listed(c.attrs.Keys)[i] in c.attrs;
    }
    NoKeysLoose(Listed(c.attrs.Keys), q);
    NoKeysLoose(c.queries, q);
    JoinFree(c.proplist, ",", q);
    NoQuoteIsLoose(Join(c.proplist, ","), q);
  }

  /** Every backslash of the text escapes a double quote. */
  ghost predicate OnlyQuotesEscaped(s: string) {
    forall i :: 0 <= i < |s| && s[i] == BS ==> i + 1 < |s| && s[i + 1] == DQ
  }

  lemma {:induction false} SinglesAllLoose(s: string)
    requires OnlyQuotesEscaped(s)
    ensures Loose(s, SQ) == Count(s, SQ)
    decreases |s|
  {
    if s != [] {
      if s[0] == BS {
        assert s[1] == DQ && s[1..][1..] == s[2..];
        assert OnlyQuotesEscaped(s[2..]) by {
          assert forall i :: 0 <= i < |s[2..]| ==> s[2..][i] == s[i + 2];
        }
        SinglesAllLoose(s[2..]);
      } else {
        assert OnlyQuotesEscaped(s[1..]) by {
          assert forall i :: 0 <= i < |s[1..]| ==> s[1..][i] == s[i + 1];
        }
        SinglesAllLoose(s[1..]);
        CountCons(s[0], Unescaped(s[1..]), SQ);
      }
    }
  }

  lemma EscapedOfConcat(a: string, b: string)
    requires OnlyQuotesEscaped(a) && OnlyQuotesEscaped(b)
    ensures OnlyQuotesEscaped(a + b)
  {
    forall i | 0 <= i < |a + b| && (a + b)[i] == BS
      ensures i + 1 < |a + b| && (a + b)[i + 1] == DQ
    {
      if i < |a| {
        assert a[i] == BS;
      } else {
        assert b[i - |a|] == BS && b[i - |a| + 1] == DQ;
      }
    }
  }

  lemma {:induction false} EscapedInValue(v: string)
    requires Free(v, BS)
    ensures OnlyQuotesEscaped(ReplaceAll(v, DQ, [BS, DQ])) && OnlyQuotesEscaped(QuoteValue(v))
  {
    if v != [] {
      EscapedInValue(v[1..]);
      EscapedOfConcat(if v[0] == DQ then [BS, DQ] else [v[0]], ReplaceAll(v[1..], DQ, [BS, DQ]));
    }
    EscapedOfConcat([DQ], ReplaceAll(v, DQ, [BS, DQ]));
    EscapedOfConcat([DQ] + ReplaceAll(v, DQ, [BS, DQ]), [DQ]);
  }

  lemma {:induction false} EscapedInAttributes(ks: seq<string>, attrs: map<string, string>)
    requires forall k :: k in ks ==> k in attrs && Bare(k) && Free(attrs[k], BS)
    ensures OnlyQuotesEscaped(AttributeText(ks, attrs))
  {
    if ks != [] {
      var k := ks[|ks| - 1];
      EscapedInAttributes(ks[..|ks| - 1], attrs);
      EscapedInValue(attrs[k]);
      EscapedOfConcat(" " + k + "=", QuoteValue(attrs[k]));
      EscapedOfConcat(AttributeText(ks[..|ks| - 1], attrs), " " + k + "=" + QuoteValue(attrs[k]));
    }
  }

  lemma {:induction false} QueriesFree(qs: seq<string>)
    requires forall i :: 0 <= i < |qs| ==> Free(qs[i], BS)
    ensures Free(QueryText(qs), BS)
  {
    if qs != [] {
      QueriesFree(qs[..|qs| - 1]);
      assert Free(qs[|qs| - 1], BS);
    }
  }

  lemma EscapedInArguments(c: Command)
    requires QuotesOnlyInValues(c)
    ensures OnlyQuotesEscaped(ArgumentText(c))
  {
    ListedKeys(c.attrs);
    EscapedInAttributes(Listed(c.attrs.Keys), c.attrs);
    QueriesFree(c.queries);
    JoinFree(c.proplist, ",", BS);
    EscapedOfConcat(AttributeText(Listed(c.attrs.Keys), c.attrs), QueryText(c.queries));
    EscapedOfConcat(AttributeText(Listed(c.attrs.Keys), c.attrs) + QueryText(c.queries), ProplistText(c.proplist));
  }

  lemma LineWithoutBackslashes(head: string, c: Command)
    requires QuotesOnlyInValues(c) && Free(head, BS) && FrameLoose(head, c, DQ) == 0
    ensures Unbalanced(head + ArgumentText(c)) <==> Count(head + ArgumentText(c), SQ) % 2 == 1
  {
    hide FrameLoose, ArgumentText, Loose, Unbalanced, Count;
    ListedKeys(c.attrs);
    NoValueBreaks(Listed(c.attrs.Keys), c.attrs);
    EscapedInArguments(c);
    EscapedOfConcat(head, ArgumentText(c));
    SinglesAllLoose(head + ArgumentText(c));
    LineBalance(head, c);
  }

  /** For commands without backslashes and with double quotes in values only, both console forms pass
      the quote check if and only if they hold an even number of single quotes; the double quotes
      that the rendering writes never fail it. */
  lemma RenderedQuotesBalance(c: Command)
    requires c.script == "" && QuotesOnlyInValues(c)
    ensures Unbalanced(SlashLine(c)) <==> Count(SlashLine(c), SQ) % 2 == 1
    ensures Unbalanced(SpaceLine(c)) <==> Count(SpaceLine(c), SQ) % 2 == 1
  {
    FrameIsQuiet(c, DQ);
    HeadsFree(c, BS);
    LineWithoutBackslashes(SlashHead(c), c);
    LineWithoutBackslashes(SpaceHead(c), c);
    assert SlashLine(c) == SlashHead(c) + ArgumentText(c);
    assert SpaceLine(c) == SpaceHead(c) + ArgumentText(c);
  }

  /** In particular a command without single quotes always passes. */
  lemma WithoutSingleQuotesPasses(c: Command)
    requires c.script == "" && QuotesOnlyInValues(c)
    requires Free(SlashLine(c), SQ) && Free(SpaceLine(c), SQ)
    ensures !Unbalanced(SlashLine(c)) && !Unbalanced(SpaceLine(c))
  {
    RenderedQuotesBalance(c);
    CountZero(SlashLine(c), SQ);
    CountZero(SpaceLine(c), SQ);
  }

  lemma {:induction false} CountZero(s: string, c: char)
    ensures Count(s, c) == 0 <==> Free(s, c)
  {
    if s != [] {
      CountZero(s[1..], c);
      assert Free(s, c) <==> s[0] != c && Free(s[1..], c);
    }
  }

  lemma ValuesOfOne(k: string, attrs: map<string, string>)
    requires k in attrs
    ensures ValuesBreaks([k], attrs) == ValueBreaks(attrs[k]) && ValuesLoose([k], attrs, SQ) == Loose(attrs[k], SQ)
  {
    hide ValueBreaks, Loose;
    assert [k][..0] == [];
    assert ValuesBreaks([], attrs) == 0 && ValuesLoose([], attrs, SQ) == 0;
    assert ValuesBreaks([k], attrs) == ValuesBreaks([k][..0], attrs) + ValueBreaks(attrs[k]);
    assert ValuesLoose([k], attrs, SQ) == ValuesLoose([k][..0], attrs, SQ) + Loose(attrs[k], SQ);
  }

  /** A command with one attribute and no quotes elsewhere, and any value. */
  lemma OneValueDecides(c: Command, k: string, v: string)
    requires c.script == "" && c.attrs == map[k := v] && FrameFree(c, DQ) && FrameFree(c, SQ)
    ensures Unbalanced(SlashLine(c)) <==> ValueBreaks(v) % 2 == 1 || Loose(v, SQ) % 2 == 1
  {
    hide SlashLine, SpaceLine, SlashHead, SpaceHead, FrameFree, FrameLoose, Unbalanced, ValueBreaks, Loose;
    ListsUnique([k], Listed(c.attrs.Keys), c.attrs.Keys);
    ListedKeys(c.attrs);
    assert Listed(c.attrs.Keys) == [k];
    ValuesOfOne(k, c.attrs);
    FrameIsQuiet(c, DQ);
    FrameIsQuiet(c, SQ);
    LinesBalanceExactly(c);
  }

  lemma TrailingSnoc(v: string)
    ensures TrailingBackslashes(v + [BS]) == 1 + TrailingBackslashes(v)
  {
    assert (v + [BS])[..|v|] == v;
  }

  function SetCommand(v: string): Command {
    Command("/x", "set", map["k" := v], [], [], "")
  }

  /** A command line with a value that has a blank and no quotes: it is refused before anything is sent
      if and only if the value ends in an odd number of backslashes. */
  lemma SetCommandRefused(v: string)
    requires NeedsQuotes(v) && Free(v, DQ) && Free(v, SQ)
    ensures Unbalanced(SlashLine(SetCommand(v))) <==> TrailingBackslashes(v) % 2 == 1
  {
    hide SlashLine, Unbalanced, NeedsQuotes, Loose, Breaks, TrailingBackslashes, FrameFree;
    TrailingBackslashRejected(v);
    NoQuoteIsLoose(v, SQ);
    SetCommandIsQuiet(v);
    OneValueDecides(SetCommand(v), "k", v);
  }

  lemma SetCommandIsQuiet(v: string)
    ensures FrameFree(SetCommand(v), DQ) && FrameFree(SetCommand(v), SQ)
  {
  }

  /** With one backslash at the end it is refused, with two it is not. */
  lemma TrailingBackslashLines()
    ensures Unbalanced(SlashLine(SetCommand("a \\"))) && !Unbalanced(SlashLine(SetCommand("a \\\\")))
  {
    hide SetCommand, SlashLine, Unbalanced;
    var v, w := "a \\", "a \\\\";
    assert v[1] == ' ' && w[1] == ' ';
    assert v == ['a', ' '] + [BS] && w == v + [BS];
    TrailingSnoc(['a', ' ']);
    TrailingSnoc(v);
    assert TrailingBackslashes(['a', ' ']) == 0;
    hide TrailingBackslashes;
    SetCommandRefused(v);
    SetCommandRefused(w);
  }

  lemma {:induction false} QuotedIsEscaped(v: string)
    requires Free(v, BS)
    ensures ReplaceAll(v, DQ, [BS, DQ]) == Escape(v)
  {
    if v != [] {
      assert Free(v[1..], BS);
      QuotedIsEscaped(v[1..]);
    }
  }

  /** A quoted value that is read to its last character is shorter whenever it had a
      backslash; two in a row are read as one. */
  lemma {:induction false} BackslashIsLost(v: string)
    requires var l := ReadLiteral(Quoted(v)); l.Some? && l.value.rest == ""
    ensures var x := ReadLiteral(Quoted(v)).value.value;
            |x| <= |v| && (!Free(v, BS) ==> |x| < |v|)
    decreases |v|
  {
    var t := Quoted(v);
    if v != [] {
      var more := Quoted(v[1..]);
      if v[0] == DQ {
        assert t == [BS, DQ] + more && t[2..] == more;
        BackslashIsLost(v[1..]);
      } else if v[0] != BS {
        assert t == [v[0]] + more && t[1..] == more;
        BackslashIsLost(v[1..]);
      } else if |v| > 1 && v[1] == BS {
        var after := Quoted(v[2..]);
        assert v[1..][1..] == v[2..];
        assert t == [BS, BS] + after && t[2..] == after;
        BackslashIsLost(v[2..]);
      } else {
        BackslashNotRead(v);
      }
      assert Free(v, BS) <==> v[0] != BS && Free(v[1..], BS);
    }
  }

  lemma EndsEarly(after: string)
    ensures ReadLiteral([BS, BS, DQ] + after) == Some(Literal([BS], after))
  {
    var t := [BS, BS, DQ] + after;
    assert t[2..] == [DQ] + after && ([DQ] + after)[1..] == after;
    assert ReadLiteral([DQ] + after) == Some(Literal([], after));
    assert [BS] + [] == [BS];
  }

  lemma NotAnEscape(c: char, after: string)
    requires c != BS && c != DQ
    ensures ReadLiteral([BS, c] + after).None?
  {
  }

  lemma Unfinished()
    ensures ReadLiteral([BS, DQ]).None?
  {
    assert [BS, DQ][2..] == [] && ReadLiteral([]) == None;
  }

  /** A lone backslash breaks the literal: before a quote the literal ends early, before anything
      else or at the end it does not read at all. */
  lemma BackslashNotRead(v: string)
    requires v != [] && v[0] == BS && (|v| > 1 ==> v[1] != BS)
    ensures var l := ReadLiteral(Quoted(v)); l.None? || l.value.rest != ""
  {
    QuotedStep(v);
    if |v| == 1 {
      assert Quoted(v) == [BS, DQ];
      Unfinished();
    } else {
      var u := v[1..];
      QuotedStep(u);
      if v[1] == DQ {
        assert Quoted(v) == [BS, BS, DQ] + Quoted(u[1..]);
        EndsEarly(Quoted(u[1..]));
      } else {
        assert Quoted(v) == [BS, v[1]] + Quoted(u[1..]);
        NotAnEscape(v[1], Quoted(u[1..]));
      }
    }
  }

  /** `quoteCLIValue` is undone by reading the literal if and only if the value has no backslash. */
  lemma QuotedValueReadsBack(v: string)
    requires NeedsQuotes(v)
    ensures ReadLiteral(QuoteValue(v)[1..]) == Some(Literal(v, "")) <==> Free(v, BS)
  {
    assert QuoteValue(v)[1..] == Quoted(v);
    if Free(v, BS) {
      QuotedIsEscaped(v);
      ReadEscaped(v, "");
      assert Escape(v) + [DQ] + "" == Escape(v) + [DQ];
    } else if ReadLiteral(QuoteValue(v)[1..]) == Some(Literal(v, "")) {
      BackslashIsLost(v);
    }
  }
}
