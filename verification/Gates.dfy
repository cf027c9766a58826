/** The two validation gates (gate/gate1.go:174-237, gate/gate2.go:24-75): syntax by the device's own
    parser, attributes by the discovered schema. */
module Gates {
  import opened Protocol
  import opened Text
  import opened Codec
  import opened CodecProofs
  import opened Commands
  import opened Quoting
  import opened Inspect
  import opened ClientTransport
  import opened Schema

  // ----- Gate 1 -----

  /** What the classifier makes of the text the device's parser printed. */
  datatype Verdict = Valid | Invalid(code: Code, attribute: string, line: int, col: int)

  type Classifier = string -> Verdict

  const UNBALANCED_QUOTES := Rejected(ValidationSyntax, "command contains unbalanced quotes", "", 0, 0)

  ghost function ScriptWords(line: string): seq<string> {
    WordsOf(ScriptCommand(ParseScript(line)))
  }

  /** What Gate 1 sends for a console line, and what it concludes. */
  ghost function Gate1Sent(supported: bool, line: string): seq<Sent> {
    if !supported || Unbalanced(line) then [] else [Sent(SyntaxCheck, ScriptWords(line))]
  }

  ghost function Gate1Verdict(supported: bool, line: string, classify: Classifier, env: Env, n: nat): Option<Problem> {
    if !supported then None
    else if Unbalanced(line) then Some(UNBALANCED_QUOTES)
    else
      match CommandOf(env(n, ScriptWords(line)))
      case Err(p) => Some(p)
      case Ok(rep) =>
        match classify(Ret(rep))
        case Valid => None
        case Invalid(code, attribute, line, col) => Some(Rejected(code, Ret(rep), attribute, line, col))
  }

  class Gate1 {
    const seam: Transport
    const classify: Classifier

    constructor (seam: Transport, classify: Classifier)
      ensures this.seam == seam && this.classify == classify
    {
      this.seam, this.classify := seam, classify;
    }

    method Run(supported: bool, c: Command) returns (e: Option<Problem>)
      modifies seam
      ensures e == Gate1Verdict(supported, SlashLine(c), classify, seam.env, |old(seam.sent)|)
      ensures seam.sent == old(seam.sent) + Gate1Sent(supported, SlashLine(c))
    {
      if !supported {
        return None;
      }
      var line := CLI(c);
      var unbalanced := HasUnbalancedQuotes(line);
      if unbalanced {
        return Some(UNBALANCED_QUOTES);
      }
      var r := seam.Send(SyntaxCheck, ScriptCommand(ParseScript(line)));
      match r
      case Err(p) => return Some(p);
      case Ok(rep) =>
        match classify(Ret(rep))
        case Valid => return None;
        case Invalid(code, attribute, line, col) => return Some(Rejected(code, Ret(rep), attribute, line, col));
    }
  }

  lemma ScriptSentence(s: string)
    requires s != ""
    ensures NonEmptyWords(WordsOf(ScriptCommand(s)))
    ensures Parse(WordsOf(ScriptCommand(s))).Some?
    ensures var sen := Parse(WordsOf(ScriptCommand(s))).value;
            sen.word == "/execute" && sen.attrs == map["script" := s, "as-string" := ""]
  {
    hide Parse, WordsOf, AttributeWords, Pairs, MapOf;
    var ks, attrs := ["script", "as-string"], map["script" := s, "as-string" := ""];
    ScriptWordsAreAttributes(s);
    ParseAttributes("/execute", ks, attrs);
    assert Free(ks[0], '=') && Free(ks[1], '=');
    MapOfPairs(ks, attrs);
  }

  lemma ScriptWordsAreAttributes(s: string)
    requires s != ""
    ensures var attrs := map["script" := s, "as-string" := ""];
            WordsOf(ScriptCommand(s)) == ["/execute"] + AttributeWords(["script", "as-string"], attrs)
  {
    var attrs := map["script" := s, "as-string" := ""];
    AttributeWordsSnoc([], "script", attrs);
    AttributeWordsSnoc(["script"], "as-string", attrs);
    assert [] + ["script"] == ["script"] && ["script"] + ["as-string"] == ["script", "as-string"];
    assert AttributeWord("script", s) == "=script=" + s && AttributeWord("as-string", "") == "=as-string=";
  }

  /** From the command line through the script and the wire: the device finds the line, the whole
      line and nothing but the line inside the literal it is to parse. */
  lemma DeviceParsesTheLine(line: string, rest: string, end: End) returns (sen: Sentence)
    requires Fits(ScriptWords(line))
    ensures ReadSentence(EncodeSentence(ScriptWords(line)) + rest, end) == Got(sen, rest)
    ensures sen.word == "/execute" && "script" in sen.attrs && sen.attrs["script"] == ParseScript(line)
    ensures ReadLiteral(sen.attrs["script"][|PARSE| + 1..]) == Some(Literal(line, "]"))
  {
    ScriptHoldsTheLine(line);
    ScriptSentence(ParseScript(line));
    SentenceRoundTrip(ScriptWords(line), rest, end);
    sen := Parse(ScriptWords(line)).value;
  }

  /** Gate 1 never sends the command itself: its script is longer than the line it holds. */
  lemma Gate1SendsNoCommand(supported: bool, c: Command, i: nat)
    requires c.script != "" && i < |Gate1Sent(supported, SlashLine(c))|
    ensures Gate1Sent(supported, SlashLine(c))[i].words != WordsOf(c)
  {
    ScriptHoldsTheLine(c.script);
    var own, sent := "=script=" + c.script, "=script=" + ParseScript(c.script);
    assert WordsOf(c)[1] == own && ScriptWords(c.script)[1] == sent;
    assert own[|"=script="|..] == c.script && sent[|"=script="|..] == ParseScript(c.script);
  }

  /** Gate 1 refuses on its own, without a sentence, exactly the lines with an odd number of
      unescaped double or single quotes, when it is in force at all. */
  lemma Gate1RefusesLocally(supported: bool, line: string, classify: Classifier, env: Env, n: nat)
    ensures Gate1Sent(supported, line) == [] && Gate1Verdict(supported, line, classify, env, n).Some? <==>
            supported && (Count(Unescaped(line), DQ) % 2 == 1 || Count(Unescaped(line), SQ) % 2 == 1)
  {
    ScanCounts(line, 0, 0);
  }

  // ----- Gate 2 -----

  ghost function Gate2Verdict(o: Outcome, c: Command): Option<Problem> {
    match o
    case Broken(p) => Some(p)
    case Found(s) =>
      var missing := c.attrs.Keys - Elements(s.attrs);
      if s.category == Unknown || missing == {} then None
      else Some(UnknownAttributes(c.path, c.verb, Listed(missing), s.attrs, s.source))
  }

  ghost function Gate2Sent(supported: bool, m: Model, c: Command, at: Span, n: nat, dev: Device): seq<Sent> {
    if supported then SentFor(m, c.path, c.verb, at, n, dev) else []
  }

  /** `CommandSchema.HasAttribute`. */
  method HasAttribute(s: CommandSchema, name: string) returns (r: bool)
    ensures r <==> name in Elements(s.attrs)
  {
    for i := 0 to |s.attrs|
      invariant name !in s.attrs[..i]
    {
      if s.attrs[i] == name {
        return true;
      }
      assert s.attrs[..i + 1] == s.attrs[..i] + [s.attrs[i]];
    }
    assert s.attrs[..|s.attrs|] == s.attrs;
    return false;
  }

  /** The missing keys in order; the map is ranged over in any order. */
  method MissingKeys(c: Command, s: CommandSchema) returns (missing: seq<string>)
    ensures missing == Listed(c.attrs.Keys - Elements(s.attrs))
  {
    missing := [];
    var rest := c.attrs.Keys;
    while rest != {}
      invariant rest <= c.attrs.Keys && NoDuplicates(missing)
      invariant Elements(missing) == c.attrs.Keys - rest - Elements(s.attrs)
      decreases |rest|
    {
      var k :| k in rest;
      var has := HasAttribute(s, k);
      if !has {
        assert k !in Elements(missing);
        ElementsOfConcat(missing, [k]);
        missing := missing + [k];
      }
      rest := rest - {k};
    }
    SortLists(missing);
    ListsUnique(Sort(missing), Listed(c.attrs.Keys - Elements(s.attrs)), c.attrs.Keys - Elements(s.attrs));
    missing := Sort(missing);
  }

  class Gate2 {
    const schemas: Store

    constructor (schemas: Store)
      ensures this.schemas == schemas
    {
      this.schemas := schemas;
    }

    method Validate(supported: bool, c: Command, at: Span) returns (e: Option<Problem>)
      modifies schemas, schemas.cache, schemas.seam
      ensures var m, n, dev := old(schemas.AsModel()), |old(schemas.seam.sent)|, schemas.Dev();
              && e == (if supported then Gate2Verdict(Answered(m, c.path, c.verb, at, n, dev), c) else None)
              && schemas.AsModel() == (if supported then AfterDiscover(m, c.path, c.verb, at, n, dev) else m)
              && schemas.seam.sent == old(schemas.seam.sent) + Gate2Sent(supported, m, c, at, n, dev)
    {
      hide Fresh, Asked;
      if !supported {
        return None;
      }
      var r := schemas.Discover(c.path, c.verb, at);
      match r
      case Broken(p) => return Some(p);
      case Found(s) =>
        if s.category == Unknown {
          return None;
        }
        var missing := MissingKeys(c, s);
        EmptyList(missing);
        if missing == [] {
          return None;
        }
        var available := [];
        for i := 0 to |s.attrs|
          invariant available == s.attrs[..i]
        {
          available := available + [s.attrs[i]];
        }
        assert s.attrs[..|s.attrs|] == s.attrs;
        return Some(UnknownAttributes(c.path, c.verb, missing, available, s.source));
    }
  }

  /** The names the probes give for a command: argument children and usable completions. */
  ghost function KnownNames(path: string, verb: string, n: nat, dev: Device): set<string>
    requires dev(n, Child, CommandPath(path, verb)).Rows?
  {
    var field := FieldAsked(path, verb, n, dev);
    Elements(ArgumentNames(dev(n, Child, CommandPath(path, verb)).nodes))
    + AnswerNames(dev(n + 2, Completion, CommandPath(path, verb)))
    + (if field != "" then AnswerNames(dev(n + 3, Completion, FieldPath(path, verb, field))) else {})
  }

  lemma NothingLeft(xs: set<string>, ys: set<string>)
    ensures xs - ys == {} <==> xs <= ys
  {
    if xs - ys == {} {
      forall x | x in xs ensures x in ys { assert x !in xs - ys; }
    }
  }

  /** On a device that serves inspect and knows the command, a fresh Gate 2 accepts exactly the
      commands whose attributes are all among the names the probes gave, and otherwise reports
      exactly the others, in order, with the sorted list of the known ones. */
  lemma Gate2Exactly(c: Command, n: nat, dev: Device, override: Option<Category>)
    requires dev(n, Child, CommandPath(c.path, c.verb)).Rows?
    requires Fresh(dev, n, override, c.path, c.verb).Found?
    requires Fresh(dev, n, override, c.path, c.verb).schema.category != Unknown
    ensures var known := KnownNames(c.path, c.verb, n, dev);
            var e := Gate2Verdict(Fresh(dev, n, override, c.path, c.verb), c);
            && (e.None? <==> c.attrs.Keys <= known)
            && (e.Some? ==> e.value.UnknownAttributes? && Lists(e.value.missing, c.attrs.Keys - known)
                            && Sorted(e.value.available) && Elements(e.value.available) == known)
  {
    AttributesMeaning(c.path, c.verb, override,
                      dev(n, Child, CommandPath(c.path, c.verb)), dev(n + 1, Child, InspectPath(PathTokens(c.path))),
                      dev(n + 2, Completion, CommandPath(c.path, c.verb)),
                      dev(n + 3, Completion, FieldPath(c.path, c.verb, FieldAsked(c.path, c.verb, n, dev))));
    var known := KnownNames(c.path, c.verb, n, dev);
    NothingLeft(c.attrs.Keys, known);
  }

  /** The category is unknown, and the gate passes everything, exactly when the device has no such
      command among the children of the path or gave nothing for the command, and no override says
      otherwise; an override does not count when the first probe was rejected. */
  lemma Gate2SkipsExactly(path: string, verb: string, n: nat, dev: Device, override: Option<Category>)
    requires Fresh(dev, n, override, path, verb).Found?
    ensures Fresh(dev, n, override, path, verb).schema.category == Unknown <==>
            dev(n, Child, CommandPath(path, verb)).Absent?
            || override == Some(Unknown)
            || (override.None? && !HasCommand(RowsOf(dev(n + 1, Child, InspectPath(PathTokens(path)))), verb))
  {
  }

  /** Gate 2 sends inspect probes only. */
  lemma Gate2SendsProbes(supported: bool, m: Model, c: Command, at: Span, n: nat, dev: Device, i: nat)
    requires i < |Gate2Sent(supported, m, c, at, n, dev)|
    ensures var s := Gate2Sent(supported, m, c, at, n, dev)[i];
            s.origin == Discovery && exists k, path :: s.words == InspectWords(k, path)
  {
    var s := Gate2Sent(supported, m, c, at, n, dev)[i];
    assert s.words == InspectWords(Child, CommandPath(c.path, c.verb))
        || s.words == InspectWords(Child, InspectPath(PathTokens(c.path)))
        || s.words == InspectWords(Completion, CommandPath(c.path, c.verb))
        || s.words == InspectWords(Completion, FieldPath(c.path, c.verb, FieldAsked(c.path, c.verb, n, dev)));
  }
}
