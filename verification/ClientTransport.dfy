/** The canonical transport over one client session: commands in, canonical replies or classified
    errors out (client_transport.go:134-302). */
module ClientTransport {
  import opened Protocol
  import opened Text
  import opened Commands
  import opened Inspect

  /** What `RunArgsContext` returns: a reply, or an error (a reply that comes with an error is never
      looked at). */
  datatype RunResult = Returned(re: seq<Sentence>, done: Option<Sentence>) | Raised(err: Error)

  // ----- errors -----

  datatype Code = CommandFailed | SessionClosed | ValidationSyntax | ValidationUnknownAttribute

  /** The errors a facade call returns: an error of the client as it is, or one of the taxonomy. */
  datatype Problem =
    | Raw(err: Error)
    | Coded(code: Code, summary: string, cause: Option<Error>)
    | Rejected(code: Code, message: string, attribute: string, line: int, col: int)
    | UnknownAttributes(path: string, verb: string, missing: seq<string>, available: seq<string>, source: string)

  datatype Result<+T> = Ok(value: T) | Err(problem: Problem)

  function AttributeOf(attrs: map<string, string>, k: string): string {
    if k in attrs then attrs[k] else ""
  }

  /** `TranslateError`; the text of a device error without a message is left empty. */
  function TranslateError(e: Error): Problem {
    if e.DeviceError? then
      Coded(if e.sen.word == FATAL then SessionClosed else CommandFailed, AttributeOf(e.sen.attrs, "message"), Some(e))
    else Raw(e)
  }

  /** `errors.As` finds a `*DeviceError`. */
  predicate FromDevice(p: Problem) {
    match p
    case Raw(e) => e.DeviceError?
    case Coded(_, _, cause) => cause.Some? && cause.value.DeviceError?
    case _ => false
  }

  /** `isSwallowableInspectErr`; no transport here reports an unknown path by a code of its own. */
  predicate Swallowable(p: Problem) {
    p.Coded? && p.code == CommandFailed
  }

  /** The two tests that callers make on a failed sentence: every error sentence of the device counts
      as its answer to a probe, also a `!fatal`, which is never swallowed by discovery. */
  lemma ErrorsAreTold(e: Error)
    ensures FromDevice(TranslateError(e)) <==> e.DeviceError?
    ensures Swallowable(TranslateError(e)) <==> e.DeviceError? && e.sen.word != FATAL
  {
  }

  // ----- replies -----

  /** `transport.Reply`. */
  datatype CanonicalReply = CanonicalReply(kind: string, attrs: map<string, string>, tag: string, raw: seq<string>)

  function Canonical(sen: Sentence): CanonicalReply {
    CanonicalReply(sen.word, sen.attrs, sen.tag, RawWordsOf(sen))
  }

  function CanonicalRows(re: seq<Sentence>): seq<CanonicalReply> {
    if re == [] then [] else CanonicalRows(re[..|re| - 1]) + [Canonical(re[|re| - 1])]
  }

  function Translated(re: seq<Sentence>, done: Option<Sentence>): seq<CanonicalReply> {
    CanonicalRows(re) + (if done.Some? then [Canonical(done.value)] else [])
  }

  method TranslateReply(re: seq<Sentence>, done: Option<Sentence>) returns (out: seq<CanonicalReply>)
    ensures out == Translated(re, done)
  {
    out := [];
    for i := 0 to |re|
      invariant out == CanonicalRows(re[..i])
    {
      assert re[..i + 1][..i] == re[..i];
      var raw := RawSentenceWords(re[i]);
      out := out + [CanonicalReply(re[i].word, re[i].attrs, re[i].tag, raw)];
    }
    assert re[..|re|] == re;
    if done.Some? {
      var raw := RawSentenceWords(done.value);
      out := out + [CanonicalReply(done.value.word, done.value.attrs, done.value.tag, raw)];
    }
  }

  function Ret(rep: CanonicalReply): string {
    AttributeOf(rep.attrs, "ret")
  }

  function ListOf(x: RunResult): Result<seq<CanonicalReply>> {
    match x
    case Raised(e) => Err(TranslateError(e))
    case Returned(re, done) => Ok(Translated(re, done))
  }

  const NO_REPLY := Coded(CommandFailed, "no reply received from device", None)

  function CommandOf(x: RunResult): Result<CanonicalReply> {
    match ListOf(x)
    case Err(p) => Err(p)
    case Ok(replies) => if replies == [] then Err(NO_REPLY) else Ok(replies[|replies| - 1])
  }

  /** A command returns its terminal sentence whenever the run has one, the last row of a run that
      was closed without, and fails otherwise. */
  lemma TerminalReply(x: RunResult)
    ensures CommandOf(x).Ok? <==> x.Returned? && (x.done.Some? || x.re != [])
    ensures x.Returned? && x.done.Some? ==> CommandOf(x) == Ok(Canonical(x.done.value))
    ensures x.Returned? && x.done.None? && x.re != [] ==> CommandOf(x) == Ok(Canonical(x.re[|x.re| - 1]))
    ensures x.Returned? ==> |Translated(x.re, x.done)| == |x.re| + (if x.done.Some? then 1 else 0)
  {
    if x.Returned? {
      RowsLength(x.re);
    }
  }

  lemma {:induction false} RowsLength(re: seq<Sentence>)
    ensures |CanonicalRows(re)| == |re|
    ensures forall i :: 0 <= i < |re| ==> CanonicalRows(re)[i] == Canonical(re[i])
  {
    if re != [] {
      RowsLength(re[..|re| - 1]);
    }
  }

  // ----- inspect -----

  /** `InspectRequestKind`. */
  datatype RequestKind = Child | Completion

  function KindName(k: RequestKind): string {
    match k
    case Child => "child"
    case Completion => "completion"
  }

  function InspectCommand(k: RequestKind, path: string): Command {
    Command("/console", "inspect", map["request" := KindName(k), "path" := path], [], [], "")
  }

  /** The sentence of an inspect probe. */
  function InspectWords(k: RequestKind, path: string): seq<string> {
    ["/console/inspect", "=path=" + path, "=request=" + KindName(k)]
  }

  lemma AttributeWordsSnoc(ks: seq<string>, k: string, attrs: map<string, string>)
    requires k in attrs && forall x :: x in ks ==> x in attrs
    ensures AttributeWords(ks + [k], attrs) == AttributeWords(ks, attrs) + [AttributeWord(k, attrs[k])]
  {
    assert (ks + [k])[..|ks|] == ks;
  }

  lemma InspectSentence(k: RequestKind, path: string)
    ensures WordsOf(InspectCommand(k, path)) == InspectWords(k, path)
  {
    var c := InspectCommand(k, path);
    var ks := ["path", "request"];
    assert Le("path", "request") && ks[0] != ks[1];
    assert c.attrs.Keys == {"path", "request"};
    assert Lists(ks, c.attrs.Keys);
    ListsUnique(Listed(c.attrs.Keys), ks, c.attrs.Keys);
    ListedKeys(c.attrs);
    assert TrimSlashes("/console") == "/console";
    assert CommandWord(c) == "/console/inspect";
    assert AttributeWord("path", path) == "=path=" + path;
    assert AttributeWord("request", KindName(k)) == "=request=" + KindName(k);
    AttributeWordsSnoc([], "path", c.attrs);
    AttributeWordsSnoc(["path"], "request", c.attrs);
    assert [] + ["path"] == ["path"] && ["path"] + ["request"] == ks;
  }

  function NodeOf(rep: CanonicalReply): Node {
    Node(AttributeOf(rep.attrs, "type"), AttributeOf(rep.attrs, "node-type"), AttributeOf(rep.attrs, "name"),
         AttributeOf(rep.attrs, "completion"), AttributeOf(rep.attrs, "value"), AttributeOf(rep.attrs, "text"))
  }

  function NodesIn(replies: seq<CanonicalReply>): seq<Node> {
    if replies == [] then []
    else
      var rep := replies[|replies| - 1];
      NodesIn(replies[..|replies| - 1]) + (if rep.kind == RE then [NodeOf(rep)] else [])
  }

  function NodesOf(x: RunResult): Result<seq<Node>> {
    match ListOf(x)
    case Err(p) => Err(p)
    case Ok(replies) => Ok(NodesIn(replies))
  }

  /** The rows of an inspect reply are its data sentences, each once and in order; the terminal
      sentence adds none. */
  lemma {:induction false} NodesAreRows(re: seq<Sentence>, done: Option<Sentence>)
    requires (forall i :: 0 <= i < |re| ==> re[i].word == RE) && (done.Some? ==> done.value.word != RE)
    ensures NodesOf(Returned(re, done)).Ok?
    ensures var nodes := NodesOf(Returned(re, done)).value;
            |nodes| == |re| && forall i :: 0 <= i < |re| ==> nodes[i] == NodeOf(Canonical(re[i]))
  {
    NodesOfRows(re);
    if done.Some? {
      var all := Translated(re, done);
      assert all[..|all| - 1] == CanonicalRows(re);
    } else {
      assert Translated(re, done) == CanonicalRows(re);
    }
  }

  lemma {:induction false} NodesOfRows(re: seq<Sentence>)
    requires forall i :: 0 <= i < |re| ==> re[i].word == RE
    ensures var nodes := NodesIn(CanonicalRows(re));
            |nodes| == |re| && forall i :: 0 <= i < |re| ==> nodes[i] == NodeOf(Canonical(re[i]))
  {
    if re != [] {
      var n := |re| - 1;
      NodesOfRows(re[..n]);
      assert CanonicalRows(re)[..|CanonicalRows(re)| - 1] == CanonicalRows(re[..n]);
    }
  }

  // ----- the transport -----

  /** Why a sentence is sent. */
  datatype Origin = InspectProbe | ParseProbe | Discovery | SyntaxCheck | Execution

  datatype Sent = Sent(origin: Origin, words: seq<string>)

  /** What `RunArgsContext` returns for the n-th sentence of the session if it is these words. */
  type Env = (nat, seq<string>) -> RunResult

  /** The seam methods of `Client`; `sent` is what the session has sent so far. */
  class Transport {
    const env: Env
    var sent: seq<Sent>

    constructor (env: Env)
      ensures this.env == env && sent == []
    {
      this.env, sent := env, [];
    }

    method RunArgs(origin: Origin, words: seq<string>) returns (x: RunResult)
      modifies this
      ensures sent == old(sent) + [Sent(origin, words)]
      ensures x == env(|old(sent)|, words)
    {
      x := env(|sent|, words);
      sent := sent + [Sent(origin, words)];
    }

    method List(origin: Origin, c: Command) returns (r: Result<seq<CanonicalReply>>)
      modifies this
      ensures sent == old(sent) + [Sent(origin, WordsOf(c))]
      ensures r == ListOf(env(|old(sent)|, WordsOf(c)))
    {
      var words := Words(c);
      var x := RunArgs(origin, words);
      match x
      case Raised(e) => return Err(TranslateError(e));
      case Returned(re, done) =>
        var out := TranslateReply(re, done);
        return Ok(out);
    }

    method Send(origin: Origin, c: Command) returns (r: Result<CanonicalReply>)
      modifies this
      ensures sent == old(sent) + [Sent(origin, WordsOf(c))]
      ensures r == CommandOf(env(|old(sent)|, WordsOf(c)))
    {
      var l := List(origin, c);
      match l
      case Err(p) => return Err(p);
      case Ok(replies) =>
        if replies == [] {
          return Err(NO_REPLY);
        }
        return Ok(replies[|replies| - 1]);
    }

    method InspectNodes(origin: Origin, k: RequestKind, path: string) returns (r: Result<seq<Node>>)
      modifies this
      ensures sent == old(sent) + [Sent(origin, InspectWords(k, path))]
      ensures r == NodesOf(env(|old(sent)|, InspectWords(k, path)))
    {
      InspectSentence(k, path);
      var l := List(origin, InspectCommand(k, path));
      match l
      case Err(p) => return Err(p);
      case Ok(replies) =>
        var nodes := [];
        for i := 0 to |replies|
          invariant nodes == NodesIn(replies[..i])
        {
          assert replies[..i + 1][..i] == replies[..i];
          if replies[i].kind == RE {
            nodes := nodes + [NodeOf(replies[i])];
          }
        }
        assert replies[..|replies|] == replies;
        return Ok(nodes);
    }
  }
}
