/** What holds over every sequence of facade calls on one session, whatever each sentence returns. */
module SessionTheorems {
  import opened Protocol
  import opened Text
  import opened Commands
  import opened Quoting
  import opened ClientTransport
  import opened Schema
  import opened Gates
  import opened Session

  datatype Call =
    | ProbeInspectCall
    | ProbeParseCall
    | ValidateCall(c: Command, at: Span)
    | InspectCall(path: string, verb: string, at: Span)
    | RunCall(c: Command, at: Span)

  /** A session and everything it has sent. */
  datatype History = History(s: Flags, sent: seq<Sent>)

  function Extended<T>(h: History, x: Effect<T>): History {
    History(x.s, h.sent + x.sent)
  }

  ghost function AfterCall(h: History, call: Call, w: Setting): History {
    var n := |h.sent|;
    match call
    case ProbeInspectCall => Extended(h, AfterProbeInspect(h.s, n, w))
    case ProbeParseCall => Extended(h, AfterProbeParse(h.s, n, w))
    case ValidateCall(c, at) => Extended(h, AfterValidate(h.s, n, w, c, at))
    case InspectCall(path, verb, at) => Extended(h, AfterInspect(h.s, n, w, path, verb, at))
    case RunCall(c, at) => Extended(h, AfterRun(h.s, n, w, c, at))
  }

  ghost function AfterCalls(calls: seq<Call>, w: Setting): History {
    if calls == [] then History(NEW_SESSION, [])
    else AfterCall(AfterCalls(calls[..|calls| - 1], w), calls[|calls| - 1], w)
  }

  // ----- probes -----

  predicate IsProbe(o: Origin) {
    o == InspectProbe || o == ParseProbe
  }

  function ProbeWords(o: Origin): seq<string> {
    if o == InspectProbe then InspectProbeWords() else ParseProbeWords()
  }

  /** What the n-th sentence teaches if it is a probe of kind `o`: nothing unless it is answered or
      refused by the device. */
  function Learned(o: Origin, w: Setting, n: nat): Option<bool> {
    if o == InspectProbe then
      match NodesOf(w.env(n, InspectProbeWords()))
      case Ok(_) => Some(true)
      case Err(p) => if FromDevice(p) then Some(false) else None
    else
      match CommandOf(w.env(n, ParseProbeWords()))
      case Ok(rep) => Some(Ret(rep) != "")
      case Err(p) => if FromDevice(p) then Some(false) else None
  }

  /** In terms of what `RunArgsContext` returned: an inspect probe is conclusive exactly when the run
      gave a reply, even an empty one, or an error sentence of the device, `!fatal` included; the
      parse probe needs a non-empty reply. */
  lemma LearnedExactly(w: Setting, n: nat)
    ensures var x := w.env(n, InspectProbeWords());
            && (Learned(InspectProbe, w, n).Some? <==> x.Returned? || x.err.DeviceError?)
            && (Learned(InspectProbe, w, n) == Some(true) <==> x.Returned?)
    ensures var x := w.env(n, ParseProbeWords());
            && (Learned(ParseProbe, w, n).Some? <==>
                  if x.Returned? then x.done.Some? || x.re != [] else x.err.DeviceError?)
            && (Learned(ParseProbe, w, n) == Some(true) <==> CommandOf(x).Ok? && Ret(CommandOf(x).value) != "")
  {
    TerminalReply(w.env(n, ParseProbeWords()));
  }

  /** All probes of a kind except the last taught nothing, and the flags are what the last one taught. */
  ghost predicate ProbeLog(sent: seq<Sent>, w: Setting, o: Origin, probed: bool, supports: bool) {
    && (forall i :: 0 <= i < |sent| && sent[i].origin == o ==> sent[i].words == ProbeWords(o))
    && (forall i, j :: 0 <= i < j < |sent| && sent[i].origin == o && sent[j].origin == o ==> Learned(o, w, i).None?)
    && (probed <==> exists i :: 0 <= i < |sent| && sent[i].origin == o && Learned(o, w, i).Some?)
    && (forall i :: 0 <= i < |sent| && sent[i].origin == o && Learned(o, w, i).Some? ==>
          Learned(o, w, i) == Some(supports))
    && (supports ==> probed)
  }

  lemma ProbeLogOther(sent: seq<Sent>, more: seq<Sent>, w: Setting, o: Origin, probed: bool, supports: bool)
    requires ProbeLog(sent, w, o, probed, supports) && forall i :: 0 <= i < |more| ==> more[i].origin != o
    ensures ProbeLog(sent + more, w, o, probed, supports)
  {
    hide Learned;
    var t := sent + more;
    assert forall i :: |sent| <= i < |t| ==> t[i] == more[i - |sent|];
    assert forall i :: 0 <= i < |t| && t[i].origin == o ==> i < |sent| && t[i] == sent[i];
    if probed {
      var i :| 0 <= i < |sent| && sent[i].origin == o && Learned(o, w, i).Some?;
      assert t[i] == sent[i];
    }
  }

  lemma ProbeLogProbe(sent: seq<Sent>, w: Setting, o: Origin, probed: bool, supports: bool)
    requires ProbeLog(sent, w, o, false, false)
    requires probed == Learned(o, w, |sent|).Some? && supports == (Learned(o, w, |sent|) == Some(true))
    ensures ProbeLog(sent + [Sent(o, ProbeWords(o))], w, o, probed, supports)
  {
    hide Learned, ProbeWords;
    var t := sent + [Sent(o, ProbeWords(o))];
    assert t[|sent|] == Sent(o, ProbeWords(o));
    assert forall i :: 0 <= i < |sent| ==> t[i] == sent[i];
    assert forall i :: 0 <= i < |sent| && sent[i].origin == o ==> Learned(o, w, i).None?;
    if Learned(o, w, |sent|).Some? {
      var b := Learned(o, w, |sent|).value;
      assert Learned(o, w, |sent|) == if b then Some(true) else Some(false);
      assert t[|sent|].origin == o && Learned(o, w, |sent|) == Some(supports);
    }
    assert forall i :: 0 <= i < |t| && t[i].origin == o && Learned(o, w, i).Some? ==> i == |sent|;
  }

  /** The pipeline is built only after both probes were conclusive, and until then nothing but probes
      is sent. */
  ghost predicate SessionOk(h: History, w: Setting) {
    && ProbeLog(h.sent, w, InspectProbe, h.s.inspectProbed, h.s.supportsInspect)
    && ProbeLog(h.sent, w, ParseProbe, h.s.parseProbed, h.s.supportsParse)
    && (h.s.ready ==> h.s.inspectProbed && h.s.parseProbed)
    && (!h.s.ready ==> forall i :: 0 <= i < |h.sent| ==> IsProbe(h.sent[i].origin))
  }

  lemma InspectProbeKept(h: History, w: Setting)
    requires SessionOk(h, w)
    ensures SessionOk(Extended(h, AfterProbeInspect(h.s, |h.sent|, w)), w)
    ensures var x := AfterProbeInspect(h.s, |h.sent|, w); x.result.None? <==> x.s.inspectProbed
    ensures var x := AfterProbeInspect(h.s, |h.sent|, w);
            x.s.ready == h.s.ready && forall i :: 0 <= i < |x.sent| ==> IsProbe(x.sent[i].origin)
  {
    var x := AfterProbeInspect(h.s, |h.sent|, w);
    if h.s.inspectProbed {
      assert h.sent + [] == h.sent;
    } else {
      ProbeLogProbe(h.sent, w, InspectProbe, x.s.inspectProbed, x.s.supportsInspect);
      ProbeLogOther(h.sent, x.sent, w, ParseProbe, h.s.parseProbed, h.s.supportsParse);
    }
  }

  lemma ParseProbeKept(h: History, w: Setting)
    requires SessionOk(h, w)
    ensures SessionOk(Extended(h, AfterProbeParse(h.s, |h.sent|, w)), w)
    ensures var x := AfterProbeParse(h.s, |h.sent|, w); x.result.None? <==> x.s.parseProbed
    ensures var x := AfterProbeParse(h.s, |h.sent|, w);
            && x.s.ready == h.s.ready && x.s.inspectProbed == h.s.inspectProbed
            && forall i :: 0 <= i < |x.sent| ==> IsProbe(x.sent[i].origin)
  {
    hide FromDevice;
    var x := AfterProbeParse(h.s, |h.sent|, w);
    if h.s.parseProbed {
      assert h.sent + [] == h.sent;
    } else {
      ProbeLogProbe(h.sent, w, ParseProbe, x.s.parseProbed, x.s.supportsParse);
      ProbeLogOther(h.sent, x.sent, w, InspectProbe, h.s.inspectProbed, h.s.supportsInspect);
    }
  }

  lemma EnsureKept(h: History, w: Setting)
    requires SessionOk(h, w)
    ensures SessionOk(Extended(h, AfterEnsure(h.s, |h.sent|, w)), w)
    ensures AfterEnsure(h.s, |h.sent|, w).result.None? <==> AfterEnsure(h.s, |h.sent|, w).s.ready
    ensures var x := AfterEnsure(h.s, |h.sent|, w);
            forall i :: 0 <= i < |x.sent| ==> IsProbe(x.sent[i].origin)
  {
    hide AfterProbeInspect, AfterProbeParse, ProbeLog;
    if h.s.ready {
      assert h.sent + [] == h.sent;
    } else {
      var a := AfterProbeInspect(h.s, |h.sent|, w);
      InspectProbeKept(h, w);
      if a.result.None? {
        var g := Extended(h, a);
        ParseProbeKept(g, w);
        var b := AfterProbeParse(a.s, |g.sent|, w);
        assert h.sent + (a.sent + b.sent) == g.sent + b.sent;
      }
    }
  }

  /** Sentences other than probes, with the flags as they are. */
  lemma OthersKept(h: History, s: Flags, more: seq<Sent>, w: Setting)
    requires SessionOk(h, w) && h.s.ready && s == h.s.(schemas := s.schemas)
    requires forall i :: 0 <= i < |more| ==> !IsProbe(more[i].origin)
    ensures SessionOk(History(s, h.sent + more), w)
  {
    ProbeLogOther(h.sent, more, w, InspectProbe, s.inspectProbed, s.supportsInspect);
    ProbeLogOther(h.sent, more, w, ParseProbe, s.parseProbed, s.supportsParse);
  }

  lemma DiscoverySends(m: Model, path: string, verb: string, at: Span, n: nat, dev: Device)
    ensures var sent := SentFor(m, path, verb, at, n, dev);
            forall i :: 0 <= i < |sent| ==> sent[i].origin == Discovery
  {
  }

  /** A gate changes no flag and sends neither probes nor commands. */
  lemma GateKept(s: Flags, n: nat, w: Setting, c: Command, at: Span)
    ensures var x := AfterGate(s, n, w, c, at);
            && x.s == s.(schemas := x.s.schemas)
            && forall i :: 0 <= i < |x.sent| ==> x.sent[i].origin == if c.script != "" then SyntaxCheck else Discovery
  {
    hide Answered, AfterDiscover, SentFor, ScriptWords, SlashLine, Unbalanced, Gate1Verdict, Gate2Verdict;
    if c.script == "" {
      DiscoverySends(s.schemas, c.path, c.verb, at, n, DeviceOf(w.env));
    }
  }

  lemma ValidateKept(h: History, w: Setting, c: Command, at: Span)
    requires SessionOk(h, w)
    ensures var x := AfterValidate(h.s, |h.sent|, w, c, at);
            && SessionOk(Extended(h, x), w) && (x.result.None? ==> x.s.ready)
            && forall i :: 0 <= i < |x.sent| ==> x.sent[i].origin != Execution
  {
    hide AfterEnsure, AfterGate, SessionOk;
    EnsureKept(h, w);
    var a := AfterEnsure(h.s, |h.sent|, w);
    if a.result.None? {
      var g := Extended(h, a);
      var b := AfterGate(a.s, |g.sent|, w, c, at);
      GateKept(a.s, |g.sent|, w, c, at);
      OthersKept(g, b.s, b.sent, w);
      assert h.sent + (a.sent + b.sent) == g.sent + b.sent;
    }
  }

  lemma InspectKept(h: History, w: Setting, path: string, verb: string, at: Span)
    requires SessionOk(h, w)
    ensures var x := AfterInspect(h.s, |h.sent|, w, path, verb, at);
            && SessionOk(Extended(h, x), w)
            && forall i :: 0 <= i < |x.sent| ==> x.sent[i].origin != Execution
  {
    hide AfterEnsure, AfterDiscover, Answered, SentFor, ProbeLog;
    EnsureKept(h, w);
    var a := AfterEnsure(h.s, |h.sent|, w);
    if a.result.None? {
      var g := Extended(h, a);
      var dev := DeviceOf(w.env);
      var more := SentFor(a.s.schemas, path, verb, at, |g.sent|, dev);
      DiscoverySends(a.s.schemas, path, verb, at, |g.sent|, dev);
      OthersKept(g, a.s.(schemas := AfterDiscover(a.s.schemas, path, verb, at, |g.sent|, dev)), more, w);
      assert h.sent + (a.sent + more) == g.sent + more;
    }
  }

  lemma RunKept(h: History, w: Setting, c: Command, at: Span)
    requires SessionOk(h, w)
    ensures SessionOk(Extended(h, AfterRun(h.s, |h.sent|, w, c, at)), w)
  {
    hide AfterValidate, WordsOf, CommandOf;
    ValidateKept(h, w, c, at);
    var a := AfterValidate(h.s, |h.sent|, w, c, at);
    if a.result.None? {
      var g := Extended(h, a);
      var last := [Sent(Execution, WordsOf(c))];
      OthersKept(g, a.s, last, w);
      assert h.sent + (a.sent + last) == g.sent + last;
    }
  }

  lemma {:induction false} SessionHolds(calls: seq<Call>, w: Setting)
    ensures SessionOk(AfterCalls(calls, w), w)
  {
    if calls != [] {
      hide AfterEnsure, AfterValidate, AfterInspect, AfterRun, AfterProbeInspect, AfterProbeParse, SessionOk;
      var h := AfterCalls(calls[..|calls| - 1], w);
      SessionHolds(calls[..|calls| - 1], w);
      match calls[|calls| - 1]
      case ProbeInspectCall => InspectProbeKept(h, w);
      case ProbeParseCall => ParseProbeKept(h, w);
      case ValidateCall(c, at) => ValidateKept(h, w, c, at);
      case InspectCall(path, verb, at) => InspectKept(h, w, path, verb, at);
      case RunCall(c, at) => RunKept(h, w, c, at);
    }
  }

  predicate IsSentAs(h: History, o: Origin, k: nat) {
    k < |h.sent| && h.sent[k].origin == o
  }

  /** Over every sequence of calls a probe that taught something is the last of its kind; the device
      counts as probed exactly when there was one, and as supporting what it was probed for exactly
      when that one said so. A probe that failed otherwise pins nothing. */
  lemma ProbesAreConclusiveOnce(calls: seq<Call>, w: Setting, i: nat, j: nat)
    ensures var h := AfterCalls(calls, w);
            && (i < j < |h.sent| && h.sent[i].origin == h.sent[j].origin && IsProbe(h.sent[i].origin) ==>
                  Learned(h.sent[i].origin, w, i).None?)
            && (h.s.inspectProbed <==> exists k :: IsSentAs(h, InspectProbe, k) && Learned(InspectProbe, w, k).Some?)
            && (CanInspect(h.s) <==>
                  exists k :: IsSentAs(h, InspectProbe, k) && Learned(InspectProbe, w, k) == Some(true))
            && (h.s.parseProbed <==> exists k :: IsSentAs(h, ParseProbe, k) && Learned(ParseProbe, w, k).Some?)
            && (CanParse(h.s) <==> exists k :: IsSentAs(h, ParseProbe, k) && Learned(ParseProbe, w, k) == Some(true))
  {
    SessionHolds(calls, w);
  }

  /** Once a kind of probe was conclusive, no later call changes its flags. */
  lemma {:induction false} FlagsArePinned(calls: seq<Call>, more: seq<Call>, w: Setting)
    ensures Pinned(AfterCalls(calls, w).s, AfterCalls(calls + more, w).s)
  {
    hide AfterCall;
    if more == [] {
      assert calls + more == calls;
    } else {
      var n := |more| - 1;
      FlagsArePinned(calls, more[..n], w);
      assert (calls + more)[..|calls + more| - 1] == calls + more[..n];
      CallPins(AfterCalls(calls + more[..n], w), more[n], w);
    }
  }

  predicate Pinned(s: Flags, t: Flags) {
    && (s.inspectProbed ==> t.inspectProbed && t.supportsInspect == s.supportsInspect)
    && (s.parseProbed ==> t.parseProbed && t.supportsParse == s.supportsParse)
    && (s.ready ==> t.ready)
  }

  lemma EnsurePins(s: Flags, n: nat, w: Setting)
    ensures Pinned(s, AfterEnsure(s, n, w).s)
  {
    hide NodesOf, CommandOf, InspectProbeWords, ParseProbeWords, FromDevice;
  }

  lemma CallPins(h: History, call: Call, w: Setting)
    ensures Pinned(h.s, AfterCall(h, call, w).s)
  {
    hide AfterEnsure, AfterGate, AfterDiscover, Answered, SentFor, CommandOf, NodesOf, WordsOf, InspectProbeWords,
      ParseProbeWords, FromDevice;
    EnsurePins(h.s, |h.sent|, w);
    if call.ValidateCall? || call.RunCall? {
      var a := AfterEnsure(h.s, |h.sent|, w);
      GateKept(a.s, |h.sent| + |a.sent|, w, call.c, call.at);
    }
  }

  // ----- execution -----

  function Executed(sent: seq<Sent>): seq<seq<string>> {
    if sent == [] then []
    else
      var last := sent[|sent| - 1];
      Executed(sent[..|sent| - 1]) + (if last.origin == Execution then [last.words] else [])
  }

  lemma {:induction false} ExecutedOfConcat(a: seq<Sent>, b: seq<Sent>)
    ensures Executed(a + b) == Executed(a) + Executed(b)
  {
    if b == [] {
      assert a + b == a;
    } else {
      var n := |b| - 1;
      assert (a + b)[..|a + b| - 1] == a + b[..n];
      ExecutedOfConcat(a, b[..n]);
    }
  }

  lemma {:induction false} NothingExecuted(sent: seq<Sent>)
    requires forall i :: 0 <= i < |sent| ==> sent[i].origin != Execution
    ensures Executed(sent) == []
  {
    if sent != [] {
      NothingExecuted(sent[..|sent| - 1]);
    }
  }

  lemma ExecutedLast(sent: seq<Sent>, words: seq<string>)
    ensures Executed(sent + [Sent(Execution, words)]) == Executed(sent) + [words]
  {
    assert (sent + [Sent(Execution, words)])[..|sent|] == sent;
  }

  /** Whether the gate that a command is routed to lets it through, given what is known of the device. */
  ghost predicate Passes(s: Flags, n: nat, w: Setting, c: Command, at: Span) {
    if c.script != "" then
      CanParse(s) ==>
        && !Unbalanced(c.script)
        && CommandOf(w.env(n, ScriptWords(c.script))).Ok?
        && w.classify(Ret(CommandOf(w.env(n, ScriptWords(c.script))).value)).Valid?
    else
      CanInspect(s) ==>
        var o := Answered(s.schemas, c.path, c.verb, at, n, DeviceOf(w.env));
        o.Found? && (o.schema.category == Unknown || c.attrs.Keys <= Elements(o.schema.attrs))
  }

  lemma GatePasses(s: Flags, n: nat, w: Setting, c: Command, at: Span)
    ensures AfterGate(s, n, w, c, at).result.None? <==> Passes(s, n, w, c, at)
  {
    hide Answered, AfterDiscover, SentFor, CommandOf, WordsOf;
    if c.script == "" {
      var o := Answered(s.schemas, c.path, c.verb, at, n, DeviceOf(w.env));
      if o.Found? {
        NothingLeft(c.attrs.Keys, Elements(o.schema.attrs));
      }
    }
  }

  /** `RunStructured` sends the command exactly when both probes are settled and the gate passes it,
      and then once, as its last sentence; its reply is that sentence's. Otherwise the command is not
      sent and the error is that of the probes or the gate. */
  lemma RunExecutesExactly(h: History, w: Setting, c: Command, at: Span)
    requires SessionOk(h, w)
    ensures var a, x := AfterEnsure(h.s, |h.sent|, w), AfterRun(h.s, |h.sent|, w, c, at);
            var passed := a.result.None? && Passes(a.s, |h.sent| + |a.sent|, w, c, at);
            && Executed(x.sent) == (if passed then [WordsOf(c)] else [])
            && (passed ==> |x.sent| > 0 && x.sent[|x.sent| - 1] == Sent(Execution, WordsOf(c))
                           && x.result == CommandOf(w.env(|h.sent| + |x.sent| - 1, WordsOf(c))))
            && (!passed ==> x.result.Err?)
  {
    hide AfterEnsure, AfterGate, CommandOf, WordsOf, Passes, SessionOk, Executed;
    var a := AfterEnsure(h.s, |h.sent|, w);
    GatePasses(a.s, |h.sent| + |a.sent|, w, c, at);
    ValidateKept(h, w, c, at);
    var v := AfterValidate(h.s, |h.sent|, w, c, at);
    NothingExecuted(v.sent);
    ExecutedLast(v.sent, WordsOf(c));
  }

  /** The commands of the calls that got past their gate. */
  ghost function PassedCommands(calls: seq<Call>, w: Setting): seq<seq<string>> {
    if calls == [] then []
    else
      var h, call := AfterCalls(calls[..|calls| - 1], w), calls[|calls| - 1];
      PassedCommands(calls[..|calls| - 1], w) +
      (if call.RunCall? && AfterValidate(h.s, |h.sent|, w, call.c, call.at).result.None? then [WordsOf(call.c)]
       else [])
  }

  /** Over every sequence of calls, the commands that were executed are exactly those of the
      `RunStructured` calls whose validation returned nil, each once and in the order of the calls;
      `Validate`, `Inspect` and the probes execute nothing. */
  lemma {:induction false} ExecutedIsPassed(calls: seq<Call>, w: Setting)
    ensures Executed(AfterCalls(calls, w).sent) == PassedCommands(calls, w)
  {
    if calls != [] {
      var init, call := calls[..|calls| - 1], calls[|calls| - 1];
      var h := AfterCalls(init, w);
      ExecutedIsPassed(init, w);
      SessionHolds(init, w);
      CallExecutes(h, call, w);
    }
  }

  lemma CallExecutes(h: History, call: Call, w: Setting)
    requires SessionOk(h, w)
    ensures Executed(AfterCall(h, call, w).sent) == Executed(h.sent) +
              if call.RunCall? && AfterValidate(h.s, |h.sent|, w, call.c, call.at).result.None? then [WordsOf(call.c)]
              else []
  {
    hide AfterEnsure, AfterValidate, AfterInspect, WordsOf, CommandOf, NodesOf;
    var n := |h.sent|;
    match call
    case ProbeInspectCall =>
      NothingExecuted(AfterProbeInspect(h.s, n, w).sent);
      ExecutedOfConcat(h.sent, AfterProbeInspect(h.s, n, w).sent);
    case ProbeParseCall =>
      NothingExecuted(AfterProbeParse(h.s, n, w).sent);
      ExecutedOfConcat(h.sent, AfterProbeParse(h.s, n, w).sent);
    case ValidateCall(c, at) =>
      ValidateKept(h, w, c, at);
      NothingExecuted(AfterValidate(h.s, n, w, c, at).sent);
      ExecutedOfConcat(h.sent, AfterValidate(h.s, n, w, c, at).sent);
    case InspectCall(path, verb, at) =>
      InspectKept(h, w, path, verb, at);
      NothingExecuted(AfterInspect(h.s, n, w, path, verb, at).sent);
      ExecutedOfConcat(h.sent, AfterInspect(h.s, n, w, path, verb, at).sent);
    case RunCall(c, at) =>
      var v := AfterValidate(h.s, n, w, c, at);
      ValidateKept(h, w, c, at);
      NothingExecuted(v.sent);
      ExecutedOfConcat(h.sent, v.sent);
      var last := [Sent(Execution, WordsOf(c))];
      assert last[..0] == [];
      ExecutedOfConcat(h.sent, v.sent + last);
      ExecutedOfConcat(v.sent, last);
  }

  /** The probes and the gates never send the validated command itself, under whatever name: a
      sentence of `Validate` equals that of the command only when the command is itself the script of
      the parse probe, or an inspect probe. */
  lemma ValidateSendsNoCommand(s: Flags, n: nat, w: Setting, c: Command, at: Span, i: nat)
    requires var x := AfterValidate(s, n, w, c, at); i < |x.sent| && x.sent[i].words == WordsOf(c)
    ensures c.script != "" ==> c.script == PROBE_SCRIPT && AfterValidate(s, n, w, c, at).sent[i].origin == ParseProbe
    ensures c.script == "" ==> exists k, path :: WordsOf(c) == InspectWords(k, path)
  {
    hide AfterEnsure, AfterGate, WordsOf, InspectWords, ParseProbeWords;
    var a := AfterEnsure(s, n, w);
    var sent := AfterValidate(s, n, w, c, at).sent[i];
    if i < |a.sent| {
      assert sent == a.sent[i];
      EnsureSends(s, n, w, i);
      if sent.origin == ParseProbe {
        OnlyScriptsProbeParse(c);
      } else {
        OnlyStructuredInspect(c, Child, "system");
      }
    } else {
      var b := AfterGate(a.s, n + |a.sent|, w, c, at);
      assert sent == b.sent[i - |a.sent|];
      GateSendsNoCommand(a.s, n + |a.sent|, w, c, at, i - |a.sent|);
    }
  }

  lemma GateSendsNoCommand(s: Flags, n: nat, w: Setting, c: Command, at: Span, i: nat)
    requires i < |AfterGate(s, n, w, c, at).sent| && AfterGate(s, n, w, c, at).sent[i].words == WordsOf(c)
    ensures c.script == "" && exists k, path :: WordsOf(c) == InspectWords(k, path)
  {
    hide Answered, AfterDiscover, SentFor, WordsOf;
    if c.script != "" {
      Gate1SendsNoCommand(CanParse(s), c, i);
    } else {
      Gate2SendsProbes(true, s.schemas, c, at, n, DeviceOf(w.env), i);
    }
  }

  lemma EnsureSends(s: Flags, n: nat, w: Setting, i: nat)
    requires i < |AfterEnsure(s, n, w).sent|
    ensures var x := AfterEnsure(s, n, w).sent[i];
            x == Sent(InspectProbe, InspectProbeWords()) || x == Sent(ParseProbe, ParseProbeWords())
  {
  }

  lemma {:induction false} AttributeWordsAt(ks: seq<string>, attrs: map<string, string>)
    requires forall k :: k in ks ==> k in attrs
    ensures |AttributeWords(ks, attrs)| == |ks|
    ensures forall i :: 0 <= i < |ks| ==> AttributeWords(ks, attrs)[i] == AttributeWord(ks[i], attrs[ks[i]])
  {
    if ks != [] {
      AttributeWordsAt(ks[..|ks| - 1], attrs);
    }
  }

  lemma {:induction false} QueryWordsAt(qs: seq<string>)
    ensures forall i :: 0 <= i < |QueryWords(qs)| ==> QueryWords(qs)[i] != "" && QueryWords(qs)[i][0] == '?'
  {
    if qs != [] {
      QueryWordsAt(qs[..|qs| - 1]);
    }
  }

  lemma SecondChar(k: string, v: string)
    ensures |AttributeWord(k, v)| > 1 && AttributeWord(k, v)[1] == if k == "" then '=' else k[0]
  {
  }

  predicate IsAttributeWord(w: string) {
    w != "" && w[0] == '='
  }

  lemma AttributeWordAt(c: Command, i: nat)
    requires c.script == "" && 1 <= i < |WordsOf(c)| && IsAttributeWord(WordsOf(c)[i])
    ensures var ks := Listed(c.attrs.Keys);
            i <= |ks| && ks[i - 1] in c.attrs && WordsOf(c)[i] == AttributeWord(ks[i - 1], c.attrs[ks[i - 1]])
  {
    hide WordsOf;
    var rest := WordsSplit(c);
    hide AttributeWords;
    var n := |Listed(c.attrs.Keys)|;
    assert forall k :: n < k < |WordsOf(c)| ==> WordsOf(c)[k] == rest[k - 1 - n];
  }

  lemma WordsSplit(c: Command) returns (rest: seq<string>)
    requires c.script == ""
    ensures var ks := Listed(c.attrs.Keys);
            && (forall k :: k in ks ==> k in c.attrs) && |AttributeWords(ks, c.attrs)| == |ks|
            && (forall i :: 0 <= i < |ks| ==> AttributeWords(ks, c.attrs)[i] == AttributeWord(ks[i], c.attrs[ks[i]]))
            && WordsOf(c) == [CommandWord(c)] + AttributeWords(ks, c.attrs) + rest
    ensures forall i :: 0 <= i < |rest| ==> !IsAttributeWord(rest[i])
  {
    hide AttributeWords, QueryWords;
    ListedKeys(c.attrs);
    var q, p := QueryWords(c.queries), ProplistWords(c.proplist);
    AttributeWordsAt(Listed(c.attrs.Keys), c.attrs);
    QueryWordsAt(c.queries);
    assert p != [] ==> p[0][0] == '.';
    rest := q + p;
  }

  /** The attribute words of a structured command are those of different attributes in the order of
      their names. */
  lemma AttributeWordsInOrder(c: Command, i: nat, j: nat) returns (k: string, l: string)
    requires c.script == "" && 1 <= i < j < |WordsOf(c)|
    requires IsAttributeWord(WordsOf(c)[i]) && IsAttributeWord(WordsOf(c)[j])
    ensures k in c.attrs && WordsOf(c)[i] == AttributeWord(k, c.attrs[k])
    ensures l in c.attrs && WordsOf(c)[j] == AttributeWord(l, c.attrs[l])
    ensures Lt(k, l)
  {
    ListedKeys(c.attrs);
    AttributeWordAt(c, i);
    AttributeWordAt(c, j);
    hide WordsOf;
    k, l := Listed(c.attrs.Keys)[i - 1], Listed(c.attrs.Keys)[j - 1];
  }

  lemma FirstWordOfScript(c: Command)
    ensures c.script != "" ==>
              WordsOf(c)[0] == "/execute" && |WordsOf(c)| == 3 && WordsOf(c)[1] == "=script=" + c.script
  {
  }

  lemma OnlyStructuredInspect(c: Command, k: RequestKind, path: string)
    requires WordsOf(c) == InspectWords(k, path)
    ensures c.script == ""
  {
    FirstWordOfScript(c);
    assert "/execute"[1] != "/console/inspect"[1];
  }

  /** A structured command never renders as the parse probe: its attributes would be in order. */
  lemma OnlyScriptsProbeParse(c: Command)
    requires WordsOf(c) == ParseProbeWords()
    ensures c.script == PROBE_SCRIPT
  {
    FirstWordOfScript(c);
    assert ("=script=" + c.script)[8..] == c.script && ("=script=" + PROBE_SCRIPT)[8..] == PROBE_SCRIPT;
    assert ParseProbeWords()[1][1] == 's' && ParseProbeWords()[2][1] == 'a';
    assert IsAttributeWord(ParseProbeWords()[1]) && IsAttributeWord(ParseProbeWords()[2]);
    if c.script == "" {
      var k, l := AttributeWordsInOrder(c, 1, 2);
      SecondChar(k, c.attrs[k]);
      SecondChar(l, c.attrs[l]);
    }
  }

  // ----- errors on the way -----

  /** A script whose `:parse` sentence fails is not executed: the call returns the translated error of
      the transport and never a validation result, and nothing else is sent. */
  lemma TransportErrorStopsScript(s: Flags, n: nat, w: Setting, c: Command, at: Span)
    requires s.ready && CanParse(s) && c.script != "" && !Unbalanced(c.script)
    requires w.env(n, ScriptWords(c.script)).Raised?
    ensures var x := AfterRun(s, n, w, c, at);
            && x.result == Err(TranslateError(w.env(n, ScriptWords(c.script)).err))
            && x.sent == [Sent(SyntaxCheck, ScriptWords(c.script))] && x.s == s
  {
    hide WordsOf, ParseScript;
    assert SlashLine(c) == c.script;
    assert [] + [Sent(SyntaxCheck, ScriptWords(c.script))] == [Sent(SyntaxCheck, ScriptWords(c.script))];
  }

  /** What `Inspect` makes of an error of its first sentence: an error sentence of the device other than
      `!fatal` means that the command is unknown, and that is remembered for `ttl`; every other error
      is returned and remembered by nobody. */
  lemma FirstProbeFails(s: Flags, n: nat, w: Setting, path: string, verb: string, at: Span, e: Error,
                        k: nat, later: Span)
    requires s.ready && Hit(s.schemas, SchemaKey(path, verb), at.asked).None?
    requires w.env(n, InspectWords(Child, CommandPath(path, verb))) == Raised(e)
    requires s.schemas.ttl > 0 ==> later.asked <= at.stored + s.schemas.ttl
    ensures var x := AfterInspect(s, n, w, path, verb, at);
            var rejected := e.DeviceError? && e.sen.word != FATAL;
            && |x.sent| == 1
            && x.result == (if rejected then Found(UnknownSchema(path, verb)) else Outcome.Broken(TranslateError(e)))
            && (AfterInspect(x.s, k, w, path, verb, later).sent == [] <==> rejected)
  {
    var x := AfterInspect(s, n, w, path, verb, at);
    var dev := DeviceOf(w.env);
    ErrorsAreTold(e);
    FirstProbe(dev, n, OverrideOf(s.schemas, path, verb), path, verb, dev(n, Child, CommandPath(path, verb)));
    hide Fresh, Asked, WordsOf, TranslateError, Swallowable;
    assert [] + SentFor(s.schemas, path, verb, at, n, dev) == SentFor(s.schemas, path, verb, at, n, dev);
    AskedSomething(dev, k, path, verb);
  }

  lemma FirstProbe(dev: Device, n: nat, override: Option<Category>, path: string, verb: string, a: Answer)
    requires a == dev(n, Child, CommandPath(path, verb)) && !a.Rows?
    ensures |Asked(dev, n, path, verb)| == 1
    ensures Fresh(dev, n, override, path, verb) ==
              if a.Absent? then Found(UnknownSchema(path, verb)) else Outcome.Broken(a.problem)
  {
  }

  lemma AskedSomething(dev: Device, n: nat, path: string, verb: string)
    ensures Asked(dev, n, path, verb) != []
  {
  }

  // ----- what the code does beyond its comments -----

  /** A probe that is answered with `!fatal`, the end of the session, is not reported as an error: it
      settles for good that the device does not support what was probed. */
  lemma FatalSettlesProbe(s: Flags, n: nat, w: Setting, sen: Sentence)
    requires !s.inspectProbed && !s.supportsInspect && sen.word == FATAL
    requires w.env(n, InspectProbeWords()) == Raised(DeviceError(sen))
    ensures var x := AfterProbeInspect(s, n, w); x.result.None? && x.s.inspectProbed && !CanInspect(x.s)
    ensures !Swallowable(TranslateError(DeviceError(sen)))
  {
  }
}
