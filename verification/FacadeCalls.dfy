/** Any number of `Validate` and `RunStructured` calls at once (orchestrate.go:46-97, gate/gate1.go:196-234,
    gate/gate2.go:30-75), on top of the step system of `Facade`: which of them send a command, and
    on whose verdict. */
module FacadeCalls {
  import opened Protocol
  import opened Quoting
  import opened Commands
  import opened ClientTransport
  import opened Schema
  import opened Gates
  import opened Session
  import opened SessionTheorems
  import F = Facade

  /** What let a call through its gate: the gate is not in force, the device parsed the script that was
      the n-th sentence, or discovery gave this. */
  datatype Pass = NotInForce | Parsed(n: nat) | Resolved(o: Outcome)

  datatype Stage =
    | Ensuring
    | Routing
    | ToParse
    | Parsing(n: nat)
    | Resolving
    | Passed(gate: Pass)
    | Executed(gate: Pass, n: nat)
    | Refused

  /** `run` tells `RunStructured` from `Validate`. */
  datatype Call = Call(c: Command, run: bool, stage: Stage)

  /** Every call has a goroutine of its own; calls that one goroutine makes one after the other are calls
      that do not overlap. */
  datatype State = State(base: F.State, calls: map<nat, Call>)

  const START := State(F.START, map[])

  datatype Step =
    | Base(a: F.Step)
    | Begin(th: nat, c: Command, run: bool)
    | Route(th: nat)
    | SendScript(th: nat)
    | Judge(th: nat)
    | Resolve(th: nat, o: Outcome)
    | Execute(th: nat)

  predicate At(s: State, th: nat, stage: Stage) {
    th in s.calls && s.calls[th].stage == stage
  }

  function Needed(c: Command): Origin {
    if c.script != "" then ParseProbe else InspectProbe
  }

  /** Of the sentences that are sent outside the probes and the calls there are only those of
      discoveries. A call's own goroutine is in `Facade` as long as it is in `ensureRun`. */
  predicate Enabled(s: State, a: Step) {
    match a
    case Base(x) =>
      && F.Enabled(s.base, x)
      && (x.Other? ==> x.x.origin == Discovery)
      && (!x.Other? && x.th in s.calls ==>
            x.th in s.base.threads && s.base.threads[x.th] != F.Idle && s.calls[x.th].stage.Ensuring?)
    case Begin(th, _, _) => th !in s.base.threads && th !in s.calls
    case Route(th) => At(s, th, Routing) && s.base.probeMu.None?
    case SendScript(th) => At(s, th, ToParse)
    case Judge(th) => th in s.calls && s.calls[th].stage.Parsing?
    case Resolve(th, _) => At(s, th, Resolving)
    case Execute(th) => th in s.calls && s.calls[th].run && s.calls[th].stage.Passed?
  }

  function To(s: State, th: nat, stage: Stage): State
    requires th in s.calls
  {
    s.(calls := s.calls[th := s.calls[th].(stage := stage)])
  }

  function Send(s: State, x: Sent): State {
    s.(base := s.base.(sent := s.base.sent + [x]))
  }

  predicate InForce(s: F.State, c: Command) {
    Needed(c) in s.known && s.known[Needed(c)]
  }

  /** Which gate there is for the command, and whether it is in force (gate/gate1.go:197-211,
      gate/gate2.go:31-33). */
  function Routed(s: F.State, c: Command): Stage {
    if !InForce(s, c) then Passed(NotInForce)
    else if c.script == "" then Resolving
    else if Unbalanced(c.script) then Refused
    else ToParse
  }

  ghost function Next(s: State, a: Step, w: Setting): State
    requires Enabled(s, a)
  {
    match a
    case Base(x) =>
      var t := s.(base := F.Next(s.base, x, w));
      if !x.Other? && x.th in s.calls && t.base.threads[x.th] == F.Idle then
        To(t, x.th, if t.base.ready then Routing else Refused)
      else t
    case Begin(th, c, run) =>
      State(F.Move(s.base, th, F.AtInit), s.calls[th := Call(c, run, Ensuring)])
    case Route(th) => To(s, th, Routed(s.base, s.calls[th].c))
    case SendScript(th) =>
      To(Send(s, Sent(SyntaxCheck, ScriptWords(s.calls[th].c.script))), th, Parsing(|s.base.sent|))
    case Judge(th) =>
      var n := s.calls[th].stage.n;
      var e := Gate1Verdict(true, s.calls[th].c.script, w.classify, w.env, n);
      To(s, th, if e.None? then Passed(Parsed(n)) else Refused)
    case Resolve(th, o) => To(s, th, if Gate2Verdict(o, s.calls[th].c).None? then Passed(Resolved(o)) else Refused)
    case Execute(th) =>
      To(Send(s, Sent(Execution, WordsOf(s.calls[th].c))), th, Executed(s.calls[th].stage.gate, |s.base.sent|))
  }

  ghost predicate Run(from: State, steps: seq<Step>, s: State, w: Setting) {
    if steps == [] then s == from
    else
      var a := steps[|steps| - 1];
      exists t :: Run(from, steps[..|steps| - 1], t, w) && Enabled(t, a) && s == Next(t, a, w)
  }

  // ----- the calls seen from the probes -----

  /** What a step is for the goroutines that probe and build: nothing, or steps of `Facade`, in which
      the sentences of the gates and the commands are sentences of others. */
  ghost function BaseSteps(s: State, a: Step): seq<F.Step>
    requires Enabled(s, a)
  {
    match a
    case Base(x) => [x]
    case Begin(th, _, _) => [F.Spawn(th), F.CallEnsure(th)]
    case SendScript(th) => [F.Other(Sent(SyntaxCheck, ScriptWords(s.calls[th].c.script)))]
    case Execute(th) => [F.Other(Sent(Execution, WordsOf(s.calls[th].c)))]
    case _ => []
  }

  lemma BaseOneMore(steps: seq<F.Step>, s: F.State, a: F.Step, w: Setting)
    requires F.Run(steps, s, w) && F.Enabled(s, a)
    ensures F.Run(steps + [a], F.Next(s, a, w), w)
  {
    hide F.Next, F.Enabled;
    var all := steps + [a];
    assert all[..|all| - 1] == steps && all[|all| - 1] == a;
    assert F.Run(all[..|all| - 1], s, w) && F.Enabled(s, a);
  }

  lemma BaseStep(steps: seq<F.Step>, s: State, a: Step, w: Setting)
    requires F.Run(steps, s.base, w) && Enabled(s, a)
    ensures F.Run(steps + BaseSteps(s, a), Next(s, a, w).base, w)
  {
    hide F.Run, WordsOf, ScriptWords, Gate1Verdict, Gate2Verdict, Learned;
    match a
    case Base(x) => BaseOneMore(steps, s.base, x, w);
    case Begin(th, c, run) =>
      BaseOneMore(steps, s.base, F.Spawn(th), w);
      var t := F.Next(s.base, F.Spawn(th), w);
      BaseOneMore(steps + [F.Spawn(th)], t, F.CallEnsure(th), w);
      assert steps + [F.Spawn(th)] + [F.CallEnsure(th)] == steps + BaseSteps(s, a);
      assert F.Next(t, F.CallEnsure(th), w) == Next(s, a, w).base;
    case SendScript(th) => BaseOneMore(steps, s.base, F.Other(Sent(SyntaxCheck, ScriptWords(s.calls[th].c.script))), w);
    case Execute(th) => BaseOneMore(steps, s.base, F.Other(Sent(Execution, WordsOf(s.calls[th].c))), w);
    case _ => assert steps + [] == steps;
  }

  /** So whatever holds in every run of `Facade` holds with concurrent calls as well: no double probe, one
      pipeline, initMu before probeMu. */
  lemma {:induction false} CallsAreFacadeRuns(steps: seq<Step>, s: State, w: Setting) returns (bases: seq<F.Step>)
    requires Run(START, steps, s, w)
    ensures F.Run(bases, s.base, w)
  {
    if steps == [] {
      bases := [];
    } else {
      hide Next, Enabled, F.Run;
      var a := steps[|steps| - 1];
      var t :| Run(START, steps[..|steps| - 1], t, w) && Enabled(t, a) && s == Next(t, a, w);
      bases := CallsAreFacadeRuns(steps[..|steps| - 1], t, w);
      BaseStep(bases, t, a, w);
      bases := bases + BaseSteps(t, a);
    }
  }

  // ----- what every call has behind it -----

  ghost predicate IsAt(sent: seq<Sent>, n: nat, x: Sent) {
    n < |sent| && sent[n] == x
  }

  /** The gate that a command is routed to let it through, on the word of this pass. */
  ghost predicate Justified(s: F.State, w: Setting, g: Pass, c: Command) {
    match g
    case NotInForce => Needed(c) in s.known && !s.known[Needed(c)]
    case Parsed(n) =>
      && c.script != "" && InForce(s, c) && IsAt(s.sent, n, Sent(SyntaxCheck, ScriptWords(c.script)))
      && Gate1Verdict(true, c.script, w.classify, w.env, n).None?
    case Resolved(o) => c.script == "" && InForce(s, c) && Gate2Verdict(o, c).None?
  }

  ghost predicate CallOk(s: F.State, w: Setting, call: Call) {
    && (!call.stage.Ensuring? && !call.stage.Refused? ==> s.ready)
    && match call.stage
       case ToParse => call.c.script != "" && InForce(s, call.c)
       case Parsing(n) =>
         && call.c.script != "" && InForce(s, call.c)
         && IsAt(s.sent, n, Sent(SyntaxCheck, ScriptWords(call.c.script)))
       case Resolving => call.c.script == "" && InForce(s, call.c)
       case Passed(g) => Justified(s, w, g, call.c)
       case Executed(g, n) =>
         && call.run && Justified(s, w, g, call.c) && IsAt(s.sent, n, Sent(Execution, WordsOf(call.c)))
         && (g.Parsed? ==> g.n < n)
       case _ => true
  }

  /** The syntax check and the command of a call, as numbers of sentences. */
  function CheckOf(call: Call): Option<nat> {
    match call.stage
    case Parsing(n) => Some(n)
    case Passed(g) => if g.Parsed? then Some(g.n) else None
    case Executed(g, _) => if g.Parsed? then Some(g.n) else None
    case _ => None
  }

  function CommandSentence(call: Call): Option<nat> {
    if call.stage.Executed? then Some(call.stage.n) else None
  }

  ghost predicate CallsOk(s: State, w: Setting) {
    && (forall th :: th in s.calls ==> CallOk(s.base, w, s.calls[th]))
    && (forall th, u :: th in s.calls && u in s.calls && th != u && CheckOf(s.calls[th]).Some? ==>
          CheckOf(s.calls[th]) != CheckOf(s.calls[u]))
    && (forall th, u :: th in s.calls && u in s.calls && th != u && CommandSentence(s.calls[th]).Some? ==>
          CommandSentence(s.calls[th]) != CommandSentence(s.calls[u]))
    && (forall i :: 0 <= i < |s.base.sent| && s.base.sent[i].origin == Execution ==> IsOfSomeCall(s, i))
  }

  ghost predicate IsOfSomeCall(s: State, i: nat) {
    exists th :: th in s.calls && CommandSentence(s.calls[th]) == Some(i)
  }

  /** What is settled and sent stays so. */
  ghost predicate Grows(s: F.State, t: F.State) {
    && s.sent <= t.sent && (s.ready ==> t.ready)
    && (forall o :: o in s.known ==> o in t.known && t.known[o] == s.known[o])
  }

  lemma JustifiedLater(s: F.State, t: F.State, w: Setting, call: Call)
    requires Grows(s, t) && CallOk(s, w, call)
    ensures CallOk(t, w, call)
  {
    hide WordsOf, ScriptWords, Gate1Verdict, Gate2Verdict;
  }

  lemma BaseGrows(s: F.State, x: F.Step, w: Setting)
    requires F.PendingOk(s) && F.Enabled(s, x)
    ensures Grows(s, F.Next(s, x, w))
    ensures |F.Next(s, x, w).sent| <= |s.sent| + 1
    ensures |F.Next(s, x, w).sent| > |s.sent| ==>
              var last := F.Next(s, x, w).sent[|s.sent|];
              if x.Other? then last == x.x else x.Check? && last.origin == s.threads[x.th].o
  {
    hide Learned, ProbeWords;
  }

  lemma NumbersAreSent(s: F.State, w: Setting, call: Call)
    requires CallOk(s, w, call)
    ensures CheckOf(call).Some? ==> CheckOf(call).value < |s.sent|
    ensures CommandSentence(call).Some? ==> CommandSentence(call).value < |s.sent|
  {
    hide WordsOf, ScriptWords, Gate1Verdict, Gate2Verdict;
  }

  /** Nothing but what `Facade` does. */
  lemma OthersKeepCalls(s: State, t: State, w: Setting)
    requires CallsOk(s, w) && t.calls == s.calls && Grows(s.base, t.base)
    requires |t.base.sent| <= |s.base.sent| + 1
    requires |t.base.sent| > |s.base.sent| ==> t.base.sent[|s.base.sent|].origin != Execution
    ensures CallsOk(t, w)
  {
    hide CallOk, CheckOf, CommandSentence;
    forall th | th in t.calls
      ensures CallOk(t.base, w, t.calls[th])
    {
      JustifiedLater(s.base, t.base, w, s.calls[th]);
    }
    forall i | 0 <= i < |t.base.sent| && t.base.sent[i].origin == Execution
      ensures IsOfSomeCall(t, i)
    {
      assert IsOfSomeCall(s, i);
    }
  }

  /** What a call may do about one of its numbers: keep it, or get the number of the next sentence. */
  predicate KeepsOrGets(had: Option<nat>, has: Option<nat>, next: nat) {
    has == had || (had.None? && has == Some(next))
  }

  function CallAt(s: State, th: nat): Call {
    if th in s.calls then s.calls[th] else Call(PROBE_COMMAND, false, Refused)
  }

  const PROBE_COMMAND := ScriptCommand(PROBE_SCRIPT)

  /** One call goes on, and sends at most one sentence. */
  lemma CallMoves(s: State, t: State, th: nat, w: Setting)
    requires CallsOk(s, w) && th in t.calls && t.calls == s.calls[th := t.calls[th]] && Grows(s.base, t.base)
    requires CallOk(t.base, w, t.calls[th]) && |t.base.sent| <= |s.base.sent| + 1
    requires CheckOf(t.calls[th]).None? || KeepsOrGets(CheckOf(CallAt(s, th)), CheckOf(t.calls[th]), |s.base.sent|)
    requires KeepsOrGets(CommandSentence(CallAt(s, th)), CommandSentence(t.calls[th]), |s.base.sent|)
    requires |t.base.sent| > |s.base.sent| && t.base.sent[|s.base.sent|].origin == Execution ==>
               CommandSentence(t.calls[th]) == Some(|s.base.sent|)
    ensures CallsOk(t, w)
  {
    hide CallOk, CheckOf, CommandSentence;
    forall u | u in t.calls
      ensures CallOk(t.base, w, t.calls[u])
    {
      if u != th {
        JustifiedLater(s.base, t.base, w, s.calls[u]);
      }
    }
    forall u | u in s.calls
      ensures CheckOf(s.calls[u]) != Some(|s.base.sent|) && CommandSentence(s.calls[u]) != Some(|s.base.sent|)
    {
      NumbersAreSent(s.base, w, s.calls[u]);
    }
    NoNumbers();
    forall i | 0 <= i < |t.base.sent| && t.base.sent[i].origin == Execution
      ensures IsOfSomeCall(t, i)
    {
      StillOfSomeCall(s, t, th, i);
    }
  }

  lemma NoNumbers()
    ensures var call := Call(PROBE_COMMAND, false, Refused); CheckOf(call).None? && CommandSentence(call).None?
  {
  }

  lemma StillOfSomeCall(s: State, t: State, th: nat, i: nat)
    requires th in t.calls && t.calls == s.calls[th := t.calls[th]] && s.base.sent <= t.base.sent
    requires i < |t.base.sent| <= |s.base.sent| + 1 && t.base.sent[i].origin == Execution
    requires i < |s.base.sent| ==> IsOfSomeCall(s, i)
    requires KeepsOrGets(CommandSentence(CallAt(s, th)), CommandSentence(t.calls[th]), |s.base.sent|)
    requires i == |s.base.sent| ==> CommandSentence(t.calls[th]) == Some(i)
    ensures IsOfSomeCall(t, i)
  {
    hide CommandSentence;
    if i < |s.base.sent| {
      var u :| u in s.calls && CommandSentence(s.calls[u]) == Some(i);
      assert u in t.calls && CommandSentence(t.calls[u]) == Some(i);
    }
  }

  lemma CallsKeptByBase(s: State, x: F.Step, w: Setting)
    requires CallsOk(s, w) && F.PendingOk(s.base) && F.PipelineOk(s.base) && Enabled(s, Base(x))
    ensures CallsOk(Next(s, Base(x), w), w)
  {
    var t := Next(s, Base(x), w);
    BaseGrows(s.base, x, w);
    assert x.Check? ==> F.PlaceOk(s.base, s.base.threads[x.th]);
    hide F.Next, F.Enabled, CallsOk, WordsOf, ScriptWords;
    if t.calls == s.calls {
      OthersKeepCalls(s, t, w);
    } else {
      CallMoves(s, t, x.th, w);
    }
  }

  lemma RoutedIsOk(s: F.State, w: Setting, call: Call)
    requires CallOk(s, w, call) && call.stage.Routing? && F.PipelineOk(s)
    ensures var next := call.(stage := Routed(s, call.c));
            CallOk(s, w, next) && CheckOf(next).None? && CommandSentence(next).None?
  {
    hide WordsOf, ScriptWords, Gate1Verdict, Gate2Verdict, Unbalanced;
  }

  lemma CallsKeptByRoute(s: State, th: nat, w: Setting)
    requires CallsOk(s, w) && Enabled(s, Route(th)) && F.PipelineOk(s.base)
    ensures CallsOk(Next(s, Route(th), w), w)
  {
    var t := Next(s, Route(th), w);
    assert CallOk(s.base, w, s.calls[th]);
    RoutedIsOk(s.base, w, s.calls[th]);
    hide CallsOk, CallOk, Routed, F.PipelineOk;
    CallMoves(s, t, th, w);
  }

  lemma CallsKeptBySending(s: State, a: Step, w: Setting)
    requires CallsOk(s, w) && Enabled(s, a) && (a.SendScript? || a.Execute?)
    ensures CallsOk(Next(s, a, w), w)
  {
    var t := Next(s, a, w);
    assert CallOk(s.base, w, s.calls[a.th]);
    NumbersAreSent(s.base, w, s.calls[a.th]);
    JustifiedLater(s.base, t.base, w, s.calls[a.th]);
    hide CallsOk, WordsOf, ScriptWords, Gate1Verdict, Gate2Verdict;
    CallMoves(s, t, a.th, w);
  }

  lemma CallsKeptByJudge(s: State, th: nat, w: Setting)
    requires CallsOk(s, w) && Enabled(s, Judge(th))
    ensures CallsOk(Next(s, Judge(th), w), w)
  {
    assert CallOk(s.base, w, s.calls[th]);
    hide CallsOk, WordsOf, ScriptWords, Gate1Verdict, Gate2Verdict;
    CallMoves(s, Next(s, Judge(th), w), th, w);
  }

  lemma CallsKeptByResolve(s: State, th: nat, o: Outcome, w: Setting)
    requires CallsOk(s, w) && Enabled(s, Resolve(th, o))
    ensures CallsOk(Next(s, Resolve(th, o), w), w)
  {
    assert CallOk(s.base, w, s.calls[th]);
    hide CallsOk, WordsOf, ScriptWords, Gate1Verdict, Gate2Verdict;
    CallMoves(s, Next(s, Resolve(th, o), w), th, w);
  }

  lemma CallsKept(s: State, a: Step, w: Setting)
    requires CallsOk(s, w) && F.PendingOk(s.base) && F.PipelineOk(s.base) && Enabled(s, a)
    ensures CallsOk(Next(s, a, w), w)
  {
    match a
    case Base(x) => CallsKeptByBase(s, x, w);
    case Begin(th, c, run) =>
      hide CallsOk;
      CallMoves(s, Next(s, a, w), th, w);
    case Route(th) => CallsKeptByRoute(s, th, w);
    case SendScript(_) => CallsKeptBySending(s, a, w);
    case Execute(_) => CallsKeptBySending(s, a, w);
    case Judge(th) => CallsKeptByJudge(s, th, w);
    case Resolve(th, o) => CallsKeptByResolve(s, th, o, w);
  }

  lemma StartOk(w: Setting)
    ensures CallsOk(START, w)
  {
  }

  lemma {:induction false} CallsHold(steps: seq<Step>, s: State, w: Setting)
    requires Run(START, steps, s, w)
    ensures CallsOk(s, w) && F.FacadeOk(s.base, w)
  {
    hide Next, Enabled, F.Run, F.FacadeOk, CallsOk;
    var bases := CallsAreFacadeRuns(steps, s, w);
    F.FacadeHolds(bases, s.base, w);
    if steps == [] {
      StartOk(w);
    } else {
      var a := steps[|steps| - 1];
      var t :| Run(START, steps[..|steps| - 1], t, w) && Enabled(t, a) && s == Next(t, a, w);
      CallsHold(steps[..|steps| - 1], t, w);
      PartsOf(t.base, w);
      CallsKept(t, a, w);
    }
  }

  lemma PartsOf(s: F.State, w: Setting)
    requires F.FacadeOk(s, w)
    ensures F.PendingOk(s) && F.PipelineOk(s)
  {
  }

  // ----- what holds in every run -----

  /** However calls overlap, every command that was sent is that of one `RunStructured` call, whose own gate
      had let it through before: the gate is not in force on this device, or the device accepted the
      script in a sentence that this call sent earlier and no other call relies on, or the attributes
      are right by what its discovery found. Both probes were settled by then. */
  lemma ExecutedAreGated(steps: seq<Step>, s: State, w: Setting, i: nat) returns (th: nat)
    requires Run(START, steps, s, w) && i < |s.base.sent| && s.base.sent[i].origin == Execution
    ensures th in s.calls && s.calls[th].run && s.base.sent[i].words == WordsOf(s.calls[th].c)
    ensures forall u :: u in s.calls ==> (CommandSentence(s.calls[u]) == Some(i) <==> u == th)
    ensures s.calls[th].stage.Executed? && Justified(s.base, w, s.calls[th].stage.gate, s.calls[th].c)
    ensures s.calls[th].stage.gate.Parsed? ==>
              && s.calls[th].stage.gate.n < i
              && forall u :: u in s.calls && u != th ==> CheckOf(s.calls[u]) != Some(s.calls[th].stage.gate.n)
    ensures InspectProbe in s.base.known && ParseProbe in s.base.known
  {
    hide Run, Justified, WordsOf, F.LocksAgree, F.LogOk, F.PendingOk;
    CallsHold(steps, s, w);
    assert IsOfSomeCall(s, i);
    th :| th in s.calls && CommandSentence(s.calls[th]) == Some(i);
    assert CallOk(s.base, w, s.calls[th]);
  }

  predicate IsOver(stage: Stage) {
    stage.Refused? || stage.Executed?
  }

  lemma OverStays(s: State, a: Step, w: Setting, th: nat)
    requires Enabled(s, a) && th in s.calls && IsOver(s.calls[th].stage)
    ensures th in Next(s, a, w).calls && Next(s, a, w).calls[th] == s.calls[th]
  {
    hide F.Next, F.Enabled, Gate1Verdict, Gate2Verdict, WordsOf, ScriptWords, Routed;
  }

  /** A call that was refused never sends its command, however the run goes on, and one that sent it does
      so only once. */
  lemma {:induction false} OverIsFinal(s: State, steps: seq<Step>, t: State, w: Setting, th: nat)
    requires Run(s, steps, t, w) && th in s.calls && IsOver(s.calls[th].stage)
    ensures th in t.calls && t.calls[th] == s.calls[th]
  {
    if steps != [] {
      var a := steps[|steps| - 1];
      var u :| Run(s, steps[..|steps| - 1], u, w) && Enabled(u, a) && t == Next(u, a, w);
      hide Next, Enabled, IsOver;
      OverIsFinal(s, steps[..|steps| - 1], u, w, th);
      OverStays(u, a, w, th);
    }
  }

  /** And `Validate` never sends it. */
  lemma ValidateNeverExecutes(steps: seq<Step>, s: State, w: Setting, th: nat)
    requires Run(START, steps, s, w) && th in s.calls && !s.calls[th].run
    ensures CommandSentence(s.calls[th]).None?
    ensures forall i :: 0 <= i < |s.base.sent| && s.base.sent[i].origin == Execution ==>
              exists u :: u in s.calls && u != th && CommandSentence(s.calls[u]) == Some(i)
  {
    hide Run, Justified, WordsOf, F.FacadeOk;
    CallsHold(steps, s, w);
    assert CallOk(s.base, w, s.calls[th]);
    forall i | 0 <= i < |s.base.sent| && s.base.sent[i].origin == Execution
      ensures exists u :: u in s.calls && u != th && CommandSentence(s.calls[u]) == Some(i)
    {
      assert IsOfSomeCall(s, i);
    }
  }
}
