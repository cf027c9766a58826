/** The facade of one session: capability probes, the lazily built pipeline, and the calls that
    validate, inspect and run commands (client_transport.go:52-133, orchestrate.go). */
module Session {
  import opened Protocol
  import opened Commands
  import opened Quoting
  import opened ClientTransport
  import opened Schema
  import opened Gates

  // ----- the state and the calls, as values -----

  /** `runState`; `schemas` are the contents of the store, empty until the session is ready. */
  datatype Flags = Flags(
    inspectProbed: bool, supportsInspect: bool, parseProbed: bool, supportsParse: bool,
    ready: bool, schemas: Model)

  predicate CanInspect(s: Flags) {
    s.inspectProbed && s.supportsInspect
  }

  predicate CanParse(s: Flags) {
    s.parseProbed && s.supportsParse
  }

  const DEFAULT_TTL := 30

  const EMPTY_MODEL := Model(map[], DEFAULT_TTL, map[])

  const NEW_SESSION := Flags(false, false, false, false, false, EMPTY_MODEL)

  /** What is around the session: what each sentence returns, and the classifier of Gate 1. */
  datatype Setting = Setting(env: Env, classify: Classifier)

  /** The effect of one call: the new state, the sentences sent, and the result. */
  datatype Effect<+T> = Effect(s: Flags, sent: seq<Sent>, result: T)

  const PROBE_SCRIPT := ":put \"probe\""

  function InspectProbeWords(): seq<string> {
    InspectWords(Child, "system")
  }

  function ParseProbeWords(): seq<string> {
    ["/execute", "=script=" + PROBE_SCRIPT, "=as-string="]
  }

  /** `ProbeInspect`. */
  function AfterProbeInspect(s: Flags, n: nat, w: Setting): Effect<Option<Problem>> {
    if s.inspectProbed then Effect(s, [], None)
    else
      var sent := [Sent(InspectProbe, InspectProbeWords())];
      match NodesOf(w.env(n, InspectProbeWords()))
      case Ok(_) => Effect(s.(inspectProbed := true, supportsInspect := true), sent, None)
      case Err(p) => if FromDevice(p) then Effect(s.(inspectProbed := true), sent, None) else Effect(s, sent, Some(p))
  }

  /** `ProbeParse`. */
  function AfterProbeParse(s: Flags, n: nat, w: Setting): Effect<Option<Problem>> {
    if s.parseProbed then Effect(s, [], None)
    else
      var sent := [Sent(ParseProbe, ParseProbeWords())];
      match CommandOf(w.env(n, ParseProbeWords()))
      case Ok(rep) => Effect(s.(parseProbed := true, supportsParse := Ret(rep) != ""), sent, None)
      case Err(p) => if FromDevice(p) then Effect(s.(parseProbed := true), sent, None) else Effect(s, sent, Some(p))
  }

  /** `ensureRun`. */
  function AfterEnsure(s: Flags, n: nat, w: Setting): Effect<Option<Problem>> {
    if s.ready then Effect(s, [], None)
    else
      var a := AfterProbeInspect(s, n, w);
      if a.result.Some? then a
      else
        var b := AfterProbeParse(a.s, n + |a.sent|, w);
        Effect(if b.result.Some? then b.s else b.s.(ready := true, schemas := EMPTY_MODEL), a.sent + b.sent, b.result)
  }

  /** `validate`: scripts go to Gate 1, structured commands to Gate 2. */
  ghost function AfterGate(s: Flags, n: nat, w: Setting, c: Command, at: Span): Effect<Option<Problem>> {
    if c.script != "" then
      Effect(s, Gate1Sent(CanParse(s), SlashLine(c)), Gate1Verdict(CanParse(s), SlashLine(c), w.classify, w.env, n))
    else if !CanInspect(s) then Effect(s, [], None)
    else
      var dev := DeviceOf(w.env);
      Effect(s.(schemas := AfterDiscover(s.schemas, c.path, c.verb, at, n, dev)),
             SentFor(s.schemas, c.path, c.verb, at, n, dev),
             Gate2Verdict(Answered(s.schemas, c.path, c.verb, at, n, dev), c))
  }

  /** `Validate`. */
  ghost function AfterValidate(s: Flags, n: nat, w: Setting, c: Command, at: Span): Effect<Option<Problem>> {
    var a := AfterEnsure(s, n, w);
    if a.result.Some? then a
    else
      var b := AfterGate(a.s, n + |a.sent|, w, c, at);
      Effect(b.s, a.sent + b.sent, b.result)
  }

  /** `Inspect`. */
  function AfterInspect(s: Flags, n: nat, w: Setting, path: string, verb: string, at: Span): Effect<Outcome> {
    var a := AfterEnsure(s, n, w);
    if a.result.Some? then Effect(a.s, a.sent, Broken(a.result.value))
    else
      var k := n + |a.sent|;
      var dev := DeviceOf(w.env);
      Effect(a.s.(schemas := AfterDiscover(a.s.schemas, path, verb, at, k, dev)),
             a.sent + SentFor(a.s.schemas, path, verb, at, k, dev),
             Answered(a.s.schemas, path, verb, at, k, dev))
  }

  /** `RunStructured`. */
  ghost function AfterRun(s: Flags, n: nat, w: Setting, c: Command, at: Span): Effect<Result<CanonicalReply>> {
    var a := AfterValidate(s, n, w, c, at);
    if a.result.Some? then Effect(a.s, a.sent, Err(a.result.value))
    else
      Effect(a.s, a.sent + [Sent(Execution, WordsOf(c))], CommandOf(w.env(n + |a.sent|, WordsOf(c))))
  }

  // ----- the session -----

  class Session {
    const seam: Transport
    const classify: Classifier
    var inspectProbed: bool
    var supportsInspect: bool
    var parseProbed: bool
    var supportsParse: bool
    var gate1: Gate1?
    var gate2: Gate2?

    constructor (env: Env, classify: Classifier)
      ensures Valid() && AsFlags() == NEW_SESSION && Around() == Setting(env, classify)
      ensures fresh(seam) && seam.sent == []
    {
      seam := new Transport(env);
      this.classify := classify;
      inspectProbed, supportsInspect, parseProbed, supportsParse := false, false, false, false;
      gate1, gate2 := null, null;
    }

    /** `ready` and the pipeline go together. */
    ghost predicate Valid()
      reads this, gate1, gate2
    {
      && (gate1 != null <==> gate2 != null)
      && (gate1 != null ==> gate1.seam == seam && gate1.classify == classify)
      && (gate2 != null ==> gate2.schemas.seam == seam)
    }

    ghost function Footprint(): set<object>
      reads this, gate2
    {
      {this, seam} + (if gate2 != null then {gate2.schemas, gate2.schemas.cache} else {})
    }

    function AsFlags(): Flags
      reads this, gate2, if gate2 != null then {gate2.schemas, gate2.schemas.cache} else {}
    {
      Flags(inspectProbed, supportsInspect, parseProbed, supportsParse, gate2 != null,
            if gate2 != null then gate2.schemas.AsModel() else EMPTY_MODEL)
    }

    function Around(): Setting {
      Setting(seam.env, classify)
    }

    method ProbeInspect() returns (e: Option<Problem>)
      requires Valid()
      modifies this`inspectProbed, this`supportsInspect, seam
      ensures Valid()
      ensures var x := AfterProbeInspect(old(AsFlags()), |old(seam.sent)|, Around());
              AsFlags() == x.s && seam.sent == old(seam.sent) + x.sent && e == x.result
    {
      if inspectProbed {
        return None;
      }
      var r := seam.InspectNodes(InspectProbe, Child, "system");
      match r
      case Err(p) =>
        if FromDevice(p) {
          inspectProbed := true;
          return None;
        }
        return Some(p);
      case Ok(_) =>
        inspectProbed := true;
        supportsInspect := true;
        return None;
    }

    method ProbeParse() returns (e: Option<Problem>)
      requires Valid()
      modifies this`parseProbed, this`supportsParse, seam
      ensures Valid()
      ensures var x := AfterProbeParse(old(AsFlags()), |old(seam.sent)|, Around());
              AsFlags() == x.s && seam.sent == old(seam.sent) + x.sent && e == x.result
    {
      if parseProbed {
        return None;
      }
      var r := seam.Send(ParseProbe, ScriptCommand(PROBE_SCRIPT));
      match r
      case Err(p) =>
        if FromDevice(p) {
          parseProbed := true;
          return None;
        }
        return Some(p);
      case Ok(rep) =>
        parseProbed := true;
        supportsParse := Ret(rep) != "";
        return None;
    }

    method EnsureRun() returns (e: Option<Problem>)
      requires Valid()
      modifies this, seam
      ensures Valid()
      ensures gate2 != old(gate2) ==> gate2 != null && fresh({gate2.schemas, gate2.schemas.cache})
      ensures e.None? ==> gate2 != null
      ensures var x := AfterEnsure(old(AsFlags()), |old(seam.sent)|, Around());
              AsFlags() == x.s && seam.sent == old(seam.sent) + x.sent && e == x.result
    {
      hide AfterProbeInspect, AfterProbeParse;
      if gate2 != null {
        return None;
      }
      e := ProbeInspect();
      if e.Some? {
        return;
      }
      e := ProbeParse();
      if e.Some? {
        return;
      }
      var schemas := new Store(seam, DEFAULT_TTL);
      gate1 := new Gate1(seam, classify);
      gate2 := new Gate2(schemas);
    }

    method ValidateWith(c: Command, at: Span) returns (e: Option<Problem>)
      requires Valid() && gate2 != null
      modifies Footprint()
      ensures Valid() && gate2 == old(gate2)
      ensures var x := AfterGate(old(AsFlags()), |old(seam.sent)|, Around(), c, at);
              AsFlags() == x.s && seam.sent == old(seam.sent) + x.sent && e == x.result
    {
      if c.script != "" {
        e := gate1.Run(parseProbed && supportsParse, c);
      } else {
        e := gate2.Validate(inspectProbed && supportsInspect, c, at);
      }
    }

    method Validate(c: Command, at: Span) returns (e: Option<Problem>)
      requires Valid()
      modifies Footprint()
      ensures Valid()
      ensures var x := AfterValidate(old(AsFlags()), |old(seam.sent)|, Around(), c, at);
              AsFlags() == x.s && seam.sent == old(seam.sent) + x.sent && e == x.result
      ensures gate2 != old(gate2) ==> gate2 != null && fresh({gate2.schemas, gate2.schemas.cache})
    {
      hide AfterEnsure, AfterGate;
      e := EnsureRun();
      if e.Some? {
        return;
      }
      e := ValidateWith(c, at);
    }

    method Inspect(path: string, verb: string, at: Span) returns (r: Outcome)
      requires Valid()
      modifies Footprint()
      ensures Valid()
      ensures var x := AfterInspect(old(AsFlags()), |old(seam.sent)|, Around(), path, verb, at);
              AsFlags() == x.s && seam.sent == old(seam.sent) + x.sent && r == x.result
      ensures gate2 != old(gate2) ==> gate2 != null && fresh({gate2.schemas, gate2.schemas.cache})
    {
      hide AfterEnsure, AfterDiscover, Answered, SentFor;
      var e := EnsureRun();
      if e.Some? {
        return Broken(e.value);
      }
      r := gate2.schemas.Discover(path, verb, at);
    }

    method RunStructured(c: Command, at: Span) returns (r: Result<CanonicalReply>)
      requires Valid()
      modifies Footprint()
      ensures Valid()
      ensures var x := AfterRun(old(AsFlags()), |old(seam.sent)|, Around(), c, at);
              AsFlags() == x.s && seam.sent == old(seam.sent) + x.sent && r == x.result
      ensures gate2 != old(gate2) ==> gate2 != null && fresh({gate2.schemas, gate2.schemas.cache})
    {
      hide AfterValidate, WordsOf, CommandOf;
      var e := Validate(c, at);
      if e.Some? {
        return Err(e.value);
      }
      r := seam.Send(Execution, c);
    }
  }
}
