/** The facade with any number of goroutines in it at once (client_transport.go:64-133,
    orchestrate.go:18-38): first calls that race for the probes and for the pipeline. */
module Facade {
  import opened Protocol
  import opened ClientTransport
  import opened Session
  import opened SessionTheorems

  /** Where a goroutine is; `building` says that it is inside `ensureRun` and holds initMu. Only
      `ensureRun` takes initMu, before it asks for anything else. */
  datatype Place =
    | Idle
    | AtInit
    | AtProbe(o: Origin, building: bool)
    | Inside(o: Origin, building: bool)
    | Asking(o: Origin, building: bool, n: nat)
    | AtRead(o: Origin)

  /** `known` has a kind of probe once it is settled, with what the device supports. */
  datatype State = State(
    threads: map<nat, Place>, initMu: Option<nat>, probeMu: Option<nat>,
    known: map<Origin, bool>, ready: bool, sent: seq<Sent>)

  const START := State(map[], None, None, map[], false, [])

  datatype Step =
    | Spawn(th: nat)
    | CallEnsure(th: nat)
    | CallProbe(th: nat, o: Origin)
    | CallSupports(th: nat, o: Origin)
    | TakeInit(th: nat)
    | TakeProbe(th: nat)
    | Check(th: nat)
    | Answer(th: nat)
    | Read(th: nat)
    | Other(x: Sent)

  predicate At(s: State, th: nat, p: Place) {
    th in s.threads && s.threads[th] == p
  }

  predicate Enabled(s: State, a: Step) {
    match a
    case Spawn(th) => th !in s.threads
    case CallEnsure(th) => At(s, th, Idle)
    case CallProbe(th, o) => At(s, th, Idle) && IsProbe(o)
    case CallSupports(th, o) => At(s, th, Idle) && IsProbe(o)
    case TakeInit(th) => At(s, th, AtInit) && s.initMu.None?
    case TakeProbe(th) => th in s.threads && s.threads[th].AtProbe? && s.probeMu.None?
    case Check(th) => th in s.threads && s.threads[th].Inside?
    case Answer(th) => th in s.threads && s.threads[th].Asking?
    case Read(th) => th in s.threads && s.threads[th].AtRead? && s.probeMu.None?
    case Other(x) => !IsProbe(x.origin)
  }

  function Move(s: State, th: nat, p: Place): State {
    s.(threads := s.threads[th := p])
  }

  /** A probe of kind `o` is over: probeMu is given back, and `ensureRun` goes on to the second probe,
      or is done, or fails. */
  function Leave(s: State, th: nat, o: Origin, building: bool, ok: bool): State {
    var t := s.(probeMu := None);
    if !building then Move(t, th, Idle)
    else if ok && o == InspectProbe then Move(t, th, AtProbe(ParseProbe, true))
    else Move(t, th, Idle).(initMu := None, ready := s.ready || ok)
  }

  function Next(s: State, a: Step, w: Setting): State
    requires Enabled(s, a)
  {
    match a
    case Spawn(th) => Move(s, th, Idle)
    case CallEnsure(th) => Move(s, th, AtInit)
    case CallProbe(th, o) => Move(s, th, AtProbe(o, false))
    case CallSupports(th, o) => Move(s, th, AtRead(o))
    case TakeInit(th) =>
      if s.ready then Move(s, th, Idle)
      else Move(s, th, AtProbe(InspectProbe, true)).(initMu := Some(th))
    case TakeProbe(th) => Move(s, th, Inside(s.threads[th].o, s.threads[th].building)).(probeMu := Some(th))
    case Check(th) =>
      var p := s.threads[th];
      if p.o in s.known then Leave(s, th, p.o, p.building, true)
      else Move(s, th, Asking(p.o, p.building, |s.sent|)).(sent := s.sent + [Sent(p.o, ProbeWords(p.o))])
    case Answer(th) =>
      var p := s.threads[th];
      var l := Learned(p.o, w, p.n);
      if l.None? then Leave(s, th, p.o, p.building, false)
      else Leave(s.(known := s.known[p.o := l.value]), th, p.o, p.building, true)
    case Read(th) => Move(s, th, Idle)
    case Other(x) => s.(sent := s.sent + [x])
  }

  ghost predicate Run(steps: seq<Step>, s: State, w: Setting) {
    if steps == [] then s == START
    else
      var a := steps[|steps| - 1];
      exists t :: Run(steps[..|steps| - 1], t, w) && Enabled(t, a) && s == Next(t, a, w)
  }

  // ----- locks -----

  predicate HasInit(p: Place) {
    (p.AtProbe? || p.Inside? || p.Asking?) && p.building
  }

  predicate HasProbe(p: Place) {
    p.Inside? || p.Asking?
  }

  ghost predicate LocksAgree(s: State) {
    && (forall th :: th in s.threads ==> (HasInit(s.threads[th]) <==> s.initMu == Some(th)))
    && (forall th :: th in s.threads ==> (HasProbe(s.threads[th]) <==> s.probeMu == Some(th)))
    && (s.initMu.Some? ==> s.initMu.value in s.threads)
    && (s.probeMu.Some? ==> s.probeMu.value in s.threads)
  }

  // ----- the pipeline -----

  /** Whoever builds the pipeline found it missing and, at the second probe, has settled the first. */
  ghost predicate PlaceOk(s: State, p: Place) {
    && (p.AtProbe? || p.Inside? || p.Asking? ==> IsProbe(p.o))
    && (HasInit(p) ==> !s.ready && (p.o == ParseProbe ==> InspectProbe in s.known))
  }

  ghost predicate PipelineOk(s: State) {
    && (forall th :: th in s.threads ==> PlaceOk(s, s.threads[th]))
    && (s.ready ==> InspectProbe in s.known && ParseProbe in s.known)
  }

  // ----- the log of probes -----

  /** The probe that a goroutine has sent and not yet heard of. */
  function Pending(s: State): Option<nat> {
    match s.probeMu
    case None => None
    case Some(th) => if th in s.threads && s.threads[th].Asking? then Some(s.threads[th].n) else None
  }

  ghost predicate IsSent(s: State, o: Origin, i: nat) {
    i < |s.sent| && s.sent[i].origin == o
  }

  ghost predicate LogOk(s: State, o: Origin, w: Setting) {
    && (forall i: nat, j: nat :: IsSent(s, o, i) && IsSent(s, o, j) && i < j ==> Learned(o, w, i).None?)
    && (forall i: nat :: IsSent(s, o, i) && Learned(o, w, i).Some? && Pending(s) != Some(i) ==>
          o in s.known && Learned(o, w, i) == Some(s.known[o]))
    && (o in s.known ==> exists i: nat :: IsSent(s, o, i) && Learned(o, w, i) == Some(s.known[o]))
  }

  /** A goroutine that waits for the answer to a probe waits for one that was sent and not settled. */
  ghost predicate PendingOk(s: State) {
    forall th :: th in s.threads && s.threads[th].Asking? ==>
      IsSent(s, s.threads[th].o, s.threads[th].n) && s.threads[th].o !in s.known
  }

  ghost predicate FacadeOk(s: State, w: Setting) {
    && LocksAgree(s) && PipelineOk(s) && PendingOk(s)
    && LogOk(s, InspectProbe, w) && LogOk(s, ParseProbe, w)
  }

  predicate OwnerStep(o: Option<nat>, p: Option<nat>, th: nat) {
    p == o || ((o == None || o == Some(th)) && (p == None || p == Some(th)))
  }

  lemma LocksFramed(s: State, t: State, th: nat)
    requires LocksAgree(s) && th in t.threads && t.threads == s.threads[th := t.threads[th]]
    requires OwnerStep(s.initMu, t.initMu, th) && OwnerStep(s.probeMu, t.probeMu, th)
    requires HasInit(t.threads[th]) <==> t.initMu == Some(th)
    requires HasProbe(t.threads[th]) <==> t.probeMu == Some(th)
    ensures LocksAgree(t)
  {
  }

  lemma MovesItself(s: State, a: Step, w: Setting)
    requires Enabled(s, a) && !a.Other?
    requires a.th !in s.threads ==> s.initMu != Some(a.th) && s.probeMu != Some(a.th)
    requires a.th in s.threads ==> (HasInit(s.threads[a.th]) <==> s.initMu == Some(a.th))
    requires a.th in s.threads ==> (HasProbe(s.threads[a.th]) <==> s.probeMu == Some(a.th))
    ensures var t := Next(s, a, w);
            && a.th in t.threads && t.threads == s.threads[a.th := t.threads[a.th]]
            && OwnerStep(s.initMu, t.initMu, a.th) && OwnerStep(s.probeMu, t.probeMu, a.th)
            && (HasInit(t.threads[a.th]) <==> t.initMu == Some(a.th))
            && (HasProbe(t.threads[a.th]) <==> t.probeMu == Some(a.th))
  {
    hide Learned, ProbeWords;
  }

  lemma LocksKept(s: State, a: Step, w: Setting)
    requires LocksAgree(s) && Enabled(s, a)
    ensures LocksAgree(Next(s, a, w))
  {
    if !a.Other? {
      hide Next, Enabled;
      MovesItself(s, a, w);
      LocksFramed(s, Next(s, a, w), a.th);
    }
  }

  lemma PipelineKept(s: State, a: Step, w: Setting)
    requires LocksAgree(s) && PipelineOk(s) && Enabled(s, a)
    ensures PipelineOk(Next(s, a, w))
  {
    hide Learned, ProbeWords;
    var t := Next(s, a, w);
    forall th | th in t.threads
      ensures PlaceOk(t, t.threads[th])
    {
      if th in s.threads {
        assert PlaceOk(s, s.threads[th]);
        assert HasInit(s.threads[th]) <==> s.initMu == Some(th);
      }
      if a.Check? || a.Answer? {
        assert PlaceOk(s, s.threads[a.th]) && (HasInit(s.threads[a.th]) <==> s.initMu == Some(a.th));
      }
    }
    if a.Check? || a.Answer? {
      assert PlaceOk(s, s.threads[a.th]);
    }
  }

  /** Who starts to wait has just sent its probe; what is settled changes in an answer only. */
  lemma WaitersAndAnswers(s: State, a: Step, w: Setting)
    requires Enabled(s, a)
    ensures s.sent <= Next(s, a, w).sent
    ensures !a.Answer? ==> Next(s, a, w).known == s.known
    ensures a.Other? ==> Next(s, a, w).threads == s.threads
    ensures !a.Other? && a.th in Next(s, a, w).threads && Next(s, a, w).threads[a.th].Asking? ==>
              var p := Next(s, a, w).threads[a.th];
              a.Check? && IsSent(Next(s, a, w), p.o, p.n) && p.o !in Next(s, a, w).known
  {
    hide Learned, ProbeWords;
  }

  lemma PendingKept(s: State, a: Step, w: Setting)
    requires LocksAgree(s) && PendingOk(s) && Enabled(s, a)
    ensures PendingOk(Next(s, a, w))
  {
    var t := Next(s, a, w);
    WaitersAndAnswers(s, a, w);
    if !a.Other? {
      MovesItself(s, a, w);
    }
    assert a.Answer? ==> a.th in s.threads && HasProbe(s.threads[a.th]);
    hide Next, Enabled;
    forall th | th in t.threads && t.threads[th].Asking?
      ensures IsSent(t, t.threads[th].o, t.threads[th].n) && t.threads[th].o !in t.known
    {
      if a.Other? || th != a.th {
        assert IsSent(s, s.threads[th].o, s.threads[th].n) && (HasProbe(s.threads[th]) <==> s.probeMu == Some(th));
      }
    }
  }

  /** Another sentence of the session. */
  lemma LogOther(s: State, x: Sent, o: Origin, w: Setting)
    requires LogOk(s, o, w) && x.origin != o && IsProbe(o)
    ensures LogOk(s.(sent := s.sent + [x]), o, w)
  {
    hide Learned;
    var t := s.(sent := s.sent + [x]);
    assert forall i: nat :: IsSent(t, o, i) <==> IsSent(s, o, i);
    assert Pending(t) == Pending(s);
  }

  /** The log and the settled probes do not change, and no answer is waited for that would settle this kind. */
  lemma LogSame(s: State, t: State, o: Origin, w: Setting)
    requires LogOk(s, o, w) && t.sent == s.sent && t.known == s.known
    requires Pending(t) == Pending(s) || Pending(s).None?
             || !IsSent(s, o, Pending(s).value) || Learned(o, w, Pending(s).value).None?
    ensures LogOk(t, o, w)
  {
    hide Learned, Pending;
    assert forall i: nat :: IsSent(t, o, i) <==> IsSent(s, o, i);
  }

  /** A new probe, sent while this kind is not settled and nobody waits. */
  lemma LogProbe(s: State, t: State, o: Origin, w: Setting)
    requires LogOk(s, o, w) && o !in s.known && Pending(s).None?
    requires t.sent == s.sent + [Sent(o, ProbeWords(o))] && t.known == s.known && Pending(t) == Some(|s.sent|)
    ensures LogOk(t, o, w)
  {
    hide Learned, Pending, ProbeWords;
    assert forall i: nat :: IsSent(t, o, i) <==> IsSent(s, o, i) || i == |s.sent|;
  }

  /** The answer that settles a kind. */
  lemma LogAnswer(s: State, t: State, o: Origin, n: nat, w: Setting)
    requires LogOk(s, o, w) && o !in s.known && Pending(s) == Some(n) && IsSent(s, o, n) && Learned(o, w, n).Some?
    requires t.sent == s.sent && t.known == s.known[o := Learned(o, w, n).value]
    ensures LogOk(t, o, w)
  {
    hide Learned, Pending;
    assert forall i: nat :: IsSent(t, o, i) <==> IsSent(s, o, i);
    var b := Learned(o, w, n).value;
    assert Learned(o, w, n) == if b then Some(true) else Some(false);
    forall i: nat | IsSent(s, o, i) && Learned(o, w, i).Some?
      ensures i == n
    {
      assert Pending(s) != Some(i) ==> o in s.known;
    }
    assert IsSent(t, o, n) && Learned(o, w, n) == Some(t.known[o]);
  }

  lemma LogKnownElsewhere(s: State, t: State, o: Origin, k: Origin, b: bool, w: Setting)
    requires LogOk(s, o, w) && k != o && t.sent == s.sent && t.known == s.known[k := b]
    requires Pending(s).Some? ==> !IsSent(s, o, Pending(s).value)
    ensures LogOk(t, o, w)
  {
    hide Learned, Pending;
    assert forall i: nat :: IsSent(t, o, i) <==> IsSent(s, o, i);
  }

  lemma PendingOf(s: State, th: nat)
    requires LocksAgree(s) && th in s.threads && HasProbe(s.threads[th])
    ensures Pending(s) == if s.threads[th].Asking? then Some(s.threads[th].n) else None
  {
  }

  lemma QuietPending(s: State, a: Step, w: Setting)
    requires LocksAgree(s) && Enabled(s, a) && !a.Check? && !a.Answer?
    ensures Pending(Next(s, a, w)) == Pending(s) && Next(s, a, w).known == s.known
    ensures a.Other? || Next(s, a, w).sent == s.sent
  {
    hide Learned, ProbeWords;
  }

  lemma LogKeptByCheck(s: State, th: nat, o: Origin, w: Setting)
    requires FacadeOk(s, w) && Enabled(s, Check(th)) && IsProbe(o)
    ensures LogOk(Next(s, Check(th), w), o, w)
  {
    hide Learned, ProbeWords;
    var t, p := Next(s, Check(th), w), s.threads[th];
    PendingOf(s, th);
    assert PlaceOk(s, p);
    if p.o in s.known {
      LogSame(s, t, o, w);
    } else if p.o == o {
      LogProbe(s, t, o, w);
    } else {
      var u := s.(sent := t.sent);
      LogOther(s, Sent(p.o, ProbeWords(p.o)), o, w);
      assert Pending(u).None?;
      LogSame(u, t, o, w);
    }
  }

  lemma LogKeptByAnswer(s: State, th: nat, o: Origin, w: Setting)
    requires FacadeOk(s, w) && Enabled(s, Answer(th)) && IsProbe(o)
    ensures LogOk(Next(s, Answer(th), w), o, w)
  {
    hide Learned, ProbeWords;
    var t, p := Next(s, Answer(th), w), s.threads[th];
    PendingOf(s, th);
    assert IsSent(s, p.o, p.n) && p.o !in s.known;
    if Learned(p.o, w, p.n).None? {
      LogSame(s, t, o, w);
    } else if p.o == o {
      LogAnswer(s, t, o, p.n, w);
    } else {
      LogKnownElsewhere(s, t, o, p.o, Learned(p.o, w, p.n).value, w);
    }
  }

  lemma LogKept(s: State, a: Step, o: Origin, w: Setting)
    requires FacadeOk(s, w) && Enabled(s, a) && IsProbe(o)
    ensures LogOk(Next(s, a, w), o, w)
  {
    if a.Check? {
      LogKeptByCheck(s, a.th, o, w);
    } else if a.Answer? {
      LogKeptByAnswer(s, a.th, o, w);
    } else {
      QuietPending(s, a, w);
      if a.Other? {
        LogOther(s, a.x, o, w);
      } else {
        LogSame(s, Next(s, a, w), o, w);
      }
    }
  }

  lemma StartOk(w: Setting)
    ensures FacadeOk(START, w)
  {
    hide Learned;
    assert forall o, i: nat :: !IsSent(START, o, i);
  }

  lemma {:induction false} FacadeHolds(steps: seq<Step>, s: State, w: Setting)
    requires Run(steps, s, w)
    ensures FacadeOk(s, w)
  {
    if steps == [] {
      StartOk(w);
    } else {
      hide Next, Enabled, LocksAgree, PipelineOk, PendingOk, LogOk;
      var a := steps[|steps| - 1];
      var t :| Run(steps[..|steps| - 1], t, w) && Enabled(t, a) && s == Next(t, a, w);
      FacadeHolds(steps[..|steps| - 1], t, w);
      LocksKept(t, a, w);
      PipelineKept(t, a, w);
      PendingKept(t, a, w);
      LogKept(t, a, InspectProbe, w);
      LogKept(t, a, ParseProbe, w);
    }
  }

  // ----- what holds in every run -----

  /** However first calls race, a conclusive probe is the last of its kind. While no goroutine is inside
      a probe, a kind is settled exactly when a conclusive probe was sent, and as that one said. */
  lemma NoDoubleProbe(steps: seq<Step>, s: State, w: Setting, o: Origin)
    requires Run(steps, s, w) && IsProbe(o)
    ensures forall i: nat, j: nat :: IsSent(s, o, i) && IsSent(s, o, j) && i < j ==> Learned(o, w, i).None?
    ensures s.probeMu.None? ==>
              (o in s.known <==> exists i: nat :: IsSent(s, o, i) && Learned(o, w, i).Some?)
    ensures o in s.known ==> exists i: nat :: IsSent(s, o, i) && Learned(o, w, i) == Some(s.known[o])
  {
    hide Learned;
    FacadeHolds(steps, s, w);
  }

  /** The pipeline is there only after both kinds are settled, and it is built once: whoever builds it
      found it missing, under the lock that all builders need. */
  lemma PipelineBuiltOnce(steps: seq<Step>, s: State, w: Setting, th: nat, u: nat)
    requires Run(steps, s, w)
    ensures s.ready ==> InspectProbe in s.known && ParseProbe in s.known
    ensures th in s.threads && HasInit(s.threads[th]) ==> !s.ready
    ensures th in s.threads && u in s.threads && HasInit(s.threads[th]) && HasInit(s.threads[u]) ==> th == u
  {
    hide Learned;
    FacadeHolds(steps, s, w);
    assert th in s.threads ==> PlaceOk(s, s.threads[th]);
  }

  /** initMu comes before probeMu by the order in which `ensureRun` takes them: who waits for initMu holds
      neither, who waits for probeMu holds at most initMu, and the holder of probeMu waits for no lock. */
  lemma InitBeforeProbe(steps: seq<Step>, s: State, w: Setting, th: nat)
    requires Run(steps, s, w) && th in s.threads
    ensures s.threads[th].AtInit? ==> s.initMu != Some(th) && s.probeMu != Some(th)
    ensures s.threads[th].AtProbe? || s.threads[th].AtRead? ==> s.probeMu != Some(th)
    ensures s.probeMu == Some(th) ==> !s.threads[th].AtInit? && !s.threads[th].AtProbe? && !s.threads[th].AtRead?
  {
    FacadeHolds(steps, s, w);
  }
}
