/** Discoveries of one store that overlap (schema/discover.go:33-128, schema/cache.go:42-75): a probe, the
    reading of the override, and the storing of the result are steps of their own, between which the
    clock moves, other discoveries go on, and commands are registered, deleted and cleared. */
module SchemaRaces {
  import opened Protocol
  import opened Inspect
  import opened ClientTransport
  import opened Schema

  // ----- one discovery -----

  datatype Request = Request(kind: RequestKind, path: string)

  /** The probe that is due after some answers. */
  function Due(path: string, verb: string, answers: seq<Answer>): Option<Request> {
    if |answers| == 0 then Some(Request(Child, CommandPath(path, verb)))
    else if |answers| == 1 && answers[0].Rows? then Some(Request(Child, InspectPath(PathTokens(path))))
    else if |answers| == 2 && !answers[1].Failure? then Some(Request(Completion, CommandPath(path, verb)))
    else if |answers| == 3 && !answers[2].Failure? && FieldArgument(verb, RowsOf(answers[1])) != "" then
      Some(Request(Completion, FieldPath(path, verb, FieldArgument(verb, RowsOf(answers[1])))))
    else None
  }

  /** A discovery that has missed the cache: what it has heard and when, the override it has read, and
      the schema it is about to store. */
  datatype Flight = Flight(
    id: nat, path: string, verb: string, start: int, answers: seq<Answer>, moments: seq<int>,
    seen: Option<Category>, found: Option<CommandSchema>)

  function KeyOf(f: Flight): string {
    SchemaKey(f.path, f.verb)
  }

  function Given(answers: seq<Answer>, i: nat): Answer {
    if i < |answers| then answers[i] else Absent
  }

  function OutcomeOf(f: Flight, override: Option<Category>): Outcome {
    Resolve(f.path, f.verb, override,
            Given(f.answers, 0), Given(f.answers, 1), Given(f.answers, 2), Given(f.answers, 3))
  }

  /** Heard out without interruption, with the n-th sentence as the first probe, it is the discovery of
      `Schema`: it asks as often and finds the same. */
  lemma FlightIsFresh(f: Flight, dev: Device, n: nat, override: Option<Category>)
    requires forall i :: 0 <= i < |f.answers| ==>
               var d := Due(f.path, f.verb, f.answers[..i]);
               d.Some? && f.answers[i] == dev(n + i, d.value.kind, d.value.path)
    requires Due(f.path, f.verb, f.answers).None?
    ensures OutcomeOf(f, override) == Fresh(dev, n, override, f.path, f.verb)
    ensures |f.answers| == |Asked(dev, n, f.path, f.verb)|
  {
    hide CommandPath, FieldPath, InspectPath, PathTokens, AddNames, ArgumentNames, CategoryOf, FieldArgument;
    var k := |f.answers|;
    assert k > 0 && f.answers[..0] == [];
    assert f.answers[0] == dev(n, Child, CommandPath(f.path, f.verb));
    assert k > 1 ==> Due(f.path, f.verb, f.answers[..1]).Some?;
    assert k > 2 ==> Due(f.path, f.verb, f.answers[..2]).Some?;
    assert k > 3 ==> Due(f.path, f.verb, f.answers[..3]).Some?;
    assert k > 4 ==> Due(f.path, f.verb, f.answers[..4]).Some?;
  }

  // ----- the store and its steps -----

  /** An entry of the cache, with the discovery that stored it. */
  datatype Stored = Stored(schema: CommandSchema, expires: int, maker: Flight)

  /** `evictions` are the registrations that have set their override and not yet evicted the entry;
      `next` is the number of the next discovery. */
  datatype State = State(
    entries: map<string, Stored>, ttl: int, overrides: map<string, Category>, evictions: multiset<string>,
    flights: map<nat, Flight>, next: nat, now: int)

  function Start(ttl: int, now: int): State {
    State(map[], ttl, map[], multiset{}, map[], 0, now)
  }

  datatype Step =
    | Begin(path: string, verb: string)
    | Hear(id: nat, answer: Answer)
    | Settle(id: nat)
    | Keep(id: nat)
    | SetOverride(path: string, verb: string, category: Category)
    | Evict(key: string)
    | DeleteOne(path: string, verb: string)
    | ClearAll
    | Pass(dt: nat)

  /** `Cache.Get`. */
  function Served(s: State, key: string): Option<CommandSchema> {
    if key in s.entries && !(s.ttl > 0 && s.now > s.entries[key].expires) then Some(s.entries[key].schema) else None
  }

  function OverrideIn(s: State, key: string): Option<Category> {
    if key in s.overrides then Some(s.overrides[key]) else None
  }

  predicate Enabled(s: State, a: Step) {
    match a
    case Hear(id, _) =>
      id in s.flights && s.flights[id].found.None?
      && Due(s.flights[id].path, s.flights[id].verb, s.flights[id].answers).Some?
    case Settle(id) =>
      id in s.flights && s.flights[id].found.None?
      && Due(s.flights[id].path, s.flights[id].verb, s.flights[id].answers).None?
    case Keep(id) => id in s.flights && s.flights[id].found.Some?
    case Evict(key) => key in s.evictions
    case _ => true
  }

  /** A look-up that hits changes nothing; one that misses drops the entry if it is there, and probes. */
  function DoBegin(s: State, path: string, verb: string): State {
    var key := SchemaKey(path, verb);
    if Served(s, key).Some? then s
    else
      s.(entries := s.entries - {key}, next := s.next + 1,
         flights := s.flights[s.next := Flight(s.next, path, verb, s.now, [], [], None, None)])
  }

  /** The override is read and the schema put together; a failure ends the discovery. */
  function DoSettle(s: State, id: nat): State
    requires Enabled(s, Settle(id))
  {
    var f := s.flights[id];
    var o := OverrideIn(s, KeyOf(f));
    match OutcomeOf(f, o)
    case Broken(_) => s.(flights := s.flights - {id})
    case Found(x) => s.(flights := s.flights[id := f.(seen := o, found := Some(x))])
  }

  function Next(s: State, a: Step): State
    requires Enabled(s, a)
  {
    match a
    case Begin(path, verb) => DoBegin(s, path, verb)
    case Hear(id, x) =>
      var f := s.flights[id];
      s.(flights := s.flights[id := f.(answers := f.answers + [x], moments := f.moments + [s.now])])
    case Settle(id) => DoSettle(s, id)
    case Keep(id) =>
      var f := s.flights[id];
      s.(entries := s.entries[KeyOf(f) := Stored(f.found.value, s.now + s.ttl, f)], flights := s.flights - {id})
    case SetOverride(path, verb, c) =>
      var key := SchemaKey(path, verb);
      s.(overrides := s.overrides[key := c], evictions := s.evictions + multiset{key})
    case Evict(key) => s.(entries := s.entries - {key}, evictions := s.evictions - multiset{key})
    case DeleteOne(path, verb) => s.(entries := s.entries - {SchemaKey(path, verb)})
    case ClearAll => s.(entries := map[])
    case Pass(dt) => s.(now := s.now + dt)
  }

  function Execute(s: State, steps: seq<Step>): Option<State> {
    if steps == [] then Some(s)
    else
      match Execute(s, steps[..|steps| - 1])
      case None => None
      case Some(t) => if Enabled(t, steps[|steps| - 1]) then Some(Next(t, steps[|steps| - 1])) else None
  }

  lemma OneMore(s: State, steps: seq<Step>, t: State, a: Step)
    requires Execute(s, steps) == Some(t) && Enabled(t, a)
    ensures Execute(s, steps + [a]) == Some(Next(t, a))
  {
    assert (steps + [a])[..|steps|] == steps;
  }

  ghost predicate Reachable(s: State) {
    exists steps, ttl, now :: Execute(Start(ttl, now), steps) == Some(s)
  }

  // ----- what every discovery has heard -----

  /** Its probes were answered one after another, each between its start and now. */
  ghost predicate FlightOk(f: Flight, next: nat, now: int) {
    && f.id < next && f.start <= now && |f.moments| == |f.answers|
    && (forall i :: 0 <= i < |f.moments| ==> f.start <= f.moments[i] <= now)
    && (forall i, j :: 0 <= i < j < |f.moments| ==> f.moments[i] <= f.moments[j])
    && (forall i :: 0 <= i < |f.answers| ==> Due(f.path, f.verb, f.answers[..i]).Some?)
    && (f.found.Some? ==> Due(f.path, f.verb, f.answers).None? && OutcomeOf(f, f.seen) == Found(f.found.value))
  }

  ghost predicate StoredOk(e: Stored, key: string, s: State) {
    && KeyOf(e.maker) == key && e.maker.found == Some(e.schema)
    && e.expires - s.ttl <= s.now && FlightOk(e.maker, s.next, e.expires - s.ttl)
  }

  ghost predicate StateOk(s: State) {
    && (forall id :: id in s.flights ==> s.flights[id].id == id && FlightOk(s.flights[id], s.next, s.now))
    && (forall key :: key in s.entries ==> StoredOk(s.entries[key], key, s))
    && (forall key :: key in s.evictions ==> key in s.overrides)
  }

  lemma FlightLater(f: Flight, next: nat, now: int, later: nat, moment: int)
    requires FlightOk(f, next, now) && next <= later && now <= moment
    ensures FlightOk(f, later, moment)
  {
    hide Due, OutcomeOf;
  }

  lemma FlightHears(f: Flight, next: nat, now: int, x: Answer)
    requires FlightOk(f, next, now) && f.found.None? && Due(f.path, f.verb, f.answers).Some?
    ensures FlightOk(f.(answers := f.answers + [x], moments := f.moments + [now]), next, now)
  {
    hide Due, OutcomeOf;
    var g := f.(answers := f.answers + [x], moments := f.moments + [now]);
    forall i | 0 <= i < |g.answers|
      ensures Due(g.path, g.verb, g.answers[..i]).Some?
    {
      assert g.answers[..i] == f.answers[..i];
      assert f.answers[..|f.answers|] == f.answers;
    }
  }

  /** Which discovery a step is about, and what it can do to the others. */
  lemma OthersGoOn(s: State, a: Step)
    requires Enabled(s, a)
    ensures var t := Next(s, a);
            && s.next <= t.next && s.now <= t.now && s.ttl == t.ttl
            && (forall id :: id in t.flights ==>
                  || (id in s.flights && t.flights[id] == s.flights[id])
                  || ((a.Hear? || a.Settle?) && id == a.id)
                  || (a.Begin? && id == s.next))
            && (forall key :: key in t.entries ==>
                  (key in s.entries && t.entries[key] == s.entries[key])
                  || (a.Keep? && key == KeyOf(s.flights[a.id])))
  {
    hide Due, OutcomeOf, FlightOk, StoredOk;
  }

  lemma SameCommand(s: State, a: Step)
    requires Enabled(s, a) && (a.Hear? || a.Settle?) && a.id in Next(s, a).flights
    ensures KeyOf(Next(s, a).flights[a.id]) == KeyOf(s.flights[a.id])
    ensures Next(s, a).flights[a.id].start == s.flights[a.id].start
  {
    hide Due, OutcomeOf, SchemaKey;
  }

  lemma OwnFlightKept(s: State, a: Step)
    requires StateOk(s) && Enabled(s, a) && (a.Hear? || a.Settle?) && a.id in Next(s, a).flights
    ensures Next(s, a).flights[a.id].id == a.id && FlightOk(Next(s, a).flights[a.id], s.next, s.now)
  {
    var f := s.flights[a.id];
    assert f.id == a.id && FlightOk(f, s.next, s.now);
    if a.Hear? {
      FlightHears(f, s.next, s.now, a.answer);
    } else {
      hide Due, Resolve;
    }
  }

  lemma FlightsKept(s: State, a: Step)
    requires StateOk(s) && Enabled(s, a)
    ensures var t := Next(s, a);
            forall id :: id in t.flights ==> t.flights[id].id == id && FlightOk(t.flights[id], t.next, t.now)
  {
    var t := Next(s, a);
    OthersGoOn(s, a);
    if (a.Hear? || a.Settle?) && a.id in t.flights {
      OwnFlightKept(s, a);
    }
    if a.Begin? && s.next in t.flights && s.next !in s.flights {
      assert FlightOk(t.flights[s.next], t.next, t.now);
    }
    assert forall id :: id in s.flights ==> id < s.next;
    hide Next, Enabled, Due, OutcomeOf;
    forall id | id in t.flights
      ensures t.flights[id].id == id && FlightOk(t.flights[id], t.next, t.now)
    {
      if id in s.flights && t.flights[id] == s.flights[id] {
        FlightLater(s.flights[id], s.next, s.now, t.next, t.now);
      } else if id == s.next {
        assert a.Begin? ==> FlightOk(t.flights[id], t.next, t.now);
      } else {
        FlightLater(t.flights[id], s.next, s.now, t.next, t.now);
      }
    }
  }

  lemma NewEntryOk(s: State, a: Step)
    requires StateOk(s) && Enabled(s, a) && a.Keep?
    ensures var t, key := Next(s, a), KeyOf(s.flights[a.id]); key in t.entries && StoredOk(t.entries[key], key, t)
  {
    assert FlightOk(s.flights[a.id], s.next, s.now);
    hide FlightOk;
  }

  lemma OldEntryOk(s: State, t: State, key: string)
    requires key in s.entries && StoredOk(s.entries[key], key, s)
    requires s.next <= t.next && s.now <= t.now && s.ttl == t.ttl
    ensures StoredOk(s.entries[key], key, t)
  {
    var e := s.entries[key];
    FlightLater(e.maker, s.next, e.expires - s.ttl, t.next, e.expires - s.ttl);
    hide FlightOk;
  }

  lemma EntriesKept(s: State, a: Step)
    requires StateOk(s) && Enabled(s, a)
    ensures var t := Next(s, a); forall key :: key in t.entries ==> StoredOk(t.entries[key], key, t)
  {
    hide Next, Enabled, FlightOk, StoredOk;
    var t := Next(s, a);
    OthersGoOn(s, a);
    if a.Keep? {
      NewEntryOk(s, a);
    }
    forall key | key in t.entries
      ensures StoredOk(t.entries[key], key, t)
    {
      if key in s.entries && t.entries[key] == s.entries[key] {
        OldEntryOk(s, t, key);
      }
    }
  }

  lemma EvictionsKept(s: State, a: Step)
    requires Enabled(s, a) && forall key :: key in s.evictions ==> key in s.overrides
    ensures var t := Next(s, a); forall key :: key in t.evictions ==> key in t.overrides
  {
    EvictionsChange(s, a);
    hide Next, Enabled;
  }

  lemma EvictionsChange(s: State, a: Step)
    requires Enabled(s, a)
    ensures var t := Next(s, a);
            && (if a.SetOverride? then t.evictions == s.evictions + multiset{SchemaKey(a.path, a.verb)}
                else if a.Evict? then t.evictions == s.evictions - multiset{a.key}
                else t.evictions == s.evictions)
            && t.overrides == (if a.SetOverride? then s.overrides[SchemaKey(a.path, a.verb) := a.category]
                               else s.overrides)
  {
    hide OutcomeOf, Due, SchemaKey;
  }

  lemma StateKept(s: State, a: Step)
    requires StateOk(s) && Enabled(s, a)
    ensures StateOk(Next(s, a))
  {
    FlightsKept(s, a);
    EntriesKept(s, a);
    EvictionsKept(s, a);
    hide Next, Enabled, FlightOk, StoredOk;
  }

  lemma {:induction false} RunKeeps(s: State, steps: seq<Step>, t: State)
    requires StateOk(s) && Execute(s, steps) == Some(t)
    ensures StateOk(t) && s.next <= t.next && s.now <= t.now && s.ttl == t.ttl
  {
    if steps != [] {
      hide Next, StateOk;
      var u := Execute(s, steps[..|steps| - 1]).value;
      RunKeeps(s, steps[..|steps| - 1], u);
      StateKept(u, steps[|steps| - 1]);
      OthersGoOn(u, steps[|steps| - 1]);
    }
  }

  lemma ReachableOk(s: State)
    requires Reachable(s)
    ensures StateOk(s)
  {
    var steps, ttl, now :| Execute(Start(ttl, now), steps) == Some(s);
    RunKeeps(Start(ttl, now), steps, s);
  }

  // ----- the age of an answer -----

  /** What a look-up finds was put together from the answers to all probes that were due, each of them
      given between the start of one discovery of that key and the moment of its storing, in order, and
      that moment is no more than `ttl` ago. */
  lemma ServedIsRecent(s: State, key: string)
    requires Reachable(s) && Served(s, key).Some?
    ensures var e := s.entries[key];
            var f, stored := e.maker, e.expires - s.ttl;
            && KeyOf(f) == key && OutcomeOf(f, f.seen) == Found(Served(s, key).value)
            && Due(f.path, f.verb, f.answers).None?
            && (forall i :: 0 <= i < |f.answers| ==> Due(f.path, f.verb, f.answers[..i]).Some?)
            && |f.moments| == |f.answers|
            && (forall i :: 0 <= i < |f.moments| ==> f.start <= f.moments[i] <= stored)
            && (forall i, j :: 0 <= i < j < |f.moments| ==> f.moments[i] <= f.moments[j])
            && stored <= s.now && (s.ttl > 0 ==> s.now - stored <= s.ttl)
  {
    hide Due, OutcomeOf, Reachable;
    ReachableOk(s);
    assert StoredOk(s.entries[key], key, s);
  }

  // ----- registration -----

  /** The override decides the category, except that of a schema whose first probe was rejected. */
  predicate Honours(x: CommandSchema, c: Category) {
    x.category == c || x.source == "inspect-failed"
  }

  predicate HonoursIn(s: State, key: string, c: Category) {
    key in s.entries ==> Honours(s.entries[key].schema, c)
  }

  /** No discovery of the key is about to store a schema that goes against the override. */
  ghost predicate NoStaleFlight(s: State, key: string, c: Category) {
    forall id :: id in s.flights && KeyOf(s.flights[id]) == key && s.flights[id].found.Some? ==>
      Honours(s.flights[id].found.value, c)
  }

  predicate Registers(a: Step, key: string) {
    a.SetOverride? && SchemaKey(a.path, a.verb) == key
  }

  ghost predicate AlwaysHonoured(s: State, key: string, c: Category) {
    forall steps :: Execute(s, steps).Some? && (forall i :: 0 <= i < |steps| ==> !Registers(steps[i], key)) ==>
      HonoursIn(Execute(s, steps).value, key, c)
  }

  lemma ResolvedHonours(f: Flight, c: Category)
    requires OutcomeOf(f, Some(c)).Found?
    ensures Honours(OutcomeOf(f, Some(c)).schema, c)
  {
  }

  lemma SettledHonours(s: State, a: Step, c: Category)
    requires Enabled(s, a) && a.Settle? && OverrideIn(s, KeyOf(s.flights[a.id])) == Some(c)
    ensures a.id in Next(s, a).flights ==> Honours(Next(s, a).flights[a.id].found.value, c)
  {
    if OutcomeOf(s.flights[a.id], Some(c)).Found? {
      ResolvedHonours(s.flights[a.id], c);
    }
    hide Due, OutcomeOf, Honours, SchemaKey;
  }

  lemma HonourKept(s: State, a: Step, key: string, c: Category)
    requires OverrideIn(s, key) == Some(c) && HonoursIn(s, key, c) && NoStaleFlight(s, key, c)
    requires Enabled(s, a) && !Registers(a, key)
    ensures var t := Next(s, a);
            OverrideIn(t, key) == Some(c) && HonoursIn(t, key, c) && NoStaleFlight(t, key, c)
  {
    hide Due, OutcomeOf, Honours, SchemaKey;
    OthersGoOn(s, a);
    EvictionsChange(s, a);
    if a.Settle? && KeyOf(s.flights[a.id]) == key {
      SettledHonours(s, a, c);
    }
    if (a.Hear? || a.Settle?) && a.id in Next(s, a).flights {
      SameCommand(s, a);
    }
    assert a.Hear? ==> Next(s, a).flights[a.id].found.None?;
    assert a.Begin? && s.next in Next(s, a).flights && s.next !in s.flights ==> Next(s, a).flights[s.next].found.None?;
    assert a.Begin? && s.next in Next(s, a).flights && s.next in s.flights ==>
        Next(s, a).flights[s.next] == s.flights[s.next] || Next(s, a).flights[s.next].found.None?;
    assert a.Keep? ==> a.id in s.flights && s.flights[a.id].found.Some?
                       && Next(s, a).entries[KeyOf(s.flights[a.id])].schema == s.flights[a.id].found.value;
    hide Next, Enabled, KeyOf;
  }

  lemma {:induction false} HonouredThroughout(s: State, steps: seq<Step>, t: State, key: string, c: Category)
    requires OverrideIn(s, key) == Some(c) && HonoursIn(s, key, c) && NoStaleFlight(s, key, c)
    requires Execute(s, steps) == Some(t) && forall i :: 0 <= i < |steps| ==> !Registers(steps[i], key)
    ensures OverrideIn(t, key) == Some(c) && HonoursIn(t, key, c) && NoStaleFlight(t, key, c)
  {
    if steps != [] {
      hide Next, NoStaleFlight, HonoursIn, OverrideIn;
      var u := Execute(s, steps[..|steps| - 1]).value;
      HonouredThroughout(s, steps[..|steps| - 1], u, key, c);
      HonourKept(u, steps[|steps| - 1], key, c);
    }
  }

  /** An override holds for whatever is served from now on, until the next registration of the command, if
      and only if it holds for the entry there is and for every result that is about to be stored:
      discoveries that have not read it yet will honour it. */
  lemma OverrideHoldsExactly(s: State, key: string, c: Category)
    requires OverrideIn(s, key) == Some(c)
    ensures AlwaysHonoured(s, key, c) <==> HonoursIn(s, key, c) && NoStaleFlight(s, key, c)
  {
    hide Next, NoStaleFlight, HonoursIn, OverrideIn;
    if HonoursIn(s, key, c) && NoStaleFlight(s, key, c) {
      forall steps | Execute(s, steps).Some? && forall i :: 0 <= i < |steps| ==> !Registers(steps[i], key)
        ensures HonoursIn(Execute(s, steps).value, key, c)
      {
        HonouredThroughout(s, steps, Execute(s, steps).value, key, c);
      }
    } else {
      assert Execute(s, []) == Some(s);
      if HonoursIn(s, key, c) {
        StaleIsStored(s, key, c);
      }
    }
  }

  lemma StaleIsStored(s: State, key: string, c: Category)
    requires !NoStaleFlight(s, key, c)
    ensures !AlwaysHonoured(s, key, c)
  {
    hide Honours;
    var id :| id in s.flights && KeyOf(s.flights[id]) == key && s.flights[id].found.Some?
              && !Honours(s.flights[id].found.value, c);
    assert Execute(s, []) == Some(s);
    OneMore(s, [], s, Keep(id));
    assert [] + [Keep(id)] == [Keep(id)] && !Registers([Keep(id)][0], key);
    assert !HonoursIn(Next(s, Keep(id)), key, c);
  }

  /** `RegisterCategory` takes effect at once, as its comment promises, if and only if no overlapping
      discovery of the command has already read the overrides and found otherwise. */
  lemma RegistrationTakesEffectExactly(s: State, key: string)
    requires Reachable(s) && Enabled(s, Evict(key))
    ensures key in s.overrides
    ensures var t := Next(s, Evict(key));
            AlwaysHonoured(t, key, s.overrides[key]) <==> NoStaleFlight(t, key, s.overrides[key])
  {
    hide Reachable, AlwaysHonoured, NoStaleFlight;
    ReachableOk(s);
    OverrideHoldsExactly(Next(s, Evict(key)), key, s.overrides[key]);
  }

  // ----- deletion -----

  /** No answer it has heard ends it with an error. */
  ghost predicate CanStore(f: Flight) {
    forall i :: 0 <= i < |f.answers| ==> !f.answers[i].Failure?
  }

  ghost predicate NoneLeft(s: State, key: string, from: nat) {
    forall id :: id in s.flights && id < from && KeyOf(s.flights[id]) == key ==> !CanStore(s.flights[id])
  }

  /** What is stored under the key, if anything, is the work of a discovery numbered from `from` on, which
      began no earlier than `moment`. */
  predicate IsNewer(s: State, key: string, from: nat, moment: int) {
    key in s.entries ==> s.entries[key].maker.id >= from && s.entries[key].maker.start >= moment
  }

  ghost predicate StartsAfter(s: State, from: nat, moment: int) {
    s.now >= moment && forall id :: id in s.flights && id >= from ==> s.flights[id].start >= moment
  }

  lemma FailedIsOver(f: Flight, next: nat, now: int)
    requires FlightOk(f, next, now) && !CanStore(f)
    ensures f.found.None? && Due(f.path, f.verb, f.answers).None? && OutcomeOf(f, None).Broken?
    ensures forall o :: OutcomeOf(f, o).Broken?
  {
    hide FieldArgument, CategoryOf, AddNames, ArgumentNames, CommandPath, FieldPath, InspectPath, PathTokens;
    var i :| 0 <= i < |f.answers| && f.answers[i].Failure?;
    var k := |f.answers|;
    assert k > 1 ==> Due(f.path, f.verb, f.answers[..1]).Some?;
    assert k > 2 ==> Due(f.path, f.verb, f.answers[..2]).Some?;
    assert k > 3 ==> Due(f.path, f.verb, f.answers[..3]).Some?;
    assert k > 4 ==> Due(f.path, f.verb, f.answers[..4]).Some?;
  }

  /** A discovery that cannot store any more takes no step except to end. */
  lemma FailedStays(s: State, a: Step)
    requires StateOk(s) && Enabled(s, a) && (a.Hear? || a.Settle? || a.Keep?) && !CanStore(s.flights[a.id])
    ensures a.Settle? && a.id !in Next(s, a).flights
  {
    assert FlightOk(s.flights[a.id], s.next, s.now);
    FailedIsOver(s.flights[a.id], s.next, s.now);
    hide Due, OutcomeOf, FlightOk;
  }

  lemma NoneLeftKept(s: State, a: Step, key: string, from: nat)
    requires StateOk(s) && Enabled(s, a) && from <= s.next && NoneLeft(s, key, from)
    ensures NoneLeft(Next(s, a), key, from)
    ensures a.Keep? && KeyOf(s.flights[a.id]) == key ==> a.id >= from
  {
    if (a.Hear? || a.Settle? || a.Keep?) && !CanStore(s.flights[a.id]) {
      FailedStays(s, a);
    }
    if (a.Hear? || a.Settle?) && a.id in Next(s, a).flights {
      SameCommand(s, a);
    }
    OthersGoOn(s, a);
    assert a.Keep? ==> a.id in s.flights;
    hide Next, StateOk, CanStore, KeyOf;
  }

  lemma StartsKept(s: State, a: Step, from: nat, moment: int)
    requires StateOk(s) && Enabled(s, a) && from <= s.next && StartsAfter(s, from, moment)
    ensures StartsAfter(Next(s, a), from, moment)
  {
    OthersGoOn(s, a);
    if (a.Hear? || a.Settle?) && a.id in Next(s, a).flights {
      SameCommand(s, a);
    }
    assert a.Begin? && s.next in Next(s, a).flights && s.next !in s.flights ==>
        Next(s, a).flights[s.next].start == s.now;
    assert a.Begin? ==> s.next !in s.flights by {
      assert forall id :: id in s.flights ==> FlightOk(s.flights[id], s.next, s.now) && s.flights[id].id == id;
    }
    hide Next, Enabled, StateOk;
  }

  lemma NewerKept(s: State, a: Step, key: string, from: nat, moment: int)
    requires StateOk(s) && Enabled(s, a) && from <= s.next
    requires NoneLeft(s, key, from) && IsNewer(s, key, from, moment) && StartsAfter(s, from, moment)
    ensures var t := Next(s, a);
            NoneLeft(t, key, from) && IsNewer(t, key, from, moment) && StartsAfter(t, from, moment)
  {
    NoneLeftKept(s, a, key, from);
    StartsKept(s, a, from, moment);
    OthersGoOn(s, a);
    assert a.Keep? ==> a.id in s.flights && s.flights[a.id].id == a.id
                       && Next(s, a).entries[KeyOf(s.flights[a.id])].maker == s.flights[a.id];
    hide Next, Enabled, StateOk, NoneLeft, KeyOf;
  }

  lemma {:induction false} NewerThroughout(s: State, steps: seq<Step>, t: State, key: string)
    requires StateOk(s) && Execute(s, steps) == Some(t) && key !in s.entries && NoneLeft(s, key, s.next)
    ensures NoneLeft(t, key, s.next) && IsNewer(t, key, s.next, s.now) && StartsAfter(t, s.next, s.now)
  {
    if steps == [] {
      assert forall id :: id in s.flights ==> s.flights[id].id == id && FlightOk(s.flights[id], s.next, s.now);
    } else {
      hide Next, NoneLeft, IsNewer, StartsAfter, StateOk;
      var u := Execute(s, steps[..|steps| - 1]).value;
      NewerThroughout(s, steps[..|steps| - 1], u, key);
      RunKeeps(s, steps[..|steps| - 1], u);
      NewerKept(u, steps[|steps| - 1], key, s.next, s.now);
    }
  }

  ghost predicate AlwaysNewer(s: State, key: string) {
    forall steps :: Execute(s, steps).Some? ==> IsNewer(Execute(s, steps).value, key, s.next, s.now)
  }

  /** A discovery that can still store does so in some continuation. */
  lemma {:induction false} FinishFlight(s0: State, steps: seq<Step>, s: State, id: nat)
    returns (more: seq<Step>, t: State)
    requires Execute(s0, steps) == Some(s) && StateOk(s) && id in s.flights && CanStore(s.flights[id])
    ensures Execute(s0, more) == Some(t)
    ensures KeyOf(s.flights[id]) in t.entries && t.entries[KeyOf(s.flights[id])].maker.id == id
    decreases s.flights[id].found.None?, 4 - |s.flights[id].answers|
  {
    hide OutcomeOf, Resolve, FlightOk;
    var f := s.flights[id];
    assert f.id == id;
    var a := if f.found.Some? then Keep(id)
             else if Due(f.path, f.verb, f.answers).Some? then Hear(id, Absent)
             else Settle(id);
    if a.Settle? {
      HeardOutFinds(f, OverrideIn(s, KeyOf(f)));
    }
    OneMore(s0, steps, s, a);
    StateKept(s, a);
    hide StateOk, CommandPath, FieldPath, InspectPath, PathTokens, FieldArgument;
    if f.found.Some? {
      more, t := steps + [a], Next(s, a);
    } else {
      more, t := FinishFlight(s0, steps + [a], Next(s, a), id);
    }
  }

  lemma HeardOutFinds(f: Flight, o: Option<Category>)
    requires CanStore(f)
    ensures OutcomeOf(f, o).Found?
  {
  }

  /** After an eviction, only discoveries that begin later can be served, if and only if no discovery of
      the command that can still store was under way: one that was has its result stored, however old
      its answers are. */
  lemma EvictionHoldsExactly(s: State, key: string)
    requires Reachable(s) && key !in s.entries
    ensures AlwaysNewer(s, key) <==> NoneLeft(s, key, s.next)
  {
    hide Reachable;
    ReachableOk(s);
    if NoneLeft(s, key, s.next) {
      hide NoneLeft, IsNewer, StateOk;
      forall steps | Execute(s, steps).Some?
        ensures IsNewer(Execute(s, steps).value, key, s.next, s.now)
      {
        NewerThroughout(s, steps, Execute(s, steps).value, key);
      }
    } else {
      var id :| id in s.flights && id < s.next && KeyOf(s.flights[id]) == key && CanStore(s.flights[id]);
      var more, t := FinishFlight(s, [], s, id);
      assert !IsNewer(Execute(s, more).value, key, s.next, s.now);
    }
  }

  lemma Reach(s: State, a: Step)
    requires Reachable(s) && Enabled(s, a)
    ensures Reachable(Next(s, a))
  {
    var steps, ttl, now :| Execute(Start(ttl, now), steps) == Some(s);
    OneMore(Start(ttl, now), steps, s, a);
  }

  /** So with `Delete` for one command, and with `Clear` for all of them. */
  lemma DeletionHoldsExactly(s: State, path: string, verb: string)
    requires Reachable(s)
    ensures var t, key := Next(s, DeleteOne(path, verb)), SchemaKey(path, verb);
            AlwaysNewer(t, key) <==> NoneLeft(t, key, t.next)
    ensures var t := Next(s, ClearAll);
            (forall key :: AlwaysNewer(t, key)) <==> forall id :: id in t.flights ==> !CanStore(t.flights[id])
  {
    hide Reachable, AlwaysNewer, CanStore;
    Reach(s, DeleteOne(path, verb));
    EvictionHoldsExactly(Next(s, DeleteOne(path, verb)), SchemaKey(path, verb));
    Reach(s, ClearAll);
    var t := Next(s, ClearAll);
    forall key
      ensures AlwaysNewer(t, key) <==> NoneLeft(t, key, t.next)
    {
      EvictionHoldsExactly(t, key);
    }
    ReachableOk(t);
    forall id | id in t.flights
      ensures id < t.next && (!CanStore(t.flights[id]) <== NoneLeft(t, KeyOf(t.flights[id]), t.next))
    {
      assert FlightOk(t.flights[id], t.next, t.now);
    }
    if forall key :: AlwaysNewer(t, key) {
      forall id | id in t.flights
        ensures !CanStore(t.flights[id])
      {
        assert AlwaysNewer(t, KeyOf(t.flights[id]));
      }
    }
  }

  // ----- such a race -----

  /** A registration that has returned, and an older result served after it. */
  lemma StaleCategoryHappens()
    ensures exists s, x ::
      && Reachable(s) && s.evictions == multiset{} && OverrideIn(s, SchemaKey("/ip", "set")) == Some(Table)
      && Served(s, SchemaKey("/ip", "set")) == Some(x) && !Honours(x, Table)
  {
    hide Reachable, SchemaKey, Due, OutcomeOf, Honours;
    var key := SchemaKey("/ip", "set");
    var s0 := Start(30, 0);
    StartReachable(30, 0);
    var s1 := HeardThrice(s0);
    var f := s1.flights[0];
    NothingThere(f);
    Reach(s1, Settle(0));
    var s2 := Next(s1, Settle(0));
    assert s2.flights[0].found == Some(OutcomeOf(f, None).schema) && KeyOf(s2.flights[0]) == key;
    hide KeyOf;
    Reach(s2, SetOverride("/ip", "set", Table));
    var s3 := Next(s2, SetOverride("/ip", "set", Table));
    assert s3.evictions == multiset{key} && s3.flights == s2.flights;
    StoredAfterEviction(s3, key, Table);
  }

  lemma StartReachable(ttl: int, now: int)
    ensures Reachable(Start(ttl, now))
  {
    assert Execute(Start(ttl, now), []) == Some(Start(ttl, now));
  }

  lemma NothingThere(f: Flight)
    requires f.path == "/ip" && f.verb == "set" && f.answers == [Rows([]), Absent, Absent]
    ensures OutcomeOf(f, None).Found? && !Honours(OutcomeOf(f, None).schema, Table)
  {
    hide AddNames, ArgumentNames;
    assert !HasCommand([], "set");
  }

  lemma StoredAfterEviction(s: State, key: string, c: Category)
    requires Reachable(s) && s.evictions == multiset{key} && OverrideIn(s, key) == Some(c) && s.ttl > 0
    requires 0 in s.flights && KeyOf(s.flights[0]) == key && s.flights[0].found.Some?
    requires !Honours(s.flights[0].found.value, c)
    ensures exists t, x ::
      && Reachable(t) && t.evictions == multiset{} && OverrideIn(t, key) == Some(c)
      && Served(t, key) == Some(x) && !Honours(x, c)
  {
    hide Reachable, KeyOf, Honours;
    Reach(s, Evict(key));
    var u := Next(s, Evict(key));
    Reach(u, Keep(0));
    var t := Next(u, Keep(0));
    assert Served(t, key) == Some(s.flights[0].found.value);
  }

  lemma HeardThrice(s: State) returns (t: State)
    requires Reachable(s) && s == Start(30, 0)
    ensures Reachable(t) && t.ttl == 30 && t.entries == map[] && t.overrides == map[] && t.evictions == multiset{}
    ensures t.flights.Keys == {0} && KeyOf(t.flights[0]) == SchemaKey("/ip", "set") && Enabled(t, Settle(0))
    ensures t.flights[0].path == "/ip" && t.flights[0].verb == "set"
    ensures t.flights[0].answers == [Rows([]), Absent, Absent]
  {
    hide Reachable, SchemaKey, CommandPath, InspectPath, PathTokens;
    Reach(s, Begin("/ip", "set"));
    var s1 := Next(s, Begin("/ip", "set"));
    Reach(s1, Hear(0, Rows([])));
    var s2 := Next(s1, Hear(0, Rows([])));
    assert s2.flights[0].answers == [Rows([])];
    Reach(s2, Hear(0, Absent));
    var s3 := Next(s2, Hear(0, Absent));
    assert s3.flights[0].answers == [Rows([]), Absent];
    Reach(s3, Hear(0, Absent));
    t := Next(s3, Hear(0, Absent));
    assert t.flights[0].answers == [Rows([]), Absent, Absent];
  }
}
