/** Schema discovery, its cache and the overrides (schema/discover.go, schema/cache.go), and what the
    cache guarantees: cached discovery answers as a fresh discovery would. */
module Schema {
  import opened Protocol
  import opened Text
  import opened Inspect
  import opened ClientTransport

  datatype Category = Table | Action | Unknown

  /** `CommandSchema`; the attributes by their names. */
  datatype CommandSchema = CommandSchema(
    path: string, verb: string, category: Category, attrs: seq<string>, source: string)

  /** What one probe gives: rows, an error that only says that the path or feature is absent, or a
      real failure. */
  datatype Answer = Rows(nodes: seq<Node>) | Absent | Failure(problem: Problem)

  datatype Outcome = Found(schema: CommandSchema) | Broken(problem: Problem)

  function AnswerOf(r: Result<seq<Node>>): Answer {
    match r
    case Ok(nodes) => Rows(nodes)
    case Err(p) => if Swallowable(p) then Absent else Failure(p)
  }

  /** The answer to a probe that is the n-th sentence of the session. */
  type Device = (nat, RequestKind, string) -> Answer

  function DeviceOf(env: Env): Device {
    (n: nat, k: RequestKind, path: string) => AnswerOf(NodesOf(env(n, InspectWords(k, path))))
  }

  // ----- discovery -----

  function RowsOf(a: Answer): seq<Node> {
    match a
    case Rows(nodes) => nodes
    case _ => []
  }

  function FieldArgument(verb: string, pathNodes: seq<Node>): string {
    if verb == "print" && HasCommand(pathNodes, "print") then "proplist"
    else if verb == "get" && HasCommand(pathNodes, "get") then "value-name"
    else ""
  }

  function CategoryOf(verb: string, pathNodes: seq<Node>, override: Option<Category>): Category {
    match override
    case Some(c) => c
    case None =>
      if !HasCommand(pathNodes, verb) then Unknown
      else if verb == "print" || verb == "get" then Table
      else Action
  }

  function AddNames(names: seq<string>, a: Answer): seq<string> {
    match a
    case Rows(rows) => Merge(names, Usable(CompletionNames(rows)))
    case _ => names
  }

  function UnknownSchema(path: string, verb: string): CommandSchema {
    CommandSchema(path, verb, Unknown, [], "inspect-failed")
  }

  /** The schema that the answers to the four probes add up to: the children of the command, the
      children of its path, the completions of the command, and those of its field argument, which
      is asked for print and get only. Overrides play no part when the first probe finds nothing. */
  function Resolve(path: string, verb: string, override: Option<Category>,
                   children: Answer, pathChildren: Answer, completions: Answer, fields: Answer): Outcome
  {
    match children
    case Failure(p) => Broken(p)
    case Absent => Found(UnknownSchema(path, verb))
    case Rows(nodes) =>
      if pathChildren.Failure? then Broken(pathChildren.problem)
      else if completions.Failure? then Broken(completions.problem)
      else
        var pathNodes := RowsOf(pathChildren);
        var names := AddNames(ArgumentNames(nodes), completions);
        var asked := FieldArgument(verb, pathNodes) != "";
        if asked && fields.Failure? then Broken(fields.problem)
        else
          Found(CommandSchema(path, verb, CategoryOf(verb, pathNodes, override),
                              Sort(if asked then AddNames(names, fields) else names),
                              "inspect child+completion"))
  }

  function CommandPath(path: string, verb: string): string {
    InspectPath(PathTokens(path) + [verb])
  }

  function FieldPath(path: string, verb: string, field: string): string {
    InspectPath(PathTokens(path) + [verb, field])
  }

  /** The argument whose completions are the field names, once the children of the path are known. */
  function FieldAsked(path: string, verb: string, n: nat, dev: Device): string {
    FieldArgument(verb, RowsOf(dev(n + 1, Child, InspectPath(PathTokens(path)))))
  }

  /** Discovery without a cache, its first probe being the n-th sentence of the session. */
  function Fresh(dev: Device, n: nat, override: Option<Category>, path: string, verb: string): Outcome {
    Resolve(path, verb, override,
            dev(n, Child, CommandPath(path, verb)),
            dev(n + 1, Child, InspectPath(PathTokens(path))),
            dev(n + 2, Completion, CommandPath(path, verb)),
            dev(n + 3, Completion, FieldPath(path, verb, FieldAsked(path, verb, n, dev))))
  }

  function Probe(k: RequestKind, path: string): Sent {
    Sent(Discovery, InspectWords(k, path))
  }

  /** The probes that it takes. */
  function Asked(dev: Device, n: nat, path: string, verb: string): seq<Sent> {
    var first := Probe(Child, CommandPath(path, verb));
    var second := Probe(Child, InspectPath(PathTokens(path)));
    var third := Probe(Completion, CommandPath(path, verb));
    var fourth := Probe(Completion, FieldPath(path, verb, FieldAsked(path, verb, n, dev)));
    if !dev(n, Child, CommandPath(path, verb)).Rows? then [first]
    else if dev(n + 1, Child, InspectPath(PathTokens(path))).Failure? then [first, second]
    else if dev(n + 2, Completion, CommandPath(path, verb)).Failure? || FieldAsked(path, verb, n, dev) == "" then
      [first, second, third]
    else [first, second, third, fourth]
  }

  // ----- the names of a schema -----

  function AnswerNames(a: Answer): set<string> {
    Elements(CompletionNames(RowsOf(a))) - STRUCTURAL
  }

  lemma AddNamesMeaning(names: seq<string>, a: Answer)
    ensures Elements(AddNames(names, a)) == Elements(names) + AnswerNames(a)
    ensures NoDuplicates(AddNames(names, a)) <==> NoDuplicates(names)
  {
    match a
    case Rows(rows) =>
      UsableMeaning(CompletionNames(rows));
      MergeMeaning(names, Usable(CompletionNames(rows)));
    case _ =>
      assert Elements(CompletionNames([])) == {};
  }

  /** Discovered attribute names are sorted; as a set they are the argument names of the command's
      children with the usable completions of both probes; and they repeat a name just when the
      children do. */
  lemma AttributesMeaning(path: string, verb: string, override: Option<Category>,
                          children: Answer, pathChildren: Answer, completions: Answer, fields: Answer)
    requires children.Rows?
    requires Resolve(path, verb, override, children, pathChildren, completions, fields).Found?
    ensures var s := Resolve(path, verb, override, children, pathChildren, completions, fields).schema;
            var asked := FieldArgument(verb, RowsOf(pathChildren)) != "";
            && Sorted(s.attrs)
            && Elements(s.attrs) == Elements(ArgumentNames(children.nodes)) + AnswerNames(completions)
                                    + (if asked then AnswerNames(fields) else {})
            && (NoDuplicates(s.attrs) <==> NoDuplicates(ArgumentNames(children.nodes)))
            && s.category == CategoryOf(verb, RowsOf(pathChildren), override)
  {
    var names := AddNames(ArgumentNames(children.nodes), completions);
    AddNamesMeaning(ArgumentNames(children.nodes), completions);
    AddNamesMeaning(names, fields);
    SortMeaning(names);
    SortMeaning(AddNames(names, fields));
  }

  // ----- the cache -----

  const NUL := '\0'

  function SchemaKey(path: string, verb: string): string {
    path + [NUL] + verb
  }

  /** One path continues the other behind a NUL. */
  predicate PathsClash(p: string, q: string) {
    p + [NUL] <= q || q + [NUL] <= p
  }

  /** The verb that gives `p` the key of `q` and `w`. */
  function SharedVerb(p: string, q: string, w: string): string
    requires p + [NUL] <= q
  {
    q[|p| + 1..] + [NUL] + w
  }

  lemma SharedVerbShares(p: string, q: string, w: string)
    requires p + [NUL] <= q
    ensures p != q && SchemaKey(p, SharedVerb(p, q, w)) == SchemaKey(q, w)
  {
    assert q == p + [NUL] + q[|p| + 1..];
    assert SchemaKey(p, SharedVerb(p, q, w)) == p + [NUL] + (q[|p| + 1..] + [NUL] + w);
  }

  lemma SameKeyClash(p: string, v: string, q: string, w: string)
    requires SchemaKey(p, v) == SchemaKey(q, w) && |p| <= |q|
    ensures (p == q && v == w) || p + [NUL] <= q
  {
    var k := SchemaKey(p, v);
    assert p == k[..|p|] && q == k[..|q|] && v == k[|p| + 1..] && w == k[|q| + 1..];
    if |p| < |q| {
      assert k[|p|] == NUL && q[|p|] == NUL;
      assert q[..|p| + 1] == p + [NUL];
    }
  }

  /** Some two commands with these paths share a key if and only if one path continues the other
      behind a NUL; what the verbs hold does not matter. */
  lemma KeysClashExactly(p: string, q: string)
    ensures (exists v, w :: SchemaKey(p, v) == SchemaKey(q, w) && (p != q || v != w)) <==> PathsClash(p, q)
  {
    if v, w :| SchemaKey(p, v) == SchemaKey(q, w) && (p != q || v != w) {
      if |p| <= |q| { SameKeyClash(p, v, q, w); } else { SameKeyClash(q, w, p, v); }
    }
    if p + [NUL] <= q {
      SharedVerbShares(p, q, "");
      assert SchemaKey(p, SharedVerb(p, q, "")) == SchemaKey(q, "");
    }
    if q + [NUL] <= p {
      SharedVerbShares(q, p, "");
      assert SchemaKey(p, "") == SchemaKey(q, SharedVerb(q, p, ""));
    }
  }

  /** A command has its key to itself if and only if neither its path nor its verb holds a NUL. */
  lemma OwnKeyExactly(p: string, v: string)
    ensures (exists q, w :: SchemaKey(q, w) == SchemaKey(p, v) && (q != p || w != v)) <==>
            !Free(p, NUL) || !Free(v, NUL)
  {
    var k := SchemaKey(p, v);
    if q, w :| SchemaKey(q, w) == SchemaKey(p, v) && (q != p || w != v) {
      KeysClashExactly(q, p);
      assert PathsClash(q, p);
      if q + [NUL] <= p {
        assert p[|q|] == NUL;
      } else {
        assert q[|p|] == NUL && v == k[|p| + 1..] && w == k[|q| + 1..];
        assert k[|q|] == NUL && |q| > |p|;
        assert v[|q| - |p| - 1] == k[|q|];
      }
    }
    if !Free(p, NUL) {
      var i :| 0 <= i < |p| && p[i] == NUL;
      assert SchemaKey(p[..i], p[i + 1..] + [NUL] + v) == k;
      assert |p[..i]| != |p|;
    } else if !Free(v, NUL) {
      var i :| 0 <= i < |v| && v[i] == NUL;
      assert SchemaKey(p + [NUL] + v[..i], v[i + 1..]) == k;
      assert |p + [NUL] + v[..i]| != |p|;
    }
  }

  datatype CacheEntry = CacheEntry(schema: CommandSchema, expires: int)

  predicate Expired(e: CacheEntry, ttl: int, now: int) {
    ttl > 0 && now > e.expires
  }

  /** `Cache`; the time is a parameter. */
  class Cache {
    const ttl: int
    var entries: map<string, CacheEntry>

    constructor (ttl: int)
      ensures this.ttl == ttl && entries == map[]
    {
      this.ttl, entries := ttl, map[];
    }

    method Get(key: string, now: int) returns (s: Option<CommandSchema>)
      modifies this
      ensures s == if key in old(entries) && !Expired(old(entries)[key], ttl, now)
                   then Some(old(entries)[key].schema) else None
      ensures entries == if s.Some? then old(entries) else old(entries) - {key}
    {
      if key !in entries {
        return None;
      }
      var e := entries[key];
      if ttl > 0 && now > e.expires {
        entries := entries - {key};
        return None;
      }
      return Some(e.schema);
    }

    method Put(key: string, s: CommandSchema, now: int)
      modifies this
      ensures entries == old(entries)[key := CacheEntry(s, now + ttl)]
    {
      entries := entries[key := CacheEntry(s, now + ttl)];
    }

    method Delete(path: string, verb: string)
      modifies this
      ensures entries == old(entries) - {SchemaKey(path, verb)}
    {
      entries := entries - {SchemaKey(path, verb)};
    }

    method Clear()
      modifies this
      ensures entries == map[]
    {
      entries := map[];
    }
  }

  // ----- the store -----

  /** Contents of a store, as a value. */
  datatype Model = Model(entries: map<string, CacheEntry>, ttl: int, overrides: map<string, Category>)

  function OverrideOf(m: Model, path: string, verb: string): Option<Category> {
    var key := SchemaKey(path, verb);
    if key in m.overrides then Some(m.overrides[key]) else None
  }

  function Hit(m: Model, key: string, now: int): Option<CommandSchema> {
    if key in m.entries && !Expired(m.entries[key], m.ttl, now) then Some(m.entries[key].schema) else None
  }

  /** The two readings of the clock in one discovery: at the look-up, and when its result is stored. */
  datatype Span = Span(asked: int, stored: int)

  function Answered(m: Model, path: string, verb: string, at: Span, n: nat, dev: Device): Outcome {
    match Hit(m, SchemaKey(path, verb), at.asked)
    case Some(s) => Found(s)
    case None => Fresh(dev, n, OverrideOf(m, path, verb), path, verb)
  }

  function SentFor(m: Model, path: string, verb: string, at: Span, n: nat, dev: Device): seq<Sent> {
    if Hit(m, SchemaKey(path, verb), at.asked).Some? then [] else Asked(dev, n, path, verb)
  }

  function AfterDiscover(m: Model, path: string, verb: string, at: Span, n: nat, dev: Device): Model {
    var key := SchemaKey(path, verb);
    if Hit(m, key, at.asked).Some? then m
    else
      match Fresh(dev, n, OverrideOf(m, path, verb), path, verb)
      case Found(s) => m.(entries := m.entries[key := CacheEntry(s, at.stored + m.ttl)])
      case Broken(_) => m.(entries := m.entries - {key})
  }

  function AfterRegister(m: Model, path: string, verb: string, c: Category): Model {
    m.(overrides := m.overrides[SchemaKey(path, verb) := c], entries := m.entries - {SchemaKey(path, verb)})
  }

  /** `Store`. */
  class Store {
    const seam: Transport
    const cache: Cache
    var overrides: map<string, Category>

    constructor (seam: Transport, ttl: int)
      ensures this.seam == seam && fresh(cache) && AsModel() == Model(map[], ttl, map[])
    {
      this.seam := seam;
      cache := new Cache(ttl);
      overrides := map[];
    }

    function AsModel(): Model
      reads this, cache
    {
      Model(cache.entries, cache.ttl, overrides)
    }

    function Dev(): Device
    {
      DeviceOf(seam.env)
    }

    method Ask(k: RequestKind, path: string) returns (a: Answer)
      modifies seam
      ensures a == Dev()(|old(seam.sent)|, k, path)
      ensures seam.sent == old(seam.sent) + [Probe(k, path)]
    {
      var r := seam.InspectNodes(Discovery, k, path);
      a := AnswerOf(r);
    }

    method AddCompletions(names: seq<string>, a: Answer) returns (out: seq<string>)
      ensures out == AddNames(names, a)
    {
      out := names;
      if a.Rows? {
        var all := ExtractCompletionNames(a.nodes);
        var usable := UsableCompletionNames(all);
        out := MergeNames(names, usable);
      }
    }

    /** `Discover` after a cache miss. */
    method ProbeAll(path: string, verb: string) returns (r: Outcome)
      modifies seam
      ensures r == Fresh(Dev(), |old(seam.sent)|, OverrideOf(AsModel(), path, verb), path, verb)
      ensures seam.sent == old(seam.sent) + Asked(Dev(), |old(seam.sent)|, path, verb)
    {
      hide AddNames, ArgumentNames, CategoryOf, FieldArgument, Sort, DeviceOf, InspectWords, PathTokens, InspectPath;
      var tokens := PathTokens(path);
      var children := Ask(Child, InspectPath(tokens + [verb]));
      match children
      case Absent => return Found(UnknownSchema(path, verb));
      case Failure(p) => return Broken(p);
      case Rows(nodes) =>
        var names := NamesOfArgumentNodes(nodes);
        var pathChildren := Ask(Child, InspectPath(tokens));
        if pathChildren.Failure? {
          return Broken(pathChildren.problem);
        }
        var completions := Ask(Completion, InspectPath(tokens + [verb]));
        if completions.Failure? {
          return Broken(completions.problem);
        }
        names := AddCompletions(names, completions);
        var field := FieldArgument(verb, RowsOf(pathChildren));
        if field != "" {
          var fields := Ask(Completion, InspectPath(tokens + [verb, field]));
          if fields.Failure? {
            return Broken(fields.problem);
          }
          names := AddCompletions(names, fields);
        }
        var override := OverrideOf(AsModel(), path, verb);
        r := Found(CommandSchema(path, verb, CategoryOf(verb, RowsOf(pathChildren), override), Sort(names),
                                 "inspect child+completion"));
    }

    method Discover(path: string, verb: string, at: Span) returns (r: Outcome)
      modifies this, cache, seam
      ensures r == Answered(old(AsModel()), path, verb, at, |old(seam.sent)|, Dev())
      ensures AsModel() == AfterDiscover(old(AsModel()), path, verb, at, |old(seam.sent)|, Dev())
      ensures seam.sent == old(seam.sent) + SentFor(old(AsModel()), path, verb, at, |old(seam.sent)|, Dev())
    {
      hide Fresh, Asked, DeviceOf;
      var key := SchemaKey(path, verb);
      var cached := cache.Get(key, at.asked);
      if cached.Some? {
        return Found(cached.value);
      }
      r := ProbeAll(path, verb);
      if r.Found? {
        cache.Put(key, r.schema, at.stored);
      }
      assert old(cache.entries) - {key} + map[] == old(cache.entries) - {key};
    }

    method RegisterCategory(path: string, verb: string, c: Category)
      modifies this, cache
      ensures AsModel() == AfterRegister(old(AsModel()), path, verb, c)
    {
      overrides := overrides[SchemaKey(path, verb) := c];
      cache.Delete(path, verb);
    }
  }

  // ----- runs of a store -----

  /** A discovery takes some time; `Other` are the other sentences of the session. */
  datatype Op =
    | Discover(path: string, verb: string, took: nat)
    | RegisterCategory(path: string, verb: string, category: Category)
    | Delete(path: string, verb: string)
    | Clear
    | Tick(dt: nat)
    | Other

  datatype World = World(m: Model, now: int, n: nat)

  /** When a discovery that starts now and takes so long reads the clock. */
  function SpanFrom(w: World, took: nat): Span {
    Span(w.now, w.now + took)
  }

  function Apply(w: World, op: Op, dev: Device): World {
    match op
    case Discover(p, v, took) =>
      World(AfterDiscover(w.m, p, v, SpanFrom(w, took), w.n, dev), w.now + took,
            w.n + |SentFor(w.m, p, v, SpanFrom(w, took), w.n, dev)|)
    case RegisterCategory(p, v, c) => w.(m := AfterRegister(w.m, p, v, c))
    case Delete(p, v) => w.(m := w.m.(entries := w.m.entries - {SchemaKey(p, v)}))
    case Clear => w.(m := w.m.(entries := map[]))
    case Tick(dt) => w.(now := w.now + dt)
    case Other => w.(n := w.n + 1)
  }

  function Run(w: World, ops: seq<Op>, dev: Device): World {
    if ops == [] then w else Apply(Run(w, ops[..|ops| - 1], dev), ops[|ops| - 1], dev)
  }

  /** Of the commands that are discovered, only `p` and `v` has its key. */
  ghost predicate HasOwnKey(ops: seq<Op>, p: string, v: string) {
    forall i :: 0 <= i < |ops| && ops[i].Discover? && SchemaKey(ops[i].path, ops[i].verb) == SchemaKey(p, v) ==>
      ops[i].path == p && ops[i].verb == v
  }

  /** Which is so when no discovered path clashes with `p`, as when no path holds a NUL. */
  lemma NoClashMeansOwnKey(ops: seq<Op>, p: string, v: string)
    requires forall i :: 0 <= i < |ops| && ops[i].Discover? ==> !PathsClash(ops[i].path, p)
    ensures HasOwnKey(ops, p, v)
  {
    forall i | 0 <= i < |ops| && ops[i].Discover? && SchemaKey(ops[i].path, ops[i].verb) == SchemaKey(p, v)
      ensures ops[i].path == p && ops[i].verb == v
    {
      KeysClashExactly(ops[i].path, p);
    }
  }

  lemma ContinuationHasNul(p: string, q: string)
    requires p + [NUL] <= q
    ensures !Free(q, NUL)
  {
    assert q[|p|] == NUL;
  }

  lemma NulFreeMeansNoClash(p: string, q: string)
    requires Free(p, NUL) && Free(q, NUL)
    ensures !PathsClash(p, q)
  {
    if p + [NUL] <= q {
      ContinuationHasNul(p, q);
    }
    if q + [NUL] <= p {
      ContinuationHasNul(q, p);
    }
  }

  /** The entry is what the i-th operation found: a discovery of the command that missed the cache, its
      probes being the sentences from then on, under the overrides there are now; it was stored when
      that operation was over. */
  ghost predicate StoredBy(w: World, ops: seq<Op>, dev: Device, p: string, v: string, i: nat) {
    var x, key := Run(w, ops, dev), SchemaKey(p, v);
    && i < |ops| && ops[i].Discover? && ops[i].path == p && ops[i].verb == v
    && key in x.m.entries
    && var y, z, e := Run(w, ops[..i], dev), Run(w, ops[..i + 1], dev), x.m.entries[key];
       && Hit(y.m, key, y.now).None? && y.now <= z.now <= x.now && e.expires == z.now + x.m.ttl
       && Fresh(dev, y.n, OverrideOf(x.m, p, v), p, v) == Found(e.schema)
  }

  /** An entry that an operation leaves in place under the same override is still the one stored. */
  lemma StoredBefore(w: World, ops: seq<Op>, op: Op, dev: Device, p: string, v: string, i: nat)
    requires StoredBy(w, ops, dev, p, v, i)
    requires var y, x := Run(w, ops, dev), Run(w, ops + [op], dev);
             && SchemaKey(p, v) in x.m.entries && x.m.entries[SchemaKey(p, v)] == y.m.entries[SchemaKey(p, v)]
             && OverrideOf(x.m, p, v) == OverrideOf(y.m, p, v) && x.m.ttl == y.m.ttl && y.now <= x.now
    ensures StoredBy(w, ops + [op], dev, p, v, i)
  {
    hide Fresh, Apply, Hit, OverrideOf, SchemaKey, Run;
    var all := ops + [op];
    assert all[..i] == ops[..i] && all[..i + 1] == ops[..i + 1] && all[i] == ops[i];
  }

  lemma StoredNow(w: World, ops: seq<Op>, op: Op, dev: Device, p: string, v: string)
    requires op.Discover? && op.path == p && op.verb == v
    requires var y := Run(w, ops, dev);
             Hit(y.m, SchemaKey(p, v), y.now).None? && SchemaKey(p, v) in Apply(y, op, dev).m.entries
    ensures StoredBy(w, ops + [op], dev, p, v, |ops|)
  {
    hide Fresh, Asked;
    var all := ops + [op];
    assert all[..|ops|] == ops && all[..|ops| + 1] == all;
    assert Run(w, all, dev) == Apply(Run(w, ops, dev), op, dev);
  }

  /** An operation keeps an entry, with its override, or is a discovery of that key that missed it. */
  lemma EntryAfter(w: World, op: Op, dev: Device, key: string, p: string, v: string)
    requires key == SchemaKey(p, v) && key in Apply(w, op, dev).m.entries
    ensures var x := Apply(w, op, dev);
            && x.m.ttl == w.m.ttl && w.now <= x.now
            && ((key in w.m.entries && x.m.entries[key] == w.m.entries[key]
                 && OverrideOf(x.m, p, v) == OverrideOf(w.m, p, v))
                || (op.Discover? && SchemaKey(op.path, op.verb) == key && Hit(w.m, key, w.now).None?))
  {
    hide Fresh, Asked;
  }

  lemma OwnKeyOfParts(ops: seq<Op>, p: string, v: string)
    requires ops != [] && HasOwnKey(ops, p, v)
    ensures HasOwnKey(ops[..|ops| - 1], p, v) && HasOwnKey([ops[|ops| - 1]], p, v)
  {
  }

  lemma TtlStays(w: World, op: Op, dev: Device)
    ensures Apply(w, op, dev).m.ttl == w.m.ttl
  {
    hide Fresh, Asked;
  }

  lemma {:induction false} EntryIsOfSomeOp(w: World, ops: seq<Op>, dev: Device, p: string, v: string) returns (i: nat)
    requires w.m.entries == map[] && HasOwnKey(ops, p, v)
    ensures SchemaKey(p, v) in Run(w, ops, dev).m.entries ==> StoredBy(w, ops, dev, p, v, i)
    ensures Run(w, ops, dev).m.ttl == w.m.ttl
  {
    i := 0;
    if ops != [] {
      hide StoredBy, HasOwnKey, Apply, Hit, OverrideOf, SchemaKey;
      var init, op := ops[..|ops| - 1], ops[|ops| - 1];
      assert ops == init + [op];
      var before := Run(w, init, dev);
      assert Run(w, ops, dev) == Apply(before, op, dev);
      OwnKeyOfParts(ops, p, v);
      i := EntryIsOfSomeOp(w, init, dev, p, v);
      TtlStays(before, op, dev);
      hide Run;
      if SchemaKey(p, v) in Apply(before, op, dev).m.entries {
        i := EntryIsOfLastOp(w, init, op, dev, p, v, i);
      }
    }
  }

  lemma EntryIsOfLastOp(w: World, init: seq<Op>, op: Op, dev: Device, p: string, v: string, j: nat) returns (i: nat)
    requires HasOwnKey([op], p, v) && Run(w, init + [op], dev) == Apply(Run(w, init, dev), op, dev)
    requires SchemaKey(p, v) in Run(w, init, dev).m.entries ==> StoredBy(w, init, dev, p, v, j)
    requires SchemaKey(p, v) in Apply(Run(w, init, dev), op, dev).m.entries
    ensures StoredBy(w, init + [op], dev, p, v, i)
  {
    assert [op][0] == op;
    hide StoredBy, Apply, Run, Hit, OverrideOf, SchemaKey;
    var y, key := Run(w, init, dev), SchemaKey(p, v);
    EntryAfter(y, op, dev, key, p, v);
    if op.Discover? && SchemaKey(op.path, op.verb) == key && Hit(y.m, key, y.now).None? {
      i := |init|;
      StoredNow(w, init, op, dev, p, v);
    } else {
      i := j;
      StoredBefore(w, init, op, dev, p, v, j);
    }
  }

  /** After any sequence of operations in which no other command with the same key was discovered,
      `Discover` answers what an uncached discovery under the current overrides answers: one that starts
      now, or the one that the i-th operation was. That one probed between its start and its storing,
      and it stored no more than `ttl` ago. */
  lemma DiscoverIsRecent(w: World, ops: seq<Op>, dev: Device, path: string, verb: string, took: nat) returns (i: nat)
    requires w.m.entries == map[] && HasOwnKey(ops, path, verb)
    ensures i <= |ops|
    ensures var x, y := Run(w, ops, dev), Run(w, ops[..i], dev);
            && Answered(x.m, path, verb, SpanFrom(x, took), x.n, dev)
               == Fresh(dev, y.n, OverrideOf(x.m, path, verb), path, verb)
            && (i < |ops| ==>
                  && ops[i].Discover? && ops[i].path == path && ops[i].verb == verb
                  && Hit(y.m, SchemaKey(path, verb), y.now).None?
                  && var stored := Run(w, ops[..i + 1], dev).now;
                     y.now <= stored <= x.now && (w.m.ttl > 0 ==> x.now - stored <= w.m.ttl))
  {
    hide Fresh, Asked, Apply, HasOwnKey;
    i := EntryIsOfSomeOp(w, ops, dev, path, verb);
    var x := Run(w, ops, dev);
    if Hit(x.m, SchemaKey(path, verb), x.now).None? {
      i := |ops|;
      assert ops[..i] == ops;
    }
    hide Run;
  }

  /** The answers do not depend on what was sent before. */
  ghost predicate Steady(dev: Device) {
    forall m: nat, n: nat, k: RequestKind, path: string :: dev(m, k, path) == dev(n, k, path)
  }

  lemma SteadyFresh(dev: Device, m: nat, n: nat, override: Option<Category>, path: string, verb: string)
    requires Steady(dev)
    ensures Fresh(dev, m, override, path, verb) == Fresh(dev, n, override, path, verb)
  {
    assert dev(m, Child, CommandPath(path, verb)) == dev(n, Child, CommandPath(path, verb));
    assert dev(m + 1, Child, InspectPath(PathTokens(path))) == dev(n + 1, Child, InspectPath(PathTokens(path)));
    assert dev(m + 2, Completion, CommandPath(path, verb)) == dev(n + 2, Completion, CommandPath(path, verb));
    var f := FieldPath(path, verb, FieldAsked(path, verb, n, dev));
    assert dev(m + 3, Completion, f) == dev(n + 3, Completion, f);
  }

  /** Against a device with fixed answers the cache is invisible. */
  lemma CachedIsFresh(w: World, ops: seq<Op>, dev: Device, path: string, verb: string, took: nat)
    requires w.m.entries == map[] && HasOwnKey(ops, path, verb) && Steady(dev)
    ensures var x := Run(w, ops, dev);
            Answered(x.m, path, verb, SpanFrom(x, took), x.n, dev)
            == Fresh(dev, x.n, OverrideOf(x.m, path, verb), path, verb)
  {
    hide Fresh;
    var x := Run(w, ops, dev);
    var i := DiscoverIsRecent(w, ops, dev, path, verb, took);
    SteadyFresh(dev, Run(w, ops[..i], dev).n, x.n, OverrideOf(x.m, path, verb), path, verb);
  }

  /** A second discovery within `ttl` sends nothing and answers the same, whatever the device would
      say by then. */
  lemma SecondDiscoverIsFree(m: Model, path: string, verb: string, at: Span, n: nat, dev: Device,
                             later: Span, k: nat, other: Device)
    requires Answered(m, path, verb, at, n, dev).Found? && Hit(m, SchemaKey(path, verb), at.asked).None?
    requires m.ttl > 0 ==> later.asked <= at.stored + m.ttl
    ensures var x := AfterDiscover(m, path, verb, at, n, dev);
            && SentFor(x, path, verb, later, k, other) == []
            && Answered(x, path, verb, later, k, other) == Answered(m, path, verb, at, n, dev)
  {
  }

  lemma FoundForItself(dev: Device, n: nat, override: Option<Category>, path: string, verb: string)
    ensures var r := Fresh(dev, n, override, path, verb);
            r.Found? ==> r.schema.path == path && r.schema.verb == verb
  {
  }

  /** Two different commands with one key: when the first has been discovered, the second is answered
      with the first one's schema and not with its own, for as long as that is kept. */
  lemma SharedKeyInterferes(m: Model, p: string, v: string, q: string, u: string, at: Span, n: nat, dev: Device,
                            later: Span, k: nat)
    requires SchemaKey(p, v) == SchemaKey(q, u) && (p != q || v != u)
    requires Hit(m, SchemaKey(p, v), at.asked).None? && Fresh(dev, n, OverrideOf(m, p, v), p, v).Found?
    requires m.ttl > 0 ==> later.asked <= at.stored + m.ttl
    ensures var x := AfterDiscover(m, p, v, at, n, dev);
            Answered(x, q, u, later, k, dev) != Fresh(dev, k, OverrideOf(x, q, u), q, u)
  {
    var x := AfterDiscover(m, p, v, at, n, dev);
    FoundForItself(dev, n, OverrideOf(m, p, v), p, v);
    FoundForItself(dev, k, OverrideOf(x, q, u), q, u);
  }

  /** Discovering a command with the first path spoils a later discovery of one with the second. */
  ghost predicate Spoils(p: string, q: string, m: Model, at: Span, n: nat, dev: Device, later: Span) {
    exists v, u :: (p != q || v != u) && SpoilsFor(p, v, q, u, m, at, n, dev, later)
  }

  ghost predicate SpoilsFor(p: string, v: string, q: string, u: string,
                            m: Model, at: Span, n: nat, dev: Device, later: Span)
  {
    var x := AfterDiscover(m, p, v, at, n, dev);
    var k := n + |SentFor(m, p, v, at, n, dev)|;
    Answered(x, q, u, later, k, dev) != Fresh(dev, k, OverrideOf(x, q, u), q, u)
  }

  /** From an empty cache, and with a device that has every command: within `ttl`, discovering a command
      with one path can spoil another command with a second path if and only if the paths clash. */
  lemma CollidingKeysInterfere(p: string, q: string, m: Model, at: Span, n: nat, dev: Device, later: Span)
    requires m.entries == map[]
    requires forall v :: Fresh(dev, n, OverrideOf(m, p, v), p, v).Found?
    requires m.ttl > 0 ==> later.asked <= at.stored + m.ttl
    ensures Spoils(p, q, m, at, n, dev, later) <==> PathsClash(p, q)
  {
    hide Fresh, Asked;
    if Spoils(p, q, m, at, n, dev, later) {
      var v, u :| (p != q || v != u) && SpoilsFor(p, v, q, u, m, at, n, dev, later);
      assert SchemaKey(p, v) == SchemaKey(q, u);
      KeysClashExactly(p, q);
    }
    if PathsClash(p, q) {
      KeysClashExactly(p, q);
      var v, u :| SchemaKey(p, v) == SchemaKey(q, u) && (p != q || v != u);
      SharedKeyInterferes(m, p, v, q, u, at, n, dev, later, n + |SentFor(m, p, v, at, n, dev)|);
      assert SpoilsFor(p, v, q, u, m, at, n, dev, later);
    }
  }

  lemma NulPathsCollide()
    ensures SchemaKey("a\0b", "c") == SchemaKey("a", "b\0c") && PathsClash("a\0b", "a")
  {
    assert SchemaKey("a\0b", "c") == ['a', NUL, 'b', NUL, 'c'];
    assert SchemaKey("a", "b\0c") == ['a', NUL, 'b', NUL, 'c'];
  }
}
