/** The string operations of the Go standard library that the other modules need: ordering and
    sorting of strings, splitting and joining. */
module Text {

  /** Regrouping a concatenation, which the solver does not do on its own. */
  lemma Associative(a: string, b: string, c: string)
    ensures (a + b) + c == a + (b + c)
  {
  }

  // ----- order -----

  /** The order of `sort.Strings`. */
  predicate Le(a: string, b: string) {
    a == [] || (b != [] && (a[0] < b[0] || (a[0] == b[0] && Le(a[1..], b[1..]))))
  }

  predicate Lt(a: string, b: string) {
    Le(a, b) && a != b
  }

  lemma {:induction false} LeTotal(a: string, b: string)
    ensures Le(a, b) || Le(b, a)
  {
    if a != [] && b != [] && a[0] == b[0] {
      LeTotal(a[1..], b[1..]);
    }
  }

  lemma {:induction false} LeAntisymmetric(a: string, b: string)
    requires Le(a, b) && Le(b, a)
    ensures a == b
  {
    if a != [] && b != [] {
      LeAntisymmetric(a[1..], b[1..]);
      assert a == [a[0]] + a[1..] && b == [b[0]] + b[1..];
    }
  }

  lemma {:induction false} LeTransitive(a: string, b: string, c: string)
    requires Le(a, b) && Le(b, c)
    ensures Le(a, c)
  {
    if a != [] && b != [] && c != [] && a[0] == b[0] && b[0] == c[0] {
      LeTransitive(a[1..], b[1..], c[1..]);
    }
  }

  ghost predicate Sorted(s: seq<string>) {
    forall i, j :: 0 <= i < j < |s| ==> Le(s[i], s[j])
  }

  ghost predicate Increasing(s: seq<string>) {
    forall i, j :: 0 <= i < j < |s| ==> Lt(s[i], s[j])
  }

  function Elements(s: seq<string>): set<string> {
    set x | x in s
  }

  ghost predicate NoDuplicates(s: seq<string>) {
    forall i, j :: 0 <= i < j < |s| ==> s[i] != s[j]
  }

  /** `s` lists the elements of `xs` in order, each once. */
  ghost predicate Lists(s: seq<string>, xs: set<string>) {
    Increasing(s) && Elements(s) == xs
  }

  // ----- sorting -----

  function Insert(x: string, s: seq<string>): seq<string> {
    if s == [] then [x]
    else if Le(x, s[0]) then [x] + s
    else [s[0]] + Insert(x, s[1..])
  }

  /** `sort.Strings`, as a value. */
  function Sort(s: seq<string>): seq<string> {
    if s == [] then [] else Insert(s[0], Sort(s[1..]))
  }

  lemma {:induction false} InsertSorts(x: string, s: seq<string>)
    requires Sorted(s)
    ensures Sorted(Insert(x, s)) && multiset(Insert(x, s)) == multiset(s) + multiset{x}
  {
    if s == [] {
    } else if Le(x, s[0]) {
      forall j | 0 <= j < |s|
        ensures Le(x, s[j])
      {
        if j > 0 { LeTransitive(x, s[0], s[j]); }
      }
    } else {
      LeTotal(x, s[0]);
      InsertSorts(x, s[1..]);
      assert s == [s[0]] + s[1..];
      var t := Insert(x, s[1..]);
      forall j | 0 <= j < |t|
        ensures Le(s[0], t[j])
      {
        assert t[j] in multiset(t);
        assert t[j] == x || t[j] in s[1..];
      }
    }
  }

  lemma {:induction false} SortSorts(s: seq<string>)
    ensures Sorted(Sort(s)) && multiset(Sort(s)) == multiset(s)
  {
    if s != [] {
      SortSorts(s[1..]);
      InsertSorts(s[0], Sort(s[1..]));
      assert s == [s[0]] + s[1..];
    }
  }

  lemma SameElements(s: seq<string>, t: seq<string>)
    requires multiset(s) == multiset(t)
    ensures Elements(s) == Elements(t) && |s| == |t|
  {
    assert |multiset(s)| == |s| && |multiset(t)| == |t|;
    forall x
      ensures x in s <==> x in t
    {
      assert x in s <==> x in multiset(s);
    }
  }

  lemma {:induction false} NoDuplicatesIsMultiplicityOne(s: seq<string>)
    ensures NoDuplicates(s) <==> forall x :: x in s ==> multiset(s)[x] == 1
  {
    if s != [] {
      var t := s[1..];
      NoDuplicatesIsMultiplicityOne(t);
      assert s == [s[0]] + t;
      assert multiset(s) == multiset{s[0]} + multiset(t);
      if NoDuplicates(s) {
        assert s[0] !in t;
        assert NoDuplicates(t) by {
          forall i, j | 0 <= i < j < |t| ensures t[i] != t[j] { assert t[i] == s[i + 1] && t[j] == s[j + 1]; }
        }
      }
      if forall x :: x in s ==> multiset(s)[x] == 1 {
        assert s[0] in s && multiset(s)[s[0]] == 1;
        assert multiset(t)[s[0]] == 0;
        forall i, j | 0 <= i < j < |s|
          ensures s[i] != s[j]
        {
          if i == 0 {
            assert s[j] == t[j - 1] && s[j] in multiset(t);
          } else {
            assert s[i] == t[i - 1] && s[j] == t[j - 1];
            forall x | x in t ensures multiset(t)[x] == 1 { assert x in s && multiset(s)[x] == 1; }
          }
        }
      }
    }
  }

  /** Sorting a list without duplicates lists its elements. */
  lemma SortLists(s: seq<string>)
    requires NoDuplicates(s)
    ensures Lists(Sort(s), Elements(s)) && |Sort(s)| == |s|
  {
    SortSorts(s);
    SameElements(Sort(s), s);
    NoDuplicatesIsMultiplicityOne(s);
    NoDuplicatesIsMultiplicityOne(Sort(s));
  }

  lemma EmptyList(s: seq<string>)
    ensures Elements(s) == {} <==> s == []
  {
    if s != [] {
      assert s[0] in Elements(s);
    }
  }

  lemma ElementsOfConcat(s: seq<string>, t: seq<string>)
    ensures Elements(s + t) == Elements(s) + Elements(t)
  {
    assert forall x :: x in s + t <==> x in s || x in t;
  }

  /** There is only one way to list a set in order. */
  lemma {:induction false} ListsUnique(s: seq<string>, t: seq<string>, xs: set<string>)
    requires Lists(s, xs) && Lists(t, xs)
    ensures s == t
  {
    EmptyList(s);
    EmptyList(t);
    if xs != {} {
      FirstIsLeast(s, t, xs);
      FirstIsLeast(t, s, xs);
      LeAntisymmetric(s[0], t[0]);
      TailLists(s, xs);
      TailLists(t, xs);
      ListsUnique(s[1..], t[1..], xs - {s[0]});
    }
  }

  lemma FirstIsLeast(s: seq<string>, t: seq<string>, xs: set<string>)
    requires Lists(s, xs) && Lists(t, xs) && s != [] && t != []
    ensures Le(s[0], t[0])
  {
    assert t[0] in Elements(t);
    assert t[0] in s;
    var i :| 0 <= i < |s| && s[i] == t[0];
    LeTotal(s[0], s[0]);
  }

  lemma TailLists(s: seq<string>, xs: set<string>)
    requires Lists(s, xs) && s != []
    ensures Lists(s[1..], xs - {s[0]})
  {
    assert s == [s[0]] + s[1..];
    forall x
      ensures x in Elements(s[1..]) <==> x in xs - {s[0]}
    {
      if x in s[1..] {
        var i :| 0 <= i < |s[1..]| && s[1..][i] == x;
        assert s[i + 1] == x && Lt(s[0], s[i + 1]);
      }
      assert x in s <==> x in xs;
      assert x in s <==> x == s[0] || x in s[1..];
    }
  }

  lemma {:induction false} ListExists(xs: set<string>)
    ensures exists s :: Lists(s, xs)
  {
    if xs == {} {
      assert Lists([], xs);
    } else {
      var x :| x in xs;
      ListExists(xs - {x});
      var s :| Lists(s, xs - {x});
      var t := [x] + s;
      assert NoDuplicates(t) by {
        forall i, j | 0 <= i < j < |t| ensures t[i] != t[j] {
          if i == 0 { assert t[j] in Elements(s); }
        }
      }
      SortLists(t);
      ElementsOfConcat([x], s);
      assert Elements(t) == xs;
    }
  }

  /** The elements of a set in order. */
  ghost function Listed(xs: set<string>): (s: seq<string>)
    ensures Lists(s, xs)
  {
    ListExists(xs);
    var s :| Lists(s, xs);
    s
  }

  /** `sortedKeys`: the map is ranged over in any order, the result is always the same. */
  method SortedKeys(m: map<string, string>) returns (keys: seq<string>)
    ensures keys == Listed(m.Keys)
  {
    keys := [];
    var rest := m.Keys;
    while rest != {}
      invariant rest <= m.Keys && NoDuplicates(keys)
      invariant Elements(keys) == m.Keys - rest
      decreases |rest|
    {
      var k :| k in rest;
      assert k !in Elements(keys);
      ElementsOfConcat(keys, [k]);
      keys := keys + [k];
      rest := rest - {k};
    }
    SortLists(keys);
    ListsUnique(Sort(keys), Listed(m.Keys), m.Keys);
    keys := Sort(keys);
  }

  // ----- splitting and joining -----

  /** `strings.Join`. */
  function Join(ss: seq<string>, sep: string): string {
    if ss == [] then []
    else if |ss| == 1 then ss[0]
    else ss[0] + sep + Join(ss[1..], sep)
  }

  /** Position of the first `c`, or the length. */
  function Find(s: string, c: char): (i: nat)
    ensures i <= |s| && (forall j :: 0 <= j < i ==> s[j] != c) && (i < |s| ==> s[i] == c)
  {
    if s == [] || s[0] == c then 0 else 1 + Find(s[1..], c)
  }

  /** `strings.Split` on one character. */
  function Split(s: string, c: char): (ss: seq<string>)
    ensures ss != []
    decreases |s|
  {
    var i := Find(s, c);
    if i < |s| then [s[..i]] + Split(s[i + 1..], c) else [s]
  }

  function NonEmpty(ss: seq<string>): seq<string> {
    if ss == [] then [] else (if ss[0] != "" then [ss[0]] else []) + NonEmpty(ss[1..])
  }

  /** `strings.FieldsFunc` with a single separator. */
  function Fields(s: string, c: char): seq<string> {
    NonEmpty(Split(s, c))
  }

  ghost predicate Free(s: string, c: char) {
    forall i :: 0 <= i < |s| ==> s[i] != c
  }

  ghost predicate AllFree(ss: seq<string>, c: char) {
    forall k :: 0 <= k < |ss| ==> Free(ss[k], c)
  }

  /** Splitting and joining undo each other. */
  lemma {:induction false} JoinOfSplit(s: string, c: char)
    ensures Join(Split(s, c), [c]) == s && AllFree(Split(s, c), c)
    decreases |s|
  {
    var i := Find(s, c);
    if i < |s| {
      JoinOfSplit(s[i + 1..], c);
      assert s == s[..i] + [c] + s[i + 1..];
      assert Split(s, c)[1..] == Split(s[i + 1..], c);
    }
  }

  lemma {:induction false} SplitOfJoin(ss: seq<string>, c: char)
    requires ss != [] && AllFree(ss, c)
    ensures Split(Join(ss, [c]), c) == ss
    decreases |ss|
  {
    var s := Join(ss, [c]);
    if |ss| == 1 {
      assert Free(ss[0], c);
    } else {
      assert Free(ss[0], c);
      var rest := Join(ss[1..], [c]);
      assert s == ss[0] + [c] + rest;
      assert s[|ss[0]|] == c;
      assert forall j :: 0 <= j < |ss[0]| ==> s[j] == ss[0][j];
      assert Find(s, c) == |ss[0]|;
      assert s[..|ss[0]|] == ss[0] && s[|ss[0]| + 1..] == rest;
      SplitOfJoin(ss[1..], c);
    }
  }

  /** Free of `c` carries over from a string to its parts, and back. */
  lemma {:induction false} SplitFree(s: string, sep: char, c: char)
    requires Free(s, c)
    ensures AllFree(Split(s, sep), c)
    decreases |s|
  {
    var i := Find(s, sep);
    if i < |s| {
      SplitFree(s[i + 1..], sep, c);
    }
  }

  lemma {:induction false} JoinFree(ss: seq<string>, sep: string, c: char)
    requires AllFree(ss, c) && Free(sep, c)
    ensures Free(Join(ss, sep), c)
    decreases |ss|
  {
    if |ss| > 1 {
      assert AllFree(ss[1..], c) by {
        assert forall i :: 0 <= i < |ss[1..]| ==> ss[1..][i] == ss[i + 1];
      }
      JoinFree(ss[1..], sep, c);
      assert Free(ss[0], c);
    } else if |ss| == 1 {
      assert Free(ss[0], c);
    }
  }

  // ----- white space -----

  /** The white space of `unicode.IsSpace`. */
  predicate IsSpace(c: char) {
    c in {'\t', '\n', '\U{0B}', '\U{0C}', '\r', ' ', '\U{85}', '\U{A0}', '\U{1680}', '\U{2028}', '\U{2029}', '\U{202F}',
          '\U{205F}', '\U{3000}'}
    || '\U{2000}' <= c <= '\U{200A}'
  }

  /** `TrimSpace(s) == ""`. */
  predicate Blank(s: string) {
    forall i :: 0 <= i < |s| ==> IsSpace(s[i])
  }

  function TrimFront(s: string): string {
    if s != [] && IsSpace(s[0]) then TrimFront(s[1..]) else s
  }

  function TrimBack(s: string): string {
    if s != [] && IsSpace(s[|s| - 1]) then TrimBack(s[..|s| - 1]) else s
  }

  /** `strings.TrimSpace`. */
  function TrimSpace(s: string): string {
    TrimBack(TrimFront(s))
  }

  lemma {:induction false} FrontOfBlank(s: string)
    ensures TrimFront(s) == "" <==> Blank(s)
    ensures TrimFront(s) != "" ==> !IsSpace(TrimFront(s)[0])
  {
    if s != [] && IsSpace(s[0]) {
      FrontOfBlank(s[1..]);
      assert Blank(s) <==> Blank(s[1..]) by {
        assert forall i :: 1 <= i < |s| ==> s[i] == s[1..][i - 1];
      }
    }
  }

  lemma {:induction false} BackOfBlank(s: string)
    ensures TrimBack(s) == "" <==> Blank(s)
  {
    if s != [] && IsSpace(s[|s| - 1]) {
      BackOfBlank(s[..|s| - 1]);
    }
  }

  /** Trimming leaves nothing exactly when everything is white space. */
  lemma TrimSpaceEmpty(s: string)
    ensures TrimSpace(s) == "" <==> Blank(s)
  {
    FrontOfBlank(s);
    BackOfBlank(TrimFront(s));
  }
}
