/** Reading `/console/inspect` rows (schema/inspect.go) and building name lists from them
    (schema/discover.go:162-218). */
module Inspect {
  import opened Text

  /** `transport.InspectNode`. */
  datatype Node = Node(kind: string, nodeType: string, name: string, completion: string, value: string, text: string)

  predicate IsArgumentNode(n: Node) {
    n.kind == "arg" || n.nodeType == "arg"
  }

  predicate IsCommandNode(n: Node, name: string) {
    n.name == name && (n.kind == "cmd" || n.nodeType == "cmd")
  }

  function PathTokens(path: string): seq<string> {
    Fields(path, '/')
  }

  function InspectPath(tokens: seq<string>): string {
    Join(tokens, ",")
  }

  /** Tokens hold no slash and no token is empty. */
  lemma {:induction false} NonEmptyKeepsFree(ss: seq<string>, c: char)
    requires AllFree(ss, c)
    ensures AllFree(NonEmpty(ss), c) && forall i :: 0 <= i < |NonEmpty(ss)| ==> NonEmpty(ss)[i] != ""
    decreases |ss|
  {
    hide Free;
    if ss != [] {
      forall k | 0 <= k < |ss[1..]|
        ensures Free(ss[1..][k], c)
      {
        assert ss[1..][k] == ss[k + 1];
      }
      NonEmptyKeepsFree(ss[1..], c);
      assert Free(ss[0], c);
    }
  }

  lemma TokensMeaning(path: string)
    ensures AllFree(PathTokens(path), '/')
    ensures forall i :: 0 <= i < |PathTokens(path)| ==> PathTokens(path)[i] != ""
  {
    JoinOfSplit(path, '/');
    NonEmptyKeepsFree(Split(path, '/'), '/');
  }

  /** The tokens put together. */
  function Flat(ss: seq<string>): string {
    if ss == [] then [] else ss[0] + Flat(ss[1..])
  }

  function Without(s: string, c: char): string {
    if s == [] then [] else (if s[0] == c then [] else [s[0]]) + Without(s[1..], c)
  }

  lemma {:induction false} FlatNonEmpty(ss: seq<string>)
    ensures Flat(NonEmpty(ss)) == Flat(ss)
    decreases |ss|
  {
    if ss != [] {
      FlatNonEmpty(ss[1..]);
      if ss[0] != "" {
        assert NonEmpty(ss)[1..] == NonEmpty(ss[1..]);
      } else {
        assert NonEmpty(ss) == NonEmpty(ss[1..]);
      }
    }
  }

  lemma {:induction false} WithoutOfConcat(a: string, b: string, c: char)
    ensures Without(a + b, c) == Without(a, c) + Without(b, c)
    decreases |a|
  {
    if a == [] {
      assert a + b == b;
    } else {
      assert (a + b)[0] == a[0] && (a + b)[1..] == a[1..] + b;
      WithoutOfConcat(a[1..], b, c);
      Associative(if a[0] == c then [] else [a[0]], Without(a[1..], c), Without(b, c));
    }
  }

  lemma {:induction false} WithoutNone(a: string, c: char)
    requires Free(a, c)
    ensures Without(a, c) == a
  {
    if a != [] {
      assert Free(a[1..], c);
      WithoutNone(a[1..], c);
      assert a == [a[0]] + a[1..];
    }
  }

  lemma FlatCons(x: string, ss: seq<string>)
    ensures Flat([x] + ss) == x + Flat(ss)
  {
    assert ([x] + ss)[1..] == ss;
  }

  lemma WithoutAt(s: string, c: char, i: nat)
    requires i < |s| && s[i] == c && Free(s[..i], c)
    ensures Without(s, c) == s[..i] + Without(s[i + 1..], c)
  {
    var rest := s[i + 1..];
    assert s == s[..i] + ([c] + rest) && ([c] + rest)[1..] == rest;
    WithoutOfConcat(s[..i], [c] + rest, c);
    WithoutNone(s[..i], c);
  }

  lemma {:induction false} FlatSplit(s: string, c: char)
    ensures Flat(Split(s, c)) == Without(s, c)
    decreases |s|
  {
    hide Without, Flat, Find;
    var i := Find(s, c);
    if i < |s| {
      FlatSplit(s[i + 1..], c);
      WithoutAt(s, c, i);
      FlatCons(s[..i], Split(s[i + 1..], c));
    } else {
      WithoutNone(s, c);
      FlatCons(s, []);
      assert [s] + [] == [s] && s + [] == s;
      EmptyFlat(c);
    }
  }

  lemma EmptyFlat(c: char)
    ensures Flat([]) == [] && Without([], c) == []
  {
  }

  /** The tokens are the parts of the path between its slashes, in order: together they are the path
      without its slashes, and putting tokens back behind slashes gives them again. */
  lemma TokensInOrder(path: string)
    ensures Flat(PathTokens(path)) == Without(path, '/')
    ensures PathTokens("/" + Join(PathTokens(path), "/")) == PathTokens(path)
  {
    FlatSplit(path, '/');
    FlatNonEmpty(Split(path, '/'));
    TokensMeaning(path);
    TokensOfJoin(PathTokens(path));
  }

  lemma {:induction false} AllNonEmpty(ss: seq<string>)
    requires forall i :: 0 <= i < |ss| ==> ss[i] != ""
    ensures NonEmpty(ss) == ss
    decreases |ss|
  {
    if ss != [] {
      AllNonEmpty(ss[1..]);
    }
  }

  lemma TokensOfJoin(ts: seq<string>)
    requires AllFree(ts, '/') && forall i :: 0 <= i < |ts| ==> ts[i] != ""
    ensures PathTokens("/" + Join(ts, "/")) == ts
  {
    var s := "/" + Join(ts, "/");
    assert Find(s, '/') == 0 && s[..0] == "" && s[1..] == Join(ts, "/");
    assert Split(s, '/') == [""] + Split(Join(ts, "/"), '/');
    assert NonEmpty([""] + Split(Join(ts, "/"), '/')) == NonEmpty(Split(Join(ts, "/"), '/')) by {
      assert ([""] + Split(Join(ts, "/"), '/'))[1..] == Split(Join(ts, "/"), '/');
    }
    if ts == [] {
      assert Split("", '/') == [""] && [""][1..] == [];
      assert NonEmpty([""]) == [];
    } else {
      SplitOfJoin(ts, '/');
      AllNonEmpty(ts);
    }
  }

  predicate HasCommand(nodes: seq<Node>, name: string) {
    exists i :: 0 <= i < |nodes| && IsCommandNode(nodes[i], name)
  }

  method HasCommandNode(nodes: seq<Node>, name: string) returns (r: bool)
    ensures r == HasCommand(nodes, name)
  {
    for i := 0 to |nodes|
      invariant forall j :: 0 <= j < i ==> !IsCommandNode(nodes[j], name)
    {
      if IsCommandNode(nodes[i], name) {
        return true;
      }
    }
    return false;
  }

  // ----- argument names -----

  function ArgumentNames(nodes: seq<Node>): seq<string> {
    if nodes == [] then []
    else
      var n := nodes[|nodes| - 1];
      ArgumentNames(nodes[..|nodes| - 1]) + (if IsArgumentNode(n) && n.name != "" then [n.name] else [])
  }

  method NamesOfArgumentNodes(nodes: seq<Node>) returns (names: seq<string>)
    ensures names == ArgumentNames(nodes)
  {
    names := [];
    for i := 0 to |nodes|
      invariant names == ArgumentNames(nodes[..i])
    {
      assert nodes[..i + 1][..i] == nodes[..i];
      if IsArgumentNode(nodes[i]) && nodes[i].name != "" {
        names := names + [nodes[i].name];
      }
    }
    assert nodes[..|nodes|] == nodes;
  }

  lemma {:induction false} ArgumentNamesMeaning(nodes: seq<Node>, x: string)
    ensures x in ArgumentNames(nodes) <==>
            x != "" && exists i :: 0 <= i < |nodes| && IsArgumentNode(nodes[i]) && nodes[i].name == x
  {
    if nodes != [] {
      var n := |nodes| - 1;
      ArgumentNamesMeaning(nodes[..n], x);
      if i :| 0 <= i < |nodes| && IsArgumentNode(nodes[i]) && nodes[i].name == x && x != "" {
        if i < n { assert nodes[..n][i] == nodes[i]; }
      }
    }
  }

  // ----- completion names -----

  /** The fields of a row that carry names: completion, name and value when any of them is filled,
      the text otherwise. */
  function Picked(r: Node): seq<string> {
    var named := NonEmpty([r.completion, r.name, r.value]);
    if named == [] && r.text != "" then [r.text] else named
  }

  lemma PickedFields(r: Node)
    ensures NonEmpty([r.completion, r.name, r.value]) ==
            (if r.completion != "" then [r.completion] else [])
            + (if r.name != "" then [r.name] else [])
            + (if r.value != "" then [r.value] else [])
  {
    assert [r.completion, r.name, r.value][1..] == [r.name, r.value];
    assert [r.name, r.value][1..] == [r.value] && [r.value][1..] == [];
    assert NonEmpty([r.value]) == if r.value != "" then [r.value] else [];
  }

  /** A name without what follows its first `=`, trimmed. */
  function CutName(v: string): string {
    TrimSpace(v[..Find(v, '=')])
  }

  function CutNames(vs: seq<string>): seq<string> {
    if vs == [] then []
    else CutNames(vs[..|vs| - 1]) + (if CutName(vs[|vs| - 1]) != "" then [CutName(vs[|vs| - 1])] else [])
  }

  function CompletionNames(rows: seq<Node>): seq<string> {
    if rows == [] then [] else CompletionNames(rows[..|rows| - 1]) + CutNames(Picked(rows[|rows| - 1]))
  }

  lemma {:induction false} CutNamesMeaning(vs: seq<string>, x: string)
    ensures x in CutNames(vs) <==> x != "" && exists v :: v in vs && CutName(v) == x
  {
    if vs != [] {
      var n := |vs| - 1;
      CutNamesMeaning(vs[..n], x);
      assert vs == vs[..n] + [vs[n]];
      hide CutName;
      assert vs[n] in vs && forall v :: v in vs <==> v in vs[..n] || v == vs[n];
    }
  }

  ghost predicate Gives(r: Node, x: string) {
    exists v :: v in Picked(r) && CutName(v) == x
  }

  /** A name is collected exactly if it is what is left, cut at its first `=` and trimmed, of a field
      that is picked from some row. */
  lemma {:induction false} CompletionNamesMeaning(rows: seq<Node>, x: string)
    ensures x in CompletionNames(rows) <==>
            x != "" && exists i :: 0 <= i < |rows| && Gives(rows[i], x)
  {
    if rows != [] {
      var init, last := rows[..|rows| - 1], rows[|rows| - 1];
      assert rows == init + [last] && CompletionNames(rows) == CompletionNames(init) + CutNames(Picked(last));
      CompletionNamesMeaning(init, x);
      CutNamesMeaning(Picked(last), x);
      assert Gives(last, x) <==> exists v :: v in Picked(last) && CutName(v) == x;
      hide CompletionNames, CutNames, Picked, Gives, CutName;
      GivesSnoc(init, last, x);
    }
  }

  lemma GivesSnoc(init: seq<Node>, last: Node, x: string)
    ensures (exists i :: 0 <= i < |init + [last]| && Gives((init + [last])[i], x)) <==>
            (exists i :: 0 <= i < |init| && Gives(init[i], x)) || Gives(last, x)
  {
    hide Gives;
    if i :| 0 <= i < |init| && Gives(init[i], x) {
      assert (init + [last])[i] == init[i];
    }
    assert (init + [last])[|init|] == last;
  }

  /** The first half of the loop body of `ExtractCompletionNames`. */
  method PickFields(r: Node) returns (picked: seq<string>)
    ensures picked == Picked(r)
  {
    picked := [];
    if r.completion != "" { picked := picked + [r.completion]; }
    if r.name != "" { picked := picked + [r.name]; }
    if r.value != "" { picked := picked + [r.value]; }
    PickedFields(r);
    if picked == [] && r.text != "" {
      picked := [r.text];
    }
  }

  /** Its second half. */
  method AppendNames(before: seq<string>, picked: seq<string>) returns (names: seq<string>)
    ensures names == before + CutNames(picked)
  {
    names := before;
    for j := 0 to |picked|
      invariant names == before + CutNames(picked[..j])
    {
      assert picked[..j + 1][..j] == picked[..j];
      var v := picked[j];
      var eq := Find(v, '=');
      v := TrimSpace(v[..eq]);
      if v != "" {
        names := names + [v];
      }
    }
    assert picked[..|picked|] == picked;
  }

  method ExtractCompletionNames(rows: seq<Node>) returns (names: seq<string>)
    ensures names == CompletionNames(rows)
  {
    names := [];
    for i := 0 to |rows|
      invariant names == CompletionNames(rows[..i])
    {
      assert rows[..i + 1][..i] == rows[..i];
      var picked := PickFields(rows[i]);
      names := AppendNames(names, picked);
    }
    assert rows[..|rows|] == rows;
  }

  const STRUCTURAL := {"[", "]", "(", ")", "$", "\"", "*", "<value>", "about", "`"}

  function Usable(names: seq<string>): seq<string> {
    if names == [] then []
    else Usable(names[..|names| - 1]) + (if names[|names| - 1] in STRUCTURAL then [] else [names[|names| - 1]])
  }

  method UsableCompletionNames(names: seq<string>) returns (out: seq<string>)
    ensures out == Usable(names)
  {
    out := [];
    for i := 0 to |names|
      invariant out == Usable(names[..i])
    {
      assert names[..i + 1][..i] == names[..i];
      if names[i] !in STRUCTURAL {
        out := out + [names[i]];
      }
    }
    assert names[..|names|] == names;
  }

  lemma {:induction false} UsableMeaning(names: seq<string>)
    ensures Elements(Usable(names)) == Elements(names) - STRUCTURAL
  {
    if names != [] {
      var n := |names| - 1;
      UsableMeaning(names[..n]);
      assert names == names[..n] + [names[n]];
      ElementsOfConcat(names[..n], [names[n]]);
      ElementsOfConcat(Usable(names[..n]), if names[n] in STRUCTURAL then [] else [names[n]]);
    }
  }

  // ----- merging and sorting -----

  /** The names of `src` that are new, appended in the order they are first seen. */
  function Merge(dst: seq<string>, src: seq<string>): seq<string> {
    if src == [] then dst
    else
      var m := Merge(dst, src[..|src| - 1]);
      if src[|src| - 1] in m then m else m + [src[|src| - 1]]
  }

  method MergeNames(dst: seq<string>, src: seq<string>) returns (out: seq<string>)
    ensures out == Merge(dst, src)
  {
    var seen := {};
    for i := 0 to |dst|
      invariant seen == Elements(dst[..i])
    {
      assert dst[..i + 1] == dst[..i] + [dst[i]];
      ElementsOfConcat(dst[..i], [dst[i]]);
      seen := seen + {dst[i]};
    }
    assert dst[..|dst|] == dst;
    out := dst;
    for i := 0 to |src|
      invariant out == Merge(dst, src[..i]) && seen == Elements(out)
    {
      assert src[..i + 1][..i] == src[..i];
      if src[i] !in seen {
        ElementsOfConcat(out, [src[i]]);
        seen := seen + {src[i]};
        out := out + [src[i]];
      }
    }
    assert src[..|src|] == src;
  }

  /** A merge is a union that adds no duplicates of its own. */
  lemma {:induction false} MergeMeaning(dst: seq<string>, src: seq<string>)
    ensures Elements(Merge(dst, src)) == Elements(dst) + Elements(src)
    ensures NoDuplicates(Merge(dst, src)) <==> NoDuplicates(dst)
    ensures dst <= Merge(dst, src)
  {
    if src != [] {
      var n := |src| - 1;
      MergeMeaning(dst, src[..n]);
      var m := Merge(dst, src[..n]);
      assert src == src[..n] + [src[n]];
      ElementsOfConcat(src[..n], [src[n]]);
      if src[n] in m {
        assert src[n] in Elements(m);
      } else {
        ElementsOfConcat(m, [src[n]]);
        NoDuplicatesSnoc(m, src[n]);
      }
    } else {
      assert Elements([]) == {};
    }
  }

  lemma NoDuplicatesSnoc(m: seq<string>, x: string)
    requires x !in m
    ensures NoDuplicates(m + [x]) <==> NoDuplicates(m)
  {
    var t := m + [x];
    if NoDuplicates(t) {
      forall i, j | 0 <= i < j < |m| ensures m[i] != m[j] {
        assert t[i] == m[i] && t[j] == m[j];
      }
    }
  }

  lemma SortMeaning(names: seq<string>)
    ensures Sorted(Sort(names)) && Elements(Sort(names)) == Elements(names)
    ensures NoDuplicates(Sort(names)) <==> NoDuplicates(names)
  {
    SortSorts(names);
    SameElements(Sort(names), names);
    NoDuplicatesIsMultiplicityOne(names);
    NoDuplicatesIsMultiplicityOne(Sort(names));
    assert forall x :: x in names <==> x in Elements(names);
    assert forall x :: x in Sort(names) <==> x in Elements(Sort(names));
  }
}
