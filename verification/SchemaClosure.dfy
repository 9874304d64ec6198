/** Inlining an agent's init-data schema: the `$ref` at its root is replaced by its definition,
    and the definitions that one reaches are carried along. Definitions may refer to each
    other in cycles. */
module SchemaClosure {
  import opened Collections
  import opened Protocol

  datatype Field = Field(key: string, value: Node)

  datatype Node = Obj(fields: seq<Field>) | Arr(items: seq<Node>) | Str(text: string) | Scalar(text: string)

  type Defs = map<string, Node>

  const PREFIX := "#/$defs/"

  function RemovePrefix(s: string): string {
    if PREFIX <= s then s[|PREFIX|..] else s
  }

  function Lookup(fields: seq<Field>, key: string): Option<Node> {
    if fields == [] then None
    else if fields[0].key == key then Some(fields[0].value)
    else Lookup(fields[1..], key)
  }

  /** The name a mapping's string-valued `$ref` names. */
  function RefName(n: Node): Option<string> {
    if !n.Obj? then None
    else
      var r := Lookup(n.fields, "$ref");
      if r.Some? && r.value.Str? then Some(RemovePrefix(r.value.text)) else None
  }

  // ---- What "reachable" means ---------------------------------------------------------

  /** A mapping's `$ref`: a string, with or without the prefix of a definition. */
  predicate RefersAs(n: Node, name: string) {
    n.Obj? && exists i :: 0 <= i < |n.fields| && FirstRef(n.fields, i) && n.fields[i].value.Str?
                          && (n.fields[i].value.text == PREFIX + name
                              || (n.fields[i].value.text == name && !(PREFIX <= name)))
  }

  predicate FirstRef(fields: seq<Field>, i: nat) {
    i < |fields| && fields[i].key == "$ref" && forall j :: 0 <= j < i ==> fields[j].key != "$ref"
  }

  lemma {:induction false} LookupFirst(fields: seq<Field>) returns (i: nat)
    ensures Lookup(fields, "$ref").None? ==> forall j :: 0 <= j < |fields| ==> fields[j].key != "$ref"
    ensures Lookup(fields, "$ref").Some? ==> FirstRef(fields, i) && Lookup(fields, "$ref") == Some(fields[i].value)
  {
    i := 0;
    if fields != [] && fields[0].key != "$ref" {
      var k := LookupFirst(fields[1..]);
      i := k + 1;
    }
  }

  /** The name that is followed is the one the mapping's `$ref` spells. */
  lemma RefNameIff(n: Node, name: string)
    ensures RefName(n) == Some(name) <==> RefersAs(n, name)
  {
    if n.Obj? {
      var i := LookupFirst(n.fields);
      if Lookup(n.fields, "$ref").Some? {
        assert forall j: nat :: FirstRef(n.fields, j) ==> j == i;
        if n.fields[i].value.Str? {
          Spells(n.fields[i].value, name);
        }
      }
    }
  }

  lemma Spells(v: Node, name: string)
    requires v.Str?
    ensures RemovePrefix(v.text) == name <==> v.text == PREFIX + name || (v.text == name && !(PREFIX <= name))
  {
    assert (PREFIX + name)[|PREFIX|..] == name;
    if PREFIX <= v.text {
      assert v.text == PREFIX + v.text[|PREFIX|..];
    }
  }

  /** Some mapping at some depth of `n`, in mappings and in lists, refers to `name`. */
  ghost predicate Mentions(n: Node, name: string) {
    || RefersAs(n, name)
    || match n
       case Obj(fields) => exists i :: 0 <= i < |fields| && Mentions(fields[i].value, name)
       case Arr(items) => exists i :: 0 <= i < |items| && Mentions(items[i], name)
       case Str(_) => false
       case Scalar(_) => false
  }

  /** The values directly inside a mapping or a list, as the walk visits them. */
  function Values(n: Node): (r: seq<Node>)
    ensures forall v <- r :: v < n
  {
    match n
    case Obj(fields) => seq(|fields|, i requires 0 <= i < |fields| => fields[i].value)
    case Arr(items) => items
    case _ => []
  }

  /** What is mentioned is the mapping's own reference, or mentioned by a value the walk visits. */
  lemma MentionsInside(n: Node, name: string)
    ensures Mentions(n, name) <==> RefName(n) == Some(name) || exists v :: v in Values(n) && Mentions(v, name)
  {
    RefNameIff(n, name);
    match n
    case Obj(fields) =>
      assert forall i :: 0 <= i < |fields| ==> Values(n)[i] == fields[i].value;
      assert forall i :: 0 <= i < |fields| ==> fields[i].value in Values(n);
    case Arr(items) =>
      assert forall i :: 0 <= i < |items| ==> items[i] in Values(n);
      assert forall v :: v in Values(n) ==> exists i :: 0 <= i < |items| && items[i] == v;
    case _ =>
  }

  /** All that `n` refers to is among `names`. */
  ghost predicate Covers(names: Defs, n: Node) {
    forall name :: Mentions(n, name) ==> name in names
  }

  /** `part` refers to nothing that `n` does not. */
  ghost predicate Within(part: Node, n: Node) {
    forall name :: Mentions(part, name) ==> Mentions(n, name)
  }

  /** A chain of references: the first from `n`, each next from the definition before it. */
  ghost predicate Chain(defs: Defs, n: Node, p: seq<string>)
    decreases |p|
  {
    && p != [] && Mentions(n, p[0])
    && (|p| > 1 ==> p[0] in defs && Chain(defs, defs[p[0]], p[1..]))
  }

  ghost predicate Reaches(defs: Defs, n: Node, name: string) {
    exists p :: Chain(defs, n, p) && p[|p| - 1] == name
  }

  lemma ReachesOwn(defs: Defs, n: Node, name: string)
    requires Mentions(n, name)
    ensures Reaches(defs, n, name)
  {
    assert Chain(defs, n, [name]);
  }

  lemma ReachesThrough(defs: Defs, n: Node, via: string, name: string)
    requires Mentions(n, via) && via in defs && Reaches(defs, defs[via], name)
    ensures Reaches(defs, n, name)
  {
    var p :| Chain(defs, defs[via], p) && p[|p| - 1] == name;
    assert ([via] + p)[1..] == p;
    assert Chain(defs, n, [via] + p);
    assert ([via] + p)[|p|] == name;
  }

  lemma ReachesFromPart(defs: Defs, part: Node, n: Node, name: string)
    requires Within(part, n) && Reaches(defs, part, name)
    ensures Reaches(defs, n, name)
  {
    var p :| Chain(defs, part, p) && p[|p| - 1] == name;
    assert Chain(defs, n, p);
  }

  // ---- The walk -------------------------------------------------------------------------

  /** What a walk over `n` added: only reachable definitions, each with all it refers to. */
  ghost predicate Explored(defs: Defs, n: Node, before: Defs, after: Defs) {
    && before.Keys <= after.Keys
    && (forall k <- after.Keys - before.Keys ::
          && k in defs && after[k] == defs[k]
          && Covers(after, defs[k])
          && Reaches(defs, n, k))
    && (forall k <- before :: after[k] == before[k])
  }

  /** A definition is missing somewhere along the references of `n`. */
  ghost predicate Dangles(defs: Defs, n: Node) {
    exists name :: Reaches(defs, n, name) && name !in defs
  }

  lemma Compose(defs: Defs, n: Node, part: Node, a: Defs, b: Defs, c: Defs)
    requires Explored(defs, n, a, b) && Explored(defs, part, b, c) && Within(part, n)
    ensures Explored(defs, n, a, c)
  {
    forall k | k in c.Keys - a.Keys
      ensures k in defs && c[k] == defs[k] && Covers(c, defs[k]) && Reaches(defs, n, k)
    {
      if k !in b {
        ReachesFromPart(defs, part, n, k);
      }
    }
  }

  ghost predicate CoversFirst(names: Defs, values: seq<Node>, n: nat)
    requires n <= |values|
  {
    forall j | 0 <= j < n :: Covers(names, values[j])
  }

  lemma CoversNext(before: Defs, after: Defs, values: seq<Node>, n: nat)
    requires n < |values| && CoversFirst(before, values, n) && before.Keys <= after.Keys && Covers(after, values[n])
    ensures CoversFirst(after, values, n + 1)
  {
    forall j | 0 <= j < n
      ensures Covers(after, values[j])
    {
      assert Covers(before, values[j]);
    }
  }

  lemma CoversWhole(names: Defs, n: Node)
    requires RefName(n).Some? ==> RefName(n).value in names
    requires CoversFirst(names, Values(n), |Values(n)|)
    ensures Covers(names, n)
  {
    forall name | Mentions(n, name)
      ensures name in names
    {
      MentionsInside(n, name);
      if RefName(n) != Some(name) {
        var v :| v in Values(n) && Mentions(v, name);
        assert Covers(names, v);
      }
    }
  }

  class Collector {
    const defs: Defs
    var into: Defs

    constructor (defs: Defs)
      ensures this.defs == defs && into == map[]
    {
      this.defs := defs;
      into := map[];
    }

    /** Collects what `node` reaches and is not collected yet; `false` when a definition that
        is referred to does not exist. */
    method Reached(node: Node) returns (ok: bool)
      requires into.Keys <= defs.Keys
      modifies this
      ensures into.Keys <= defs.Keys
      ensures ok ==> Explored(defs, node, old(into), into) && Covers(into, node)
      ensures !ok ==> Dangles(defs, node)
      ensures old(into).Keys <= into.Keys
      decreases |defs.Keys - into.Keys|, node, 1
    {
      match node
      case Obj(fields) =>
        var name := RefName(node);
        if name.Some? && name.value !in into {
          ok := Follow(node, name.value);
          if !ok {
            return;
          }
        }
        ok := Inside(node, old(into));
      case Arr(items) =>
        ok := Inside(node, into);
      case _ =>
        ok := true;
    }

    /** The loop over the values of a mapping or a list. */
    method Inside(whole: Node, ghost start: Defs) returns (ok: bool)
      requires into.Keys <= defs.Keys && (RefName(whole).Some? ==> RefName(whole).value in into) && Explored(defs, whole, start, into)
      modifies this
      ensures into.Keys <= defs.Keys && old(into).Keys <= into.Keys
      ensures ok ==> Explored(defs, whole, start, into) && Covers(into, whole)
      ensures !ok ==> Dangles(defs, whole)
      decreases |defs.Keys - into.Keys|, whole, 0
    {
      var values := Values(whole);
      var i := 0;
      while i < |values|
        invariant 0 <= i <= |values| && into.Keys <= defs.Keys && old(into).Keys <= into.Keys
        invariant Explored(defs, whole, start, into)
        invariant CoversFirst(into, values, i)
      {
        Shrinks(old(into).Keys, into.Keys);
        ghost var before := into;
        ok := One(whole, values[i], start);
        if !ok {
          return;
        }
        CoversNext(before, into, values, i);
        i := i + 1;
      }
      CoversWhole(into, whole);
      ok := true;
    }

    /** One value inside `whole`, after those before it. */
    method One(whole: Node, part: Node, ghost start: Defs) returns (ok: bool)
      requires into.Keys <= defs.Keys && part in Values(whole) && Explored(defs, whole, start, into)
      modifies this
      ensures into.Keys <= defs.Keys && old(into).Keys <= into.Keys
      ensures ok ==> Explored(defs, whole, start, into) && Covers(into, part)
      ensures !ok ==> Dangles(defs, whole)
      decreases |defs.Keys - into.Keys|, part, 2
    {
      Part(whole, part);
      ok := Reached(part);
      if ok {
        Compose(defs, whole, part, start, old(into), into);
      } else {
        DanglesFromPart(defs, part, whole);
      }
    }

    lemma Shrinks(a: set<string>, b: set<string>)
      requires a <= b
      ensures |defs.Keys - b| <= |defs.Keys - a|
    {
      SmallerSet(defs.Keys - b, defs.Keys - a);
    }

    /** A reference not followed yet: its definition is collected, then walked. */
    method Follow(node: Node, name: string) returns (ok: bool)
      requires into.Keys <= defs.Keys && RefName(node) == Some(name) && name !in into
      modifies this
      ensures into.Keys <= defs.Keys && old(into).Keys <= into.Keys
      ensures ok ==> Explored(defs, node, old(into), into) && name in into
      ensures |defs.Keys - into.Keys| <= |defs.Keys - old(into).Keys|
      ensures !ok ==> Dangles(defs, node)
      decreases |defs.Keys - into.Keys|, node, 0
    {
      MentionsInside(node, name);
      ReachesOwn(defs, node, name);
      if name !in defs {
        return false;
      }
      ghost var start := into;
      into := into[name := defs[name]];
      ghost var first := into;
      assert defs.Keys - first.Keys == (defs.Keys - start.Keys) - {name};
      ok := Reached(defs[name]);
      Shrinks(start.Keys, into.Keys);
      if !ok {
        ghost var lost :| Reaches(defs, defs[name], lost) && lost !in defs;
        ReachesThrough(defs, node, name, lost);
        return;
      }
      forall k | k in into.Keys - start.Keys
        ensures k in defs && into[k] == defs[k] && Covers(into, defs[k]) && Reaches(defs, node, k)
      {
        if k != name {
          ReachesThrough(defs, node, name, k);
        }
      }
    }
  }

  lemma Part(node: Node, part: Node)
    requires part in Values(node)
    ensures Within(part, node)
  {
    forall name | Mentions(part, name)
      ensures Mentions(node, name)
    {
      MentionsInside(node, name);
    }
  }

  lemma DanglesFromPart(defs: Defs, part: Node, node: Node)
    requires Within(part, node) && Dangles(defs, part)
    ensures Dangles(defs, node)
  {
    var name :| Reaches(defs, part, name) && name !in defs;
    ReachesFromPart(defs, part, node, name);
  }

  // ---- The whole reading ------------------------------------------------------------------

  /** `body` is the schema with its root reference inlined, `carried` its own `$defs`. */
  datatype InitData = InitData(body: Node, carried: Defs) | KeyError

  /** A set of collected definitions closed under references has everything a chain reaches. */
  lemma {:induction false} ChainStaysInside(defs: Defs, n: Node, nested: Defs, p: seq<string>)
    requires Chain(defs, n, p) && Covers(nested, n)
    requires forall k <- nested :: k in defs && Covers(nested, defs[k])
    ensures p[|p| - 1] in nested
    decreases |p|
  {
    if |p| > 1 {
      ChainStaysInside(defs, defs[p[0]], nested, p[1..]);
    }
  }

  /** Reads the init data's schema. It fails exactly when the root's definition, or one that it
      reaches, is missing; otherwise the definitions carried are exactly the names reachable
      from the schema, less the root's own. */
  method InitDataSchema(data: Node, defs: Defs) returns (r: InitData)
    ensures r.KeyError? <==>
              (RefName(data).Some? && RefName(data).value !in defs)
              || Dangles(defs, Body(data, defs))
    ensures r.InitData? ==>
              && r.body == Body(data, defs)
              && Carries(data, defs, r)
  {
    var rootName := RefName(data);
    if rootName.Some? && rootName.value !in defs {
      return KeyError;
    }
    var schema := if rootName.Some? then defs[rootName.value] else data;
    var collector := new Collector(defs);
    var ok := collector.Reached(schema);
    if !ok {
      return KeyError;
    }
    var nested := collector.into;
    forall name
      ensures name in nested <==> Reaches(defs, schema, name)
    {
      if Reaches(defs, schema, name) {
        var p :| Chain(defs, schema, p) && p[|p| - 1] == name;
        ChainStaysInside(defs, schema, nested, p);
      }
    }
    r := InitData(schema, if rootName.Some? then nested - {rootName.value} else nested);
  }

  /** The definitions carried are the reachable ones, unchanged, less the root's own. */
  ghost predicate Carries(data: Node, defs: Defs, r: InitData)
    requires r.InitData?
  {
    && (forall name :: name in r.carried <==> Reaches(defs, r.body, name) && Some(name) != RefName(data))
    && (forall name <- r.carried :: name in defs && r.carried[name] == defs[name])
  }

  ghost function Body(data: Node, defs: Defs): Node {
    var rootName := RefName(data);
    if rootName.Some? && rootName.value in defs then defs[rootName.value] else data
  }

  /** Every reference of the result, at any depth of the schema or of a carried definition. */
  ghost predicate RefersTo(r: InitData, name: string)
    requires r.InitData?
  {
    Mentions(r.body, name) || exists k :: k in r.carried && Mentions(r.carried[k], name)
  }

  /** The result is self-contained, every reference in it resolving among what it carries, if
      and only if the schema does not reach its own root: a recursive init-data model keeps a
      reference to a root that is not carried. */
  lemma SelfContainedIff(data: Node, defs: Defs, r: InitData)
    requires r.InitData? && r.body == Body(data, defs) && !Dangles(defs, r.body)
    requires Carries(data, defs, r)
    ensures forall name :: RefersTo(r, name) && Some(name) != RefName(data) ==> name in r.carried
    ensures (forall name :: RefersTo(r, name) ==> name in r.carried)
            <==> (RefName(data).None? || !Reaches(defs, r.body, RefName(data).value))
  {
    forall name | RefersTo(r, name)
      ensures Reaches(defs, r.body, name)
    {
      if Mentions(r.body, name) {
        ReachesOwn(defs, r.body, name);
      } else {
        var k :| k in r.carried && Mentions(r.carried[k], name);
        Onward(defs, r.body, k, name);
      }
    }
    if RefName(data).Some? && Reaches(defs, r.body, RefName(data).value) {
      RootIsReferred(data, defs, r);
    }
  }

  /** The smallest such model: a linked list of `name`s, whose link refers to the list itself. */
  lemma RecursiveModelKeepsItsRootReference(name: string, link: string, r: InitData)
    requires link != "$ref"
    requires r.InitData?
    requires var defs := map[name := ListOf(name, link)]; r.body == defs[name] && Carries(RefTo(name), defs, r)
    ensures RefersTo(r, name) && name !in r.carried
  {
    var node := ListOf(name, link);
    RefToNames(name);
    RefNameIff(RefTo(name), name);
    assert node.fields[0].value == RefTo(name);
    assert Mentions(node, name);
  }

  function RefTo(name: string): Node {
    Obj([Field("$ref", Str(PREFIX + name))])
  }

  function ListOf(name: string, link: string): Node {
    Obj([Field(link, RefTo(name))])
  }

  lemma RefToNames(name: string)
    ensures RefName(RefTo(name)) == Some(name)
  {
    var fields := RefTo(name).fields;
    assert fields[0].key == "$ref";
    assert (PREFIX + name)[|PREFIX|..] == name;
  }

  /** One more reference at the end of a chain. */
  lemma Onward(defs: Defs, n: Node, via: string, name: string)
    requires Reaches(defs, n, via) && via in defs && Mentions(defs[via], name)
    ensures Reaches(defs, n, name)
  {
    var p :| Chain(defs, n, p) && p[|p| - 1] == via;
    ExtendChain(defs, n, p, name);
    assert (p + [name])[|p|] == name;
  }

  lemma {:induction false} ExtendChain(defs: Defs, n: Node, p: seq<string>, name: string)
    requires Chain(defs, n, p) && p[|p| - 1] in defs && Mentions(defs[p[|p| - 1]], name)
    ensures Chain(defs, n, p + [name])
    decreases |p|
  {
    if |p| == 1 {
      assert (p + [name])[1..] == [name];
      assert Chain(defs, defs[p[0]], [name]);
    } else {
      ExtendChain(defs, defs[p[0]], p[1..], name);
      assert (p + [name])[1..] == p[1..] + [name];
    }
  }

  /** A reachable root is referred to from within the result itself: the first reference to
      it on a chain comes from the schema or from a carried definition. */
  lemma RootIsReferred(data: Node, defs: Defs, r: InitData)
    requires r.InitData? && r.body == Body(data, defs) && RefName(data).Some?
    requires Carries(data, defs, r)
    requires Reaches(defs, r.body, RefName(data).value)
    ensures RefersTo(r, RefName(data).value)
  {
    var root := RefName(data).value;
    ClosesOver(data, defs, r);
    var p :| Chain(defs, r.body, p) && p[|p| - 1] == root;
    FirstArrival(defs, r, root, r.body, p, None);
  }

  /** Whatever the result refers to it carries, but for the root. */
  ghost predicate ClosedBut(defs: Defs, r: InitData, root: string)
    requires r.InitData?
  {
    && (forall name :: Mentions(r.body, name) && name != root ==> name in r.carried)
    && (forall k <- r.carried, name :: Mentions(r.carried[k], name) && name != root ==> name in r.carried)
    && (forall k <- r.carried :: k in defs && r.carried[k] == defs[k])
  }

  lemma ClosesOver(data: Node, defs: Defs, r: InitData)
    requires r.InitData? && RefName(data).Some? && Carries(data, defs, r)
    ensures ClosedBut(defs, r, RefName(data).value)
  {
    forall name | Mentions(r.body, name)
      ensures Reaches(defs, r.body, name)
    {
      ReachesOwn(defs, r.body, name);
    }
    forall k, name | k in r.carried && Mentions(r.carried[k], name)
      ensures Reaches(defs, r.body, name)
    {
      Onward(defs, r.body, k, name);
    }
  }

  lemma {:induction false} FirstArrival(defs: Defs, r: InitData, root: string, n: Node, p: seq<string>, at: Option<string>)
    requires r.InitData? && Chain(defs, n, p) && p[|p| - 1] == root
    requires ClosedBut(defs, r, root) && From(r, at, n)
    ensures RefersTo(r, root)
    decreases |p|
  {
    if p[0] == root {
      ArrivesAtOnce(r, n, at, root);
    } else {
      ChainOnward(defs, n, p);
      FirstArrival(defs, r, root, defs[p[0]], p[1..], Some(p[0]));
    }
  }

  lemma ArrivesAtOnce(r: InitData, n: Node, at: Option<string>, name: string)
    requires r.InitData? && From(r, at, n) && Mentions(n, name)
    ensures RefersTo(r, name)
  {
  }

  lemma ChainOnward(defs: Defs, n: Node, p: seq<string>)
    requires Chain(defs, n, p) && p[0] != p[|p| - 1]
    ensures |p| > 1 && p[0] in defs && Chain(defs, defs[p[0]], p[1..]) && p[1..][|p| - 2] == p[|p| - 1]
  {
  }

  /** `n` is the result's schema, or the definition it carries under a name. */
  ghost predicate From(r: InitData, at: Option<string>, n: Node)
    requires r.InitData?
  {
    if at.None? then n == r.body else at.value in r.carried && n == r.carried[at.value]
  }
}
