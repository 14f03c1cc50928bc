/** Merging the OpenAPI documents of all services into one, with every schema reference namespaced by its service. */
module ApiDocs {
  import opened Wrappers
  import opened Json
  import opened Strings

  const SCHEMA_PREFIX := "#/components/schemas/"

  /** A service's document: its component schemas and its path items. */
  datatype ServiceSpec = ServiceSpec(schemas: map<string, Json>, paths: map<string, map<string, Json>>)

  datatype Tag = Tag(name: string, description: string)

  /** The merged document, without its constant header. */
  datatype Merged = Merged(tags: seq<Tag>, schemas: map<string, Json>, paths: map<string, map<string, Json>>)

  // ---------------------------------------------------------------- references

  predicate IsSchemaRef(key: string, value: Json) {
    key == "$ref" && value.Str? && SCHEMA_PREFIX <= value.text
  }

  function RefName(value: Json): string
    requires value.Str? && SCHEMA_PREFIX <= value.text
  {
    value.text[|SCHEMA_PREFIX|..]
  }

  function Prefixed(service: string, name: string): string {
    service + "." + name
  }

  /** Rewrite every local schema reference to its namespaced name. */
  function NamespaceRefs(j: Json, service: string): Json
    decreases j
  {
    match j
    case Obj(m) =>
      Obj(map k | k in m :: if IsSchemaRef(k, m[k]) then Str(SCHEMA_PREFIX + Prefixed(service, RefName(m[k])))
                            else NamespaceRefs(m[k], service))
    case Arr(items) => Arr(seq(|items|, i requires 0 <= i < |items| => NamespaceRefs(items[i], service)))
    case _ => j
  }

  /** Every schema reference inside j names a schema in `names`. */
  predicate RefsIn(j: Json, names: set<string>)
    decreases j
  {
    match j
    case Obj(m) => forall k :: k in m ==> if IsSchemaRef(k, m[k]) then RefName(m[k]) in names else RefsIn(m[k], names)
    case Arr(items) => forall i :: 0 <= i < |items| ==> RefsIn(items[i], names)
    case _ => true
  }

  // ---------------------------------------------------------------- the merge

  function ServiceUrl(port: nat, show: Json -> string): string {
    "http://127.0.0.1:" + show(Num(port))
  }

  function TagFor(name: string, port: nat, show: Json -> string): Tag {
    Tag(name, ServiceUrl(port, show) + " · " + show(Num(port)))
  }

  /** An operation gets its service as its only tag, and its id is prefixed. */
  function EditOperation(op: map<string, Json>, service: string, show: Json -> string): map<string, Json> {
    var tagged := op["tags" := Arr([Str(service)])];
    if "operationId" in tagged then tagged["operationId" := Str(service + "_" + Shown(tagged["operationId"], show))]
      else tagged
  }

  /** A value inside an f-string. */
  function Shown(j: Json, show: Json -> string): string {
    if j.Str? then j.text else show(j)
  }

  predicate IsOperation(key: string, value: Json) {
    key !in {"servers", "parameters", "summary", "description"} && value.Obj?
  }

  function WithServer(item: map<string, Json>, service: string, url: string): map<string, Json> {
    NamespaceRefs(Obj(item), service).fields["servers" := Arr([Obj(map["url" := Str(url)])])]
  }

  function EntryFor(item: map<string, Json>, service: string, url: string, show: Json -> string): map<string, Json> {
    var e := WithServer(item, service, url);
    map k | k in e :: if IsOperation(k, e[k]) then Obj(EditOperation(e[k].fields, service, show)) else e[k]
  }

  const PLUMBING_PATHS: set<string> := {"/health", "/ready"}

  lemma PrefixedIsInjective(service: string, a: string, b: string)
    requires Prefixed(service, a) == Prefixed(service, b)
    ensures a == b
  {
    assert Prefixed(service, a)[|service| + 1..] == a && Prefixed(service, b)[|service| + 1..] == b;
  }

  function NamespacedSchemas(schemas: map<string, Json>, service: string): map<string, Json> {
    assert forall a, b :: Prefixed(service, a) == Prefixed(service, b) ==> a == b by {
      forall a, b | Prefixed(service, a) == Prefixed(service, b) ensures a == b { PrefixedIsInjective(service, a, b); }
    }
    map x | x in schemas :: Prefixed(service, x) := NamespaceRefs(schemas[x], service)
  }

  function NamespacedPaths(paths: map<string, map<string, Json>>, service: string, url: string, show: Json -> string)
    : map<string, map<string, Json>>
  {
    map p | p in paths && p !in PLUMBING_PATHS :: EntryFor(paths[p], service, url, show)
  }

  /** Services are added in sorted order; where two serve one path the later one stays. */
  function MergeOf(order: seq<string>, specs: map<string, ServiceSpec>, ports: map<string, nat>,
                   show: Json -> string): Merged
    requires forall n :: n in order ==> n in specs && n in ports
  {
    if order == [] then Merged([], map[], map[])
    else
      var n := order[|order| - 1];
      var m := MergeOf(order[..|order| - 1], specs, ports, show);
      Merged(m.tags + [TagFor(n, ports[n], show)], m.schemas + NamespacedSchemas(specs[n].schemas, n),
             m.paths + NamespacedPaths(specs[n].paths, n, ServiceUrl(ports[n], show), show))
  }

  lemma OwnLookup(schemas: map<string, Json>, s: string, x: string)
    requires x in schemas
    ensures Prefixed(s, x) in NamespacedSchemas(schemas, s)
    ensures NamespacedSchemas(schemas, s)[Prefixed(s, x)] == NamespaceRefs(schemas[x], s)
  {
    var m := NamespacedSchemas(schemas, s);
    assert Prefixed(s, x) in m;
    var y :| y in schemas && Prefixed(s, y) == Prefixed(s, x) && m[Prefixed(s, x)] == NamespaceRefs(schemas[y], s);
    PrefixedIsInjective(s, x, y);
  }

  lemma OneMoreName(schemas: map<string, Json>, x: string, schema: Json, service: string, k: string)
    ensures k in NamespacedSchemas(schemas[x := schema], service)
      <==> k in NamespacedSchemas(schemas, service) || k == Prefixed(service, x)
  {
    var more := schemas[x := schema];
    if k in NamespacedSchemas(schemas, service) {
      var y :| y in schemas && Prefixed(service, y) == k;
      assert y in more;
    }
    if k in NamespacedSchemas(more, service) {
      var y :| y in more && Prefixed(service, y) == k;
      assert y == x || y in schemas;
    }
    assert x in more;
  }

  lemma OneMoreValue(schemas: map<string, Json>, x: string, schema: Json, service: string, k: string)
    requires k in NamespacedSchemas(schemas[x := schema], service)
    ensures k != Prefixed(service, x) ==> k in NamespacedSchemas(schemas, service)
    ensures NamespacedSchemas(schemas[x := schema], service)[k]
         == if k == Prefixed(service, x) then NamespaceRefs(schema, service) else NamespacedSchemas(schemas, service)[k]
  {
    var more := schemas[x := schema];
    var y :| y in more && Prefixed(service, y) == k;
    OwnLookup(more, service, y);
    if k == Prefixed(service, x) {
      PrefixedIsInjective(service, x, y);
    } else {
      OwnLookup(schemas, service, y);
    }
  }

  /** Adding one more schema to the merged ones. */
  lemma OneMoreSchema(into: map<string, Json>, schemas: map<string, Json>, x: string, schema: Json, service: string)
    ensures into + NamespacedSchemas(schemas[x := schema], service)
         == (into + NamespacedSchemas(schemas, service))[Prefixed(service, x) := NamespaceRefs(schema, service)]
  {
    var before, after := NamespacedSchemas(schemas, service), NamespacedSchemas(schemas[x := schema], service);
    var key, value := Prefixed(service, x), NamespaceRefs(schema, service);
    forall k ensures k in after <==> k in before || k == key { OneMoreName(schemas, x, schema, service, k); }
    forall k | k in after
      ensures after[k] == if k == key then value else before[k]
    {
      OneMoreValue(schemas, x, schema, service, k);
    }
    ExtendBoth(into, before, after, key, value);
  }

  lemma ExtendBoth<K, V>(into: map<K, V>, before: map<K, V>, after: map<K, V>, key: K, value: V)
    requires forall k :: k in after <==> k in before || k == key
    requires forall k :: k in after ==> after[k] == if k == key then value else before[k]
    ensures into + after == (into + before)[key := value]
  {
  }

  lemma PutBack<K, V>(m: map<K, V>, left: set<K>, x: K)
    requires x in left && x in m
    ensures (m - left)[x := m[x]] == m - (left - {x})
  {
  }

  method MergeSchemas(into: map<string, Json>, schemas: map<string, Json>, service: string)
    returns (r: map<string, Json>)
    ensures r == into + NamespacedSchemas(schemas, service)
  {
    r := into;
    var left := schemas.Keys;
    while left != {}
      invariant left <= schemas.Keys
      invariant r == into + NamespacedSchemas(schemas - left, service)
      decreases left
    {
      var x :| x in left;
      var schema := schemas[x];
      OneMoreSchema(into, schemas - left, x, schema, service);
      PutBack(schemas, left, x);
      r := r[Prefixed(service, x) := NamespaceRefs(schema, service)];
      left := left - {x};
    }
    assert schemas - {} == schemas;
  }

  method EditOperations(entry: map<string, Json>, service: string, show: Json -> string) returns (r: map<string, Json>)
    ensures r == map k | k in entry :: if IsOperation(k, entry[k]) then
      Obj(EditOperation(entry[k].fields, service, show)) else entry[k]
  {
    r := entry;
    var left := entry.Keys;
    while left != {}
      invariant left <= entry.Keys && r.Keys == entry.Keys
      invariant forall k :: k in entry ==>
        r[k] == if k !in left && IsOperation(k, entry[k]) then Obj(EditOperation(entry[k].fields, service, show))
          else entry[k]
      decreases left
    {
      var k :| k in left;
      if IsOperation(k, r[k]) {
        var operation := r[k].fields;
        operation := operation["tags" := Arr([Str(service)])];
        if "operationId" in operation {
          operation := operation["operationId" := Str(service + "_" + Shown(operation["operationId"], show))];
        }
        r := r[k := Obj(operation)];
      }
      left := left - {k};
    }
  }

  lemma TakeOne<K, V>(into: map<K, V>, added: map<K, V>, left: set<K>, p: K)
    requires p in left
    ensures into + (added - (left - {p})) == if p in added then (into + (added - left))[p := added[p]]
      else into + (added - left)
  {
    if p in added {
      assert added - (left - {p}) == (added - left)[p := added[p]];
    } else {
      assert added - (left - {p}) == added - left;
    }
  }

  method EditPath(item: map<string, Json>, service: string, url: string, show: Json -> string)
    returns (entry: map<string, Json>)
    ensures entry == EntryFor(item, service, url, show)
  {
    entry := NamespaceRefs(Obj(item), service).fields;
    entry := entry["servers" := Arr([Obj(map["url" := Str(url)])])];
    entry := EditOperations(entry, service, show);
  }

  method MergePaths(into: map<string, map<string, Json>>, paths: map<string, map<string, Json>>, service: string,
                    url: string,
                    show: Json -> string) returns (r: map<string, map<string, Json>>)
    ensures r == into + NamespacedPaths(paths, service, url, show)
  {
    r := into;
    var left := paths.Keys;
    ghost var added := NamespacedPaths(paths, service, url, show);
    while left != {}
      invariant left <= paths.Keys
      invariant r == into + (added - left)
      decreases left
    {
      var p :| p in left;
      if p !in PLUMBING_PATHS {
        var entry := EditPath(paths[p], service, url, show);
        r := r[p := entry];
      }
      TakeOne(into, added, left, p);
      left := left - {p};
    }
    assert added - {} == added;
  }

  method Merge(order: seq<string>, specs: map<string, ServiceSpec>, ports: map<string, nat>, show: Json -> string)
    returns (merged: Merged)
    requires forall n :: n in order ==> n in specs && n in ports
    ensures merged == MergeOf(order, specs, ports, show)
  {
    merged := Merged([], map[], map[]);
    for i := 0 to |order|
      invariant merged == MergeOf(order[..i], specs, ports, show)
    {
      assert order[..i + 1][..i] == order[..i];
      var name := order[i];
      var schemas := MergeSchemas(merged.schemas, specs[name].schemas, name);
      var paths := MergePaths(merged.paths, specs[name].paths, name, ServiceUrl(ports[name], show), show);
      merged := Merged(merged.tags + [TagFor(name, ports[name], show)], schemas, paths);
    }
    assert order[..|order|] == order;
  }

  // ---------------------------------------------------------------- who owns a merged name

  /** Neither name with its dot starts the other with its. */
  predicate Apart(s: string, t: string) {
    !(s + "." <= t + ".") && !(t + "." <= s + ".")
  }

  lemma CompletedBy(a: string, b: string)
    requires a <= b
    ensures a + b[|a|..] == b + ""
  {
  }

  /** Some schema of the one service and some schema of the other get one merged name. */
  ghost predicate NamesCollide(s: string, t: string) {
    exists x, y :: Prefixed(s, x) == Prefixed(t, y)
  }

  /** Two services can collide exactly when one name with its dot starts the other with its. */
  lemma NamesCollideExactly(s: string, t: string)
    ensures NamesCollide(s, t) <==> !Apart(s, t)
  {
    var a, b := s + ".", t + ".";
    forall x, y | Prefixed(s, x) == Prefixed(t, y) ensures !Apart(s, t) {
      PrefixesOfOne(a, x, b, y);
    }
    if a <= b {
      CompletedBy(a, b);
      assert Prefixed(s, b[|a|..]) == Prefixed(t, "");
    } else if b <= a {
      CompletedBy(b, a);
      assert Prefixed(s, "") == Prefixed(t, a[|b|..]);
    }
  }

  predicate DotFree(s: string) {
    forall i :: 0 <= i < |s| ==> s[i] != '.'
  }

  lemma DotFreeStart(s: string, t: string)
    requires DotFree(t) && s + "." <= t + "."
    ensures s == t
  {
    assert (t + ".")[|s|] == '.';
    assert (t + ".")[..|s|] == s;
  }

  /** Dot-free names are apart unless they are the same. */
  lemma DotFreeNamesKeepApart(s: string, t: string)
    requires DotFree(s) && DotFree(t)
    ensures Apart(s, t) <==> s != t
  {
    if s + "." <= t + "." {
      DotFreeStart(s, t);
    } else if t + "." <= s + "." {
      DotFreeStart(t, s);
    }
  }

  /** With services apart a merged name says which service and which schema it stands for. */
  lemma PrefixedDetermines(s: string, x: string, t: string, y: string)
    requires (s == t || Apart(s, t)) && Prefixed(s, x) == Prefixed(t, y)
    ensures s == t && x == y
  {
    if s == t {
      PrefixedIsInjective(s, x, y);
    } else {
      assert NamesCollide(s, t);
      NamesCollideExactly(s, t);
    }
  }

  /** Every service is known, and no two of them can collide. */
  ghost predicate Mergeable(order: seq<string>, specs: map<string, ServiceSpec>, ports: map<string, nat>) {
    && (forall n :: n in order ==> n in specs && n in ports)
    && (forall i, j :: 0 <= i < j < |order| ==> Apart(order[i], order[j]))
  }

  lemma NamespacedLookup(schemas: map<string, Json>, t: string, s: string, x: string)
    requires s == t || Apart(s, t)
    ensures Prefixed(s, x) in NamespacedSchemas(schemas, t) <==> s == t && x in schemas
    ensures s == t && x in schemas ==> NamespacedSchemas(schemas, t)[Prefixed(s, x)] == NamespaceRefs(schemas[x], s)
  {
    if Prefixed(s, x) in NamespacedSchemas(schemas, t) {
      var y :| y in schemas && Prefixed(t, y) == Prefixed(s, x);
      PrefixedDetermines(s, x, t, y);
    }
    if s == t && x in schemas {
      OwnLookup(schemas, s, x);
    }
  }

  /** The merged document holds each service's schemas under that service's names, and nothing else under them. */
  lemma {:induction false} MergedLookup(order: seq<string>, specs: map<string, ServiceSpec>, ports: map<string, nat>,
                                        show: Json -> string, s: string, x: string)
    requires Mergeable(order, specs, ports) && s in specs && forall n :: n in order ==> n == s || Apart(s, n)
    ensures var m := MergeOf(order, specs, ports, show);
      && (Prefixed(s, x) in m.schemas <==> s in order && x in specs[s].schemas)
      && (s in order && x in specs[s].schemas ==> m.schemas[Prefixed(s, x)] == NamespaceRefs(specs[s].schemas[x], s))
  {
    if order != [] {
      var init, n := order[..|order| - 1], order[|order| - 1];
      assert order == init + [n];
      MergedLookup(init, specs, ports, show, s, x);
      NamespacedLookup(specs[n].schemas, n, s, x);
    }
  }

  // ---------------------------------------------------------------- references resolve

  /** Namespacing moves every reference to exactly one prefixed name, that of its own schema. */
  lemma {:induction false} NamespacedRefs(j: Json, service: string, names: set<string>)
    ensures RefsIn(NamespaceRefs(j, service), set x | x in names :: Prefixed(service, x)) <==> RefsIn(j, names)
    decreases j
  {
    var target := set x | x in names :: Prefixed(service, x);
    match j
    case Obj(m) =>
      var n := NamespaceRefs(j, service).fields;
      forall k | k in m
        ensures (if IsSchemaRef(k, n[k]) then RefName(n[k]) in target else RefsIn(n[k], target)) <==>
                (if IsSchemaRef(k, m[k]) then RefName(m[k]) in names else RefsIn(m[k], names))
      {
        if IsSchemaRef(k, m[k]) {
          NamespacedRefName(m[k], service);
          RefMembership(service, RefName(m[k]), names);
        } else {
          NamespacedStaysNoRef(k, m[k], service);
          NamespacedRefs(m[k], service, names);
        }
      }
    case Arr(items) =>
      forall i | 0 <= i < |items|
        ensures RefsIn(NamespaceRefs(items[i], service), target) <==> RefsIn(items[i], names)
      {
        NamespacedRefs(items[i], service, names);
      }
      var n := NamespaceRefs(j, service).items;
      assert forall i :: 0 <= i < |items| ==> n[i] == NamespaceRefs(items[i], service);
      assert RefsIn(Arr(n), target) <==> forall i :: 0 <= i < |n| ==> RefsIn(n[i], target);
    case _ =>
  }

  lemma NamespacedRefName(value: Json, service: string)
    requires value.Str? && SCHEMA_PREFIX <= value.text
    ensures var r := Str(SCHEMA_PREFIX + Prefixed(service, RefName(value)));
      IsSchemaRef("$ref", r) && RefName(r) == Prefixed(service, RefName(value))
  {
  }

  lemma RefMembership(service: string, name: string, names: set<string>)
    ensures Prefixed(service, name) in (set x | x in names :: Prefixed(service, x)) <==> name in names
  {
    if Prefixed(service, name) in (set x | x in names :: Prefixed(service, x)) {
      var x :| x in names && Prefixed(service, x) == Prefixed(service, name);
      PrefixedIsInjective(service, x, name);
    }
  }

  lemma NamespacedStaysNoRef(key: string, value: Json, service: string)
    requires !IsSchemaRef(key, value)
    ensures !IsSchemaRef(key, NamespaceRefs(value, service))
  {
  }

  // ---------------------------------------------------------------- meaning

  /** A schema with its references followed to a depth; what lies deeper is cut, what does not resolve dangles. */
  datatype Tree =
    | Atom(value: Json) | Items(items: seq<Tree>) | Fields(fields: map<string, Tree>)
    | Cut(name: string) | Dangling(missing: string)

  function Unfold(schemas: map<string, Json>, j: Json, depth: nat): Tree
    decreases depth, j
  {
    match j
    case Obj(m) =>
      Fields(map k | k in m ::
        if IsSchemaRef(k, m[k]) then
          var name := RefName(m[k]);
          if name !in schemas then Dangling(name)
          else if depth == 0 then Cut(name)
          else Unfold(schemas, schemas[name], depth - 1)
        else Unfold(schemas, m[k], depth))
    case Arr(items) => Items(seq(|items|, i requires 0 <= i < |items| => Unfold(schemas, items[i], depth)))
    case _ => Atom(j)
  }

  function Unprefixed(service: string, name: string): string {
    if service + "." <= name then name[|service| + 1..] else name
  }

  /** The tree with the service's prefix taken off the names at its frontier. */
  function Erase(t: Tree, service: string): Tree
    decreases t
  {
    match t
    case Atom(_) => t
    case Items(items) => Items(seq(|items|, i requires 0 <= i < |items| => Erase(items[i], service)))
    case Fields(m) => Fields(map k | k in m :: Erase(m[k], service))
    case Cut(name) => Cut(Unprefixed(service, name))
    case Dangling(name) => Dangling(Unprefixed(service, name))
  }

  /** One document's schemas stand in another under a prefix, and nothing else does. */
  ghost predicate Embeds(schemas: map<string, Json>, service: string, merged: map<string, Json>) {
    forall x :: (Prefixed(service, x) in merged <==> x in schemas)
      && (x in schemas ==> merged[Prefixed(service, x)] == NamespaceRefs(schemas[x], service))
  }

  /** What an object's field unfolds to. */
  function UnfoldField(schemas: map<string, Json>, key: string, value: Json, depth: nat): Tree {
    if IsSchemaRef(key, value) then UnfoldName(schemas, RefName(value), depth) else Unfold(schemas, value, depth)
  }

  function UnfoldName(schemas: map<string, Json>, name: string, depth: nat): Tree {
    if name !in schemas then Dangling(name)
    else if depth == 0 then Cut(name)
    else Unfold(schemas, schemas[name], depth - 1)
  }

  lemma UnfoldObj(schemas: map<string, Json>, m: map<string, Json>, depth: nat)
    ensures Unfold(schemas, Obj(m), depth) == Fields(map k | k in m :: UnfoldField(schemas, k, m[k], depth))
  {
    var a := Unfold(schemas, Obj(m), depth).fields;
    assert a == map k | k in m :: UnfoldField(schemas, k, m[k], depth);
  }

  lemma UnfoldingOfAnObject(schemas: map<string, Json>, service: string, merged: map<string, Json>,
                            m: map<string, Json>, depth: nat)
    requires forall k :: k in m ==>
      Erase(UnfoldField(merged, k, NamespaceRefs(Obj(m), service).fields[k], depth), service) ==
        UnfoldField(schemas, k, m[k], depth)
    ensures Erase(Unfold(merged, NamespaceRefs(Obj(m), service), depth), service) == Unfold(schemas, Obj(m), depth)
  {
    var n := NamespaceRefs(Obj(m), service).fields;
    UnfoldObj(merged, n, depth);
    UnfoldObj(schemas, m, depth);
    var a, b := Unfold(merged, Obj(n), depth), Unfold(schemas, Obj(m), depth);
    var e := Erase(a, service);
    assert e.fields == b.fields;
  }

  lemma UnfoldingOfAReference(schemas: map<string, Json>, service: string, merged: map<string, Json>, value: Json,
                              depth: nat)
    requires Embeds(schemas, service, merged) && IsSchemaRef("$ref", value)
    requires var x := RefName(value);
      x in schemas && depth > 0 ==>
        Erase(Unfold(merged, NamespaceRefs(schemas[x], service), depth - 1), service) ==
          Unfold(schemas, schemas[x], depth - 1)
    ensures Erase(UnfoldName(merged, Prefixed(service, RefName(value)), depth), service) ==
      UnfoldName(schemas, RefName(value), depth)
  {
    var x := RefName(value);
    assert Prefixed(service, x) in merged <==> x in schemas;
    assert Unprefixed(service, Prefixed(service, x)) == x;
  }

  lemma UnfoldingOfAList(schemas: map<string, Json>, service: string, merged: map<string, Json>, items: seq<Json>,
                         depth: nat)
    requires forall i :: 0 <= i < |items| ==>
      Erase(Unfold(merged, NamespaceRefs(items[i], service), depth), service) == Unfold(schemas, items[i], depth)
    ensures Erase(Unfold(merged, NamespaceRefs(Arr(items), service), depth), service) ==
      Unfold(schemas, Arr(items), depth)
  {
    var n := NamespaceRefs(Arr(items), service).items;
    assert forall i :: 0 <= i < |items| ==> n[i] == NamespaceRefs(items[i], service);
    var a, b := Unfold(merged, Arr(n), depth), Unfold(schemas, Arr(items), depth);
    assert Erase(a, service).items == b.items;
  }

  lemma {:induction false} UnfoldingIsKept(schemas: map<string, Json>, service: string, merged: map<string, Json>,
                                           j: Json, depth: nat)
    requires Embeds(schemas, service, merged)
    ensures Erase(Unfold(merged, NamespaceRefs(j, service), depth), service) == Unfold(schemas, j, depth)
    decreases depth, j, 0
  {
    match j
    case Obj(m) =>
      forall k | k in m
        ensures Erase(UnfoldField(merged, k, NamespacedField(k, m[k], service), depth), service) ==
          UnfoldField(schemas, k, m[k], depth)
      {
        FieldIsKept(schemas, service, merged, k, m[k], depth);
      }
      NamespacedFields(m, service);
      UnfoldingOfAnObject(schemas, service, merged, m, depth);
    case Arr(items) =>
      forall i | 0 <= i < |items|
        ensures Erase(Unfold(merged, NamespaceRefs(items[i], service), depth), service) ==
          Unfold(schemas, items[i], depth)
      {
        UnfoldingIsKept(schemas, service, merged, items[i], depth);
      }
      UnfoldingOfAList(schemas, service, merged, items, depth);
    case _ =>
  }

  /** An object's field with its reference moved, or the references inside it. */
  function NamespacedField(key: string, value: Json, service: string): Json {
    if IsSchemaRef(key, value) then Str(SCHEMA_PREFIX + Prefixed(service, RefName(value)))
    else NamespaceRefs(value, service)
  }

  lemma NamespacedFields(m: map<string, Json>, service: string)
    ensures forall k :: k in m ==> NamespaceRefs(Obj(m), service).fields[k] == NamespacedField(k, m[k], service)
  {
  }

  lemma {:induction false} FieldIsKept(schemas: map<string, Json>, service: string, merged: map<string, Json>,
                                       key: string, value: Json, depth: nat)
    requires Embeds(schemas, service, merged)
    ensures Erase(UnfoldField(merged, key, NamespacedField(key, value, service), depth), service) ==
      UnfoldField(schemas, key, value, depth)
    decreases depth, value, 1
  {
    if IsSchemaRef(key, value) {
      var x := RefName(value);
      if x in schemas && depth > 0 {
        UnfoldingIsKept(schemas, service, merged, schemas[x], depth - 1);
      }
      NamespacedRefName(value, service);
      UnfoldingOfAReference(schemas, service, merged, value, depth);
    } else {
      NamespacedStaysNoRef(key, value, service);
      UnfoldingIsKept(schemas, service, merged, value, depth);
    }
  }

  /**
   The merge preserves meaning: whatever a service's document says, unfolding its namespaced form in the merged
   document to any depth and taking the prefix off again gives the unfolding in the service's own document.
   */
  lemma MergePreservesMeaning(order: seq<string>, specs: map<string, ServiceSpec>, ports: map<string, nat>,
                              show: Json -> string, s: string, j: Json, depth: nat)
    requires Mergeable(order, specs, ports) && s in order
    ensures Erase(Unfold(MergeOf(order, specs, ports, show).schemas, NamespaceRefs(j, s), depth), s) ==
      Unfold(specs[s].schemas, j, depth)
  {
    forall x ensures var m := MergeOf(order, specs, ports, show).schemas;
      (Prefixed(s, x) in m <==> x in specs[s].schemas)
      && (x in specs[s].schemas ==> m[Prefixed(s, x)] == NamespaceRefs(specs[s].schemas[x], s))
    {
      MergedLookup(order, specs, ports, show, s, x);
    }
    UnfoldingIsKept(specs[s].schemas, s, MergeOf(order, specs, ports, show).schemas, j, depth);
  }

  /** A reference resolves in the merged document exactly when it resolved in its own service's. */
  lemma MergeResolves(order: seq<string>, specs: map<string, ServiceSpec>, ports: map<string, nat>,
                      show: Json -> string,
                      s: string, j: Json)
    requires Mergeable(order, specs, ports) && s in order
    ensures RefsIn(NamespaceRefs(j, s), MergeOf(order, specs, ports, show).schemas.Keys) <==>
      RefsIn(j, specs[s].schemas.Keys)
  {
    var own := specs[s].schemas.Keys;
    var target := set x | x in own :: Prefixed(s, x);
    NamespacedRefs(j, s, own);
    forall x ensures Prefixed(s, x) in MergeOf(order, specs, ports, show).schemas <==> Prefixed(s, x) in target {
      MergedLookup(order, specs, ports, show, s, x);
      RefMembership(s, x, own);
    }
    OwnNamesDecide(j, s, MergeOf(order, specs, ports, show).schemas.Keys, target);
  }

  /** Namespaced references only ever name prefixed schemas, so only those matter. */
  lemma {:induction false} OwnNamesDecide(j: Json, service: string, a: set<string>, b: set<string>)
    requires forall x :: Prefixed(service, x) in a <==> Prefixed(service, x) in b
    ensures RefsIn(NamespaceRefs(j, service), a) <==> RefsIn(NamespaceRefs(j, service), b)
    decreases j
  {
    match j
    case Obj(m) =>
      var n := NamespaceRefs(j, service).fields;
      forall k | k in m
        ensures (if IsSchemaRef(k, n[k]) then RefName(n[k]) in a else RefsIn(n[k], a)) <==>
                (if IsSchemaRef(k, n[k]) then RefName(n[k]) in b else RefsIn(n[k], b))
      {
        if IsSchemaRef(k, m[k]) {
          NamespacedRefName(m[k], service);
        } else {
          NamespacedStaysNoRef(k, m[k], service);
          OwnNamesDecide(m[k], service, a, b);
        }
      }
    case Arr(items) =>
      forall i | 0 <= i < |items|
        ensures RefsIn(NamespaceRefs(items[i], service), a) <==> RefsIn(NamespaceRefs(items[i], service), b)
      {
        OwnNamesDecide(items[i], service, a, b);
      }
      assert NamespaceRefs(j, service).items ==
        seq(|items|, i requires 0 <= i < |items| => NamespaceRefs(items[i], service));
    case _ =>
  }

  /** Every merged schema is some service's own, namespaced. */
  lemma {:induction false} MergedSchemaOrigin(order: seq<string>, specs: map<string, ServiceSpec>,
                                              ports: map<string, nat>,
                                              show: Json -> string, k: string)
    returns (s: string, x: string)
    requires forall n :: n in order ==> n in specs && n in ports
    requires k in MergeOf(order, specs, ports, show).schemas
    ensures s in order && x in specs[s].schemas && k == Prefixed(s, x)
  {
    var init, n := order[..|order| - 1], order[|order| - 1];
    if k in NamespacedSchemas(specs[n].schemas, n) {
      x :| x in specs[n].schemas && Prefixed(n, x) == k;
      s := n;
    } else {
      s, x := MergedSchemaOrigin(init, specs, ports, show, k);
    }
  }

  // ---------------------------------------------------------------- paths

  /**
   The edits of an operation touch its tags and its id; every other part of a path item is the namespaced original.
   */
  lemma EntryKeepsTheRest(item: map<string, Json>, service: string, url: string, show: Json -> string, k: string,
                          f: string)
    requires k in item && k != "servers" && !IsSchemaRef(k, item[k])
    ensures var e := EntryFor(item, service, url, show); var n := NamespaceRefs(item[k], service);
      && k in e
      && e["servers"] == Arr([Obj(map["url" := Str(url)])])
      && (if IsOperation(k, n) then e[k].Obj? && OperationEdited(n.fields, e[k].fields, service, f) else e[k] == n)
  {
  }

  predicate OperationEdited(before: map<string, Json>, after: map<string, Json>, service: string, f: string) {
    && "tags" in after && after["tags"] == Arr([Str(service)])
    && (f != "tags" ==> (f in after <==> f in before))
    && ("operationId" in before && before["operationId"].Str? ==>
          "operationId" in after && after["operationId"] == Str(service + "_" + before["operationId"].text))
    && (f !in {"tags", "operationId"} && f in before ==> after[f] == before[f])
  }

  /** What each service lays over the merged paths. */
  function PathLayer(specs: map<string, ServiceSpec>, ports: map<string, nat>, show: Json -> string)
    : string -> map<string, map<string, Json>>
  {
    n => if n in specs && n in ports then NamespacedPaths(specs[n].paths, n, ServiceUrl(ports[n], show), show)
      else map[]
  }

  function Overlay<V>(order: seq<string>, layer: string -> map<string, V>): map<string, V> {
    if order == [] then map[] else Overlay(order[..|order| - 1], layer) + layer(order[|order| - 1])
  }

  lemma {:induction false} PathsAreOverlaid(order: seq<string>, specs: map<string, ServiceSpec>,
                                            ports: map<string, nat>,
                                            show: Json -> string)
    requires forall n :: n in order ==> n in specs && n in ports
    ensures MergeOf(order, specs, ports, show).paths == Overlay(order, PathLayer(specs, ports, show))
  {
    if order != [] {
      PathsAreOverlaid(order[..|order| - 1], specs, ports, show);
    }
  }

  /** In an overlay the last layer with a key decides its value. */
  lemma {:induction false} OverlayLookup<V>(order: seq<string>, layer: string -> map<string, V>, k: string, i: nat)
    requires i < |order| && k in layer(order[i]) && forall j :: i < j < |order| ==> k !in layer(order[j])
    ensures k in Overlay(order, layer) && Overlay(order, layer)[k] == layer(order[i])[k]
  {
    if i < |order| - 1 {
      OverlayLookup(order[..|order| - 1], layer, k, i);
    }
  }

  lemma {:induction false} OverlayOrigin<V>(order: seq<string>, layer: string -> map<string, V>, k: string)
    requires k in Overlay(order, layer)
    ensures exists n :: n in order && k in layer(n)
  {
    var last := order[|order| - 1];
    if k !in layer(last) {
      OverlayOrigin(order[..|order| - 1], layer, k);
    }
  }

  lemma InPathLayer(specs: map<string, ServiceSpec>, ports: map<string, nat>, show: Json -> string, n: string,
                    p: string)
    requires n in specs && n in ports
    ensures var here := PathLayer(specs, ports, show)(n);
      && (p in here <==> p in specs[n].paths && p !in PLUMBING_PATHS)
      && (p in here ==> here[p] == EntryFor(specs[n].paths[p], n, ServiceUrl(ports[n], show), show))
  {
  }

  /** The last place in the order that serves a path. */
  function LastServer(order: seq<string>, specs: map<string, ServiceSpec>, p: string): (i: nat)
    requires forall n :: n in order ==> n in specs
    requires exists n :: n in order && p in specs[n].paths
    ensures i < |order| && p in specs[order[i]].paths
    ensures forall j :: i < j < |order| ==> p !in specs[order[j]].paths
  {
    var last := |order| - 1;
    if p in specs[order[last]].paths then last
    else
      assert order == order[..last] + [order[last]];
      LastServer(order[..last], specs, p)
  }

  /**
   A path any service serves, beyond the plumbing, is merged as the edited entry of the last service that serves it.
   */
  lemma MergedPath(order: seq<string>, specs: map<string, ServiceSpec>, ports: map<string, nat>, show: Json -> string,
                   p: string)
    requires forall n :: n in order ==> n in specs && n in ports
    requires p !in PLUMBING_PATHS && exists n :: n in order && p in specs[n].paths
    ensures var s := order[LastServer(order, specs, p)]; var m := MergeOf(order, specs, ports, show).paths;
      p in m && m[p] == EntryFor(specs[s].paths[p], s, ServiceUrl(ports[s], show), show)
  {
    var i, layer := LastServer(order, specs, p), PathLayer(specs, ports, show);
    PathsAreOverlaid(order, specs, ports, show);
    forall j | i <= j < |order| ensures p in layer(order[j]) <==> i == j {
      InPathLayer(specs, ports, show, order[j], p);
    }
    OverlayLookup(order, layer, p, i);
    InPathLayer(specs, ports, show, order[i], p);
  }

  /** The merged document has exactly the paths some service serves, without the plumbing. */
  lemma MergedPathsExactly(order: seq<string>, specs: map<string, ServiceSpec>, ports: map<string, nat>,
                           show: Json -> string, p: string)
    requires forall n :: n in order ==> n in specs && n in ports
    ensures p in MergeOf(order, specs, ports, show).paths <==>
      p !in PLUMBING_PATHS && exists n :: n in order && p in specs[n].paths
  {
    if p in MergeOf(order, specs, ports, show).paths {
      var layer := PathLayer(specs, ports, show);
      PathsAreOverlaid(order, specs, ports, show);
      OverlayOrigin(order, layer, p);
      var n :| n in order && p in layer(n);
      InPathLayer(specs, ports, show, n, p);
    } else if p !in PLUMBING_PATHS && exists n :: n in order && p in specs[n].paths {
      MergedPath(order, specs, ports, show, p);
    }
  }

  // ---------------------------------------------------------------- the merged document, part by part

  /** One operation after the merge: its service as only tag, its id prefixed, all else as it was. */
  predicate OperationMerged(before: map<string, Json>, after: map<string, Json>, service: string, show: Json -> string)
  {
    && after.Keys == before.Keys + {"tags"} && after["tags"] == Arr([Str(service)])
    && (forall f :: f in before && f != "tags" && f != "operationId" ==> after[f] == before[f])
    && ("operationId" in before ==>
          var id := before["operationId"];
          after["operationId"] == Str(service + "_" + if id.Str? then id.text else show(id)))
  }

  /** One part of a path item: an operation, or something that only has its references moved. */
  predicate PartMerged(key: string, before: Json, after: Json, service: string, show: Json -> string) {
    if key == "$ref" && before.Str? && SCHEMA_PREFIX <= before.text then
      after == Str(SCHEMA_PREFIX + service + "." + before.text[|SCHEMA_PREFIX|..])
    else
      var moved := NamespaceRefs(before, service);
      if before.Obj? && key !in {"servers", "parameters", "summary", "description"} then
        after.Obj? && OperationMerged(moved.fields, after.fields, service, show)
      else after == moved
  }

  /** A path item after the merge: where it lives, and each part of it. */
  predicate ItemMerged(before: map<string, Json>, after: map<string, Json>, service: string, port: nat,
                       show: Json -> string)
  {
    && after.Keys == before.Keys + {"servers"}
    && after["servers"] == Arr([Obj(map["url" := Str("http://127.0.0.1:" + show(Num(port)))])])
    && forall k :: k in before && k != "servers" ==> PartMerged(k, before[k], after[k], service, show)
  }

  lemma OperationIsMerged(op: map<string, Json>, service: string, show: Json -> string)
    ensures OperationMerged(op, EditOperation(op, service, show), service, show)
  {
  }

  lemma PartIsMerged(item: map<string, Json>, service: string, url: string, show: Json -> string, k: string)
    requires k in item && k != "servers"
    ensures k in EntryFor(item, service, url, show)
    ensures PartMerged(k, item[k], EntryFor(item, service, url, show)[k], service, show)
  {
    if IsSchemaRef(k, item[k]) {
      RefIsMoved(item, service, url, show, k);
    } else {
      var moved := WithServer(item, service, url)[k];
      assert moved == NamespaceRefs(item[k], service);
      if moved.Obj? {
        OperationIsMerged(moved.fields, service, show);
      }
    }
  }

  lemma RefIsMoved(item: map<string, Json>, service: string, url: string, show: Json -> string, k: string)
    requires k in item && IsSchemaRef(k, item[k])
    ensures k in EntryFor(item, service, url, show)
    ensures EntryFor(item, service, url, show)[k] ==
      Str(SCHEMA_PREFIX + service + "." + item[k].text[|SCHEMA_PREFIX|..])
  {
    var rest := RefName(item[k]);
    assert SCHEMA_PREFIX + (service + "." + rest) == SCHEMA_PREFIX + service + "." + rest;
    assert WithServer(item, service, url)[k] == Str(SCHEMA_PREFIX + Prefixed(service, rest));
  }

  lemma ItemIsMerged(item: map<string, Json>, service: string, port: nat, show: Json -> string)
    ensures ItemMerged(item, EntryFor(item, service, ServiceUrl(port, show), show), service, port, show)
  {
    var url := ServiceUrl(port, show);
    forall k | k in item && k != "servers"
      ensures PartMerged(k, item[k], EntryFor(item, service, url, show)[k], service, show)
    {
      PartIsMerged(item, service, url, show, k);
    }
    assert !IsOperation("servers", Arr([Obj(map["url" := Str(url)])]));
  }

  lemma {:induction false} MergedTagAt(order: seq<string>, specs: map<string, ServiceSpec>, ports: map<string, nat>,
                                       show: Json -> string, i: nat)
    requires (forall n :: n in order ==> n in specs && n in ports) && i < |order|
    ensures var tags := MergeOf(order, specs, ports, show).tags;
      |tags| == |order| && tags[i] == TagFor(order[i], ports[order[i]], show)
  {
    var init, n := order[..|order| - 1], order[|order| - 1];
    var before, tag := MergeOf(init, specs, ports, show).tags, TagFor(n, ports[n], show);
    assert MergeOf(order, specs, ports, show).tags == before + [tag];
    TagsAreCounted(init, specs, ports, show);
    if i < |order| - 1 {
      MergedTagAt(init, specs, ports, show, i);
    }
  }

  /** The tags of the merged document: every service's name and where it is, in order. */
  lemma MergedTags(order: seq<string>, specs: map<string, ServiceSpec>, ports: map<string, nat>, show: Json -> string,
                   i: nat)
    requires (forall n :: n in order ==> n in specs && n in ports) && i < |order|
    ensures var tags, port := MergeOf(order, specs, ports, show).tags, show(Num(ports[order[i]]));
      && |tags| == |order| && tags[i].name == order[i]
      && tags[i].description == "http://127.0.0.1:" + port + " · " + port
  {
    MergedTagAt(order, specs, ports, show, i);
    TagSays(order[i], ports[order[i]], show);
  }

  lemma TagSays(name: string, port: nat, show: Json -> string)
    ensures var text := show(Num(port));
      TagFor(name, port, show) == Tag(name, "http://127.0.0.1:" + text + " · " + text)
  {
  }

  lemma {:induction false} TagsAreCounted(order: seq<string>, specs: map<string, ServiceSpec>, ports: map<string, nat>,
                                          show: Json -> string)
    requires forall n :: n in order ==> n in specs && n in ports
    ensures |MergeOf(order, specs, ports, show).tags| == |order|
  {
    if order != [] {
      TagsAreCounted(order[..|order| - 1], specs, ports, show);
    }
  }

  /** What a path of the last service that serves it becomes, part by part; the plumbing is left out. */
  lemma MergedPathItem(order: seq<string>, specs: map<string, ServiceSpec>, ports: map<string, nat>,
                       show: Json -> string, p: string, i: nat)
    requires forall n :: n in order ==> n in specs && n in ports
    requires i < |order| && p in specs[order[i]].paths && forall j :: i < j < |order| ==> p !in specs[order[j]].paths
    ensures var s, merged := order[i], MergeOf(order, specs, ports, show).paths;
      if p in {"/health", "/ready"} then p !in merged
      else p in merged && ItemMerged(specs[s].paths[p], merged[p], s, ports[s], show)
  {
    MergedPathsExactly(order, specs, ports, show, p);
    if p !in {"/health", "/ready"} {
      MergedPath(order, specs, ports, show, p);
      ItemIsMerged(specs[order[i]].paths[p], order[i], ports[order[i]], show);
    }
  }

  lemma EditedOperationResolves(op: map<string, Json>, service: string, show: Json -> string, names: set<string>)
    requires RefsIn(Obj(op), names)
    ensures RefsIn(Obj(EditOperation(op, service, show)), names)
  {
    var e := EditOperation(op, service, show);
    forall k | k in e ensures if IsSchemaRef(k, e[k]) then RefName(e[k]) in names else RefsIn(e[k], names) {
      if k == "tags" {
        assert e[k] == Arr([Str(service)]);
        assert RefsIn(Str(service), names);
      } else if k != "operationId" {
        assert k in op && e[k] == op[k];
      }
    }
  }

  /** If a path item's references resolve in its service, those of its merged entry resolve in the merged document. */
  lemma EntryResolves(item: map<string, Json>, service: string, url: string, show: Json -> string, names: set<string>)
    requires RefsIn(NamespaceRefs(Obj(item), service), names)
    ensures RefsIn(Obj(EntryFor(item, service, url, show)), names)
  {
    var n, w, e := NamespaceRefs(Obj(item), service).fields, WithServer(item, service, url),
      EntryFor(item, service, url, show);
    forall k | k in e ensures if IsSchemaRef(k, e[k]) then RefName(e[k]) in names else RefsIn(e[k], names) {
      if k == "servers" {
        ServerHasNoRefs(url, names);
      } else {
        assert k in n && w[k] == n[k];
        if IsOperation(k, w[k]) {
          assert RefsIn(n[k], names);
          EditedOperationResolves(w[k].fields, service, show, names);
        }
      }
    }
  }

  lemma ServerHasNoRefs(url: string, names: set<string>)
    ensures RefsIn(Arr([Obj(map["url" := Str(url)])]), names)
  {
    var o := Obj(map["url" := Str(url)]);
    assert RefsIn(Str(url), names);
    assert RefsIn(o, names);
  }

  ghost predicate Closed(schemas: map<string, Json>, paths: map<string, map<string, Json>>) {
    && (forall x :: x in schemas ==> RefsIn(schemas[x], schemas.Keys))
    && (forall p :: p in paths && p !in PLUMBING_PATHS ==> RefsIn(Obj(paths[p]), schemas.Keys))
  }

  /**
   If every service's document is closed under its own references, so is the merged one, whatever paths they share.
   */
  lemma MergedDocumentIsClosed(order: seq<string>, specs: map<string, ServiceSpec>, ports: map<string, nat>,
                               show: Json -> string)
    requires Mergeable(order, specs, ports)
    requires forall n :: n in order ==> Closed(specs[n].schemas, specs[n].paths)
    ensures Closed(MergeOf(order, specs, ports, show).schemas, MergeOf(order, specs, ports, show).paths)
  {
    var m := MergeOf(order, specs, ports, show);
    forall k | k in m.schemas ensures RefsIn(m.schemas[k], m.schemas.Keys) {
      var s, x := MergedSchemaOrigin(order, specs, ports, show, k);
      MergedLookup(order, specs, ports, show, s, x);
      MergeResolves(order, specs, ports, show, s, specs[s].schemas[x]);
    }
    forall p | p in m.paths ensures RefsIn(Obj(m.paths[p]), m.schemas.Keys) {
      MergedPathsExactly(order, specs, ports, show, p);
      MergedPath(order, specs, ports, show, p);
      var s := order[LastServer(order, specs, p)];
      MergeResolves(order, specs, ports, show, s, Obj(specs[s].paths[p]));
      EntryResolves(specs[s].paths[p], s, ServiceUrl(ports[s], show), show, m.schemas.Keys);
    }
  }
}
