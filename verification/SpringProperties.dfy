/** pkg/controller/virtualdatabase/convert-ds-properties.go: data source settings as environment variables. */
module SpringProperties {
  import opened Outcomes
  import opened Text
  import opened NameMangling
  import opened EnvVars

  /** A data source as the user configures it. */
  datatype DataSource = DataSource(name: string, sourceType: string, properties: seq<EnvVar>)

  /** A data source as the DDL names it. */
  datatype DatasourceInfo = DatasourceInfo(name: string, sourceType: string)

  datatype ConnectionFactory = ConnectionFactory(name: string, springBootPropertyPrefix: string)

  type Factories = map<string, ConnectionFactory>

  predicate EqualFold(a: string, b: string) {
    ToLower(a) == ToLower(b)
  }

  function FindConfigured(name: string, configured: seq<DataSource>): Option<DataSource> {
    if configured == [] then None
    else if EqualFold(configured[0].name, name) then Some(configured[0])
    else FindConfigured(name, configured[1..])
  }

  function Prefix(sourceType: string, factories: Factories): string {
    var t := ToLower(sourceType);
    if t in factories then ToLower(factories[t].springBootPropertyPrefix) else "spring.teiid.data." + t
  }

  function PropertyKey(source: DatasourceInfo, property: string, factories: Factories): string {
    Key(Prefix(source.sourceType, factories), Sanitized(RemoveDash(ToLower(source.name))), Sanitized(property))
  }

  function Key(prefix: string, name: string, property: string): string {
    EnvReady(prefix + "_" + name + "_" + property)
  }

  predicate HasSpace(s: string) {
    ' ' in s
  }

  /** The writes one property causes: a non-empty value, then a reference. */
  function PropertyWrites(p: EnvVar, key: string): seq<EnvVar> {
    (if p.value != "" then [Literal(key, p.value)] else [])
    + (if p.valueFrom.Some? then [From(key, p.valueFrom.value)] else [])
  }

  function Writes(source: DatasourceInfo, properties: seq<EnvVar>, factories: Factories): seq<EnvVar> {
    if properties == [] then []
    else Writes(source, properties[..|properties| - 1], factories)
         + PropertyWrites(properties[|properties| - 1],
                          PropertyKey(source, properties[|properties| - 1].name, factories))
  }

  /** All writes of all sources, in iteration order; sources without a configuration cause none. */
  function AllWrites(sources: seq<DatasourceInfo>, configured: seq<DataSource>, factories: Factories): seq<EnvVar> {
    if sources == [] then []
    else
      var source := sources[|sources| - 1];
      var c := FindConfigured(source.name, configured);
      AllWrites(sources[..|sources| - 1], configured, factories)
      + (if c.Some? then Writes(source, c.value.properties, factories) else [])
  }

  /** A configured source that is used must not have a space in its name or in a property name. */
  predicate Acceptable(source: DatasourceInfo, configured: seq<DataSource>) {
    var c := FindConfigured(source.name, configured);
    c.Some? ==>
      !HasSpace(c.value.name) && forall i :: 0 <= i < |c.value.properties| ==> !HasSpace(c.value.properties[i].name)
  }

  function PutAll(vars: seq<EnvVar>, writes: seq<EnvVar>): seq<EnvVar> {
    if writes == [] then vars
    else Put(PutAll(vars, writes[..|writes| - 1]), writes[|writes| - 1])
  }

  lemma {:induction false} PutAllConcat(vars: seq<EnvVar>, a: seq<EnvVar>, b: seq<EnvVar>)
    ensures PutAll(vars, a + b) == PutAll(PutAll(vars, a), b)
  {
    if b == [] {
      assert a + b == a;
    } else {
      assert (a + b)[..|a + b| - 1] == a + b[..|b| - 1];
      PutAllConcat(vars, a, b[..|b| - 1]);
    }
  }

  lemma PutAllOne(vars: seq<EnvVar>, w: EnvVar)
    ensures PutAll(vars, [w]) == Put(vars, w)
  {
    assert [w][..0] == [];
    assert PutAll(vars, []) == vars;
  }

  // ---------- properties ----------

  /** The last write to `name`. */
  function LastWrite(writes: seq<EnvVar>, name: string): Option<EnvVar> {
    if writes == [] then None
    else if writes[|writes| - 1].name == name then Some(writes[|writes| - 1])
    else LastWrite(writes[..|writes| - 1], name)
  }

  /** Last writer wins; the names are unique and stand in the order of their first write. */
  lemma {:induction false} LastWriterWins(writes: seq<EnvVar>, name: string)
    ensures Lookup(PutAll([], writes), name) == LastWrite(writes, name)
    ensures UniqueNames(PutAll([], writes))
    ensures Names(PutAll([], writes)) == Names(Cloned(writes))
  {
    if writes != [] {
      var front, w := writes[..|writes| - 1], writes[|writes| - 1];
      LastWriterWins(front, name);
      LookupPut(PutAll([], front), w, name);
      PutUnique(PutAll([], front), w);
      PutNames(PutAll([], front), w);
      InNames(Cloned(front), w.name);
      if Lookup(Cloned(front), w.name).None? {
        assert Names(Cloned(front) + [w]) == Names(Cloned(front)) + [w.name];
      }
    }
  }

  /** Exactly one of a non-empty literal value and a reference. */
  predicate OneKind(v: EnvVar) {
    (v.value != "") != v.valueFrom.Some?
  }

  predicate AllOneKind(vars: seq<EnvVar>) {
    forall i :: 0 <= i < |vars| ==> OneKind(vars[i])
  }

  lemma {:induction false} PutAllOneKind(vars: seq<EnvVar>, writes: seq<EnvVar>)
    requires AllOneKind(vars) && AllOneKind(writes)
    ensures AllOneKind(PutAll(vars, writes))
  {
    if writes != [] {
      var before, w := PutAll(vars, writes[..|writes| - 1]), writes[|writes| - 1];
      PutAllOneKind(vars, writes[..|writes| - 1]);
      PutAt(before, w);
    }
  }

  lemma {:induction false} WritesOneKind(source: DatasourceInfo, properties: seq<EnvVar>, factories: Factories)
    ensures AllOneKind(Writes(source, properties, factories))
  {
    if properties != [] {
      WritesOneKind(source, properties[..|properties| - 1], factories);
    }
  }

  lemma {:induction false} AllWritesOneKind(sources: seq<DatasourceInfo>, configured: seq<DataSource>,
                                            factories: Factories)
    ensures AllOneKind(AllWrites(sources, configured, factories))
  {
    if sources != [] {
      AllWritesOneKind(sources[..|sources| - 1], configured, factories);
      var source := sources[|sources| - 1];
      var c := FindConfigured(source.name, configured);
      if c.Some? {
        WritesOneKind(source, c.value.properties, factories);
      }
    }
  }

  // ---------- the operation ----------

  method FindConfiguredProperties(name: string, configured: seq<DataSource>) returns (r: Option<DataSource>)
    ensures r == FindConfigured(name, configured)
  {
    var i := 0;
    assert configured[0..] == configured;
    while i < |configured|
      invariant 0 <= i <= |configured|
      invariant FindConfigured(name, configured) == FindConfigured(name, configured[i..])
    {
      assert configured[i..][1..] == configured[i + 1..];
      if EqualFold(configured[i].name, name) {
        return Some(configured[i]);
      }
      i := i + 1;
    }
    return None;
  }

  /** The list once the first `i` properties are written. */
  ghost function Written(start: seq<EnvVar>, source: DatasourceInfo, properties: seq<EnvVar>, i: nat,
                         factories: Factories): seq<EnvVar>
    requires i <= |properties|
  {
    PutAll(start, Writes(source, properties[..i], factories))
  }

  lemma WrittenEnds(start: seq<EnvVar>, source: DatasourceInfo, properties: seq<EnvVar>, factories: Factories)
    ensures Written(start, source, properties, 0, factories) == start
    ensures Written(start, source, properties, |properties|, factories)
      == PutAll(start, Writes(source, properties, factories))
  {
    assert properties[..|properties|] == properties;
  }

  lemma WrittenStep(start: seq<EnvVar>, source: DatasourceInfo, properties: seq<EnvVar>, i: nat, factories: Factories,
                    key: string)
    requires i < |properties| && key == PropertyKey(source, properties[i].name, factories)
    ensures Written(start, source, properties, i + 1, factories)
      == PutAll(Written(start, source, properties, i, factories), PropertyWrites(properties[i], key))
  {
    assert properties[..i + 1][..i] == properties[..i];
    PutAllConcat(start, Writes(source, properties[..i], factories), PropertyWrites(properties[i], key));
  }

  method WriteProperty(envs: EnvList, prefix: string, datasourceName: string, p: EnvVar)
    modifies envs
    ensures envs.items
      == PutAll(old(envs.items), PropertyWrites(p, Key(prefix, datasourceName, Sanitized(p.name))))
  {
    var propertyName := SanitizeName(p.name);
    var key := Key(prefix, datasourceName, propertyName);
    PropertySteps(envs.items, p, key);
    if p.value != "" {
      envs.SetVal(key, p.value);
    }
    if p.valueFrom.Some? {
      envs.SetValueFrom(key, p.valueFrom.value);
    }
  }

  /** Writes the properties of one configured source; false when a property name has a space. */
  method ConvertSource(envs: EnvList, source: DatasourceInfo, properties: seq<EnvVar>, factories: Factories)
    returns (ok: bool)
    modifies envs
    ensures ok <==> forall i :: 0 <= i < |properties| ==> !HasSpace(properties[i].name)
    ensures ok ==> envs.items == PutAll(old(envs.items), Writes(source, properties, factories))
  {
    ghost var start := envs.items;
    WrittenEnds(start, source, properties, factories);
    var datasourceName := SanitizeName(RemoveDash(ToLower(source.name)));
    var prefix := Prefix(source.sourceType, factories);
    var i := 0;
    while i < |properties|
      invariant 0 <= i <= |properties|
      invariant forall j :: 0 <= j < i ==> !HasSpace(properties[j].name)
      invariant envs.items == Written(start, source, properties, i, factories)
    {
      var p := properties[i];
      if HasSpace(p.name) {
        return false;
      }
      WrittenStep(start, source, properties, i, factories, Key(prefix, datasourceName, Sanitized(p.name)));
      WriteProperty(envs, prefix, datasourceName, p);
      i := i + 1;
    }
    return true;
  }

  lemma PropertySteps(s0: seq<EnvVar>, p: EnvVar, key: string)
    ensures
      var s1 := if p.value != "" then Put(s0, Literal(key, p.value)) else s0;
      var s2 := if p.valueFrom.Some? then Put(s1, From(key, p.valueFrom.value)) else s1;
      s2 == PutAll(s0, PropertyWrites(p, key))
  {
    var a := if p.value != "" then [Literal(key, p.value)] else [];
    var b := if p.valueFrom.Some? then [From(key, p.valueFrom.value)] else [];
    PutAllConcat(s0, a, b);
    if p.value != "" {
      PutAllOne(s0, Literal(key, p.value));
    }
    if p.valueFrom.Some? {
      PutAllOne(PutAll(s0, a), From(key, p.valueFrom.value));
    }
  }

  /** The list that convert2SpringProperties yields, or None for its error. */
  function Converted(configured: seq<DataSource>, sources: seq<DatasourceInfo>, factories: Factories)
    : Option<seq<EnvVar>>
  {
    if forall i :: 0 <= i < |sources| ==> Acceptable(sources[i], configured) then
      Some(PutAll([], AllWrites(sources, configured, factories)))
    else None
  }

  lemma AllWritesStep(sources: seq<DatasourceInfo>, i: nat, configured: seq<DataSource>, factories: Factories)
    requires i < |sources|
    ensures
      var c := FindConfigured(sources[i].name, configured);
      var before := PutAll([], AllWrites(sources[..i], configured, factories));
      PutAll([], AllWrites(sources[..i + 1], configured, factories)) ==
        if c.Some? then PutAll(before, Writes(sources[i], c.value.properties, factories)) else before
  {
    assert sources[..i + 1][..i] == sources[..i];
    var c := FindConfigured(sources[i].name, configured);
    var before := AllWrites(sources[..i], configured, factories);
    if c.Some? {
      PutAllConcat([], before, Writes(sources[i], c.value.properties, factories));
    } else {
      assert before + [] == before;
    }
  }

  method ConvertToSpringProperties(configured: seq<DataSource>, sources: seq<DatasourceInfo>, factories: Factories)
    returns (r: Option<seq<EnvVar>>)
    ensures r == Converted(configured, sources, factories)
  {
    var envs := new EnvList([]);
    var i := 0;
    while i < |sources|
      invariant 0 <= i <= |sources|
      invariant forall j :: 0 <= j < i ==> Acceptable(sources[j], configured)
      invariant envs.items == PutAll([], AllWrites(sources[..i], configured, factories))
    {
      var source := sources[i];
      AllWritesStep(sources, i, configured, factories);
      var found := FindConfiguredProperties(source.name, configured);
      if found.None? {
        i := i + 1;
        continue;
      }
      if HasSpace(found.value.name) {
        return None;
      }
      var ok := ConvertSource(envs, source, found.value.properties, factories);
      if !ok {
        return None;
      }
      i := i + 1;
    }
    assert sources[..i] == sources;
    return Some(envs.items);
  }

  /** What a successful conversion promises. */
  lemma ConvertedLaws(configured: seq<DataSource>, sources: seq<DatasourceInfo>, factories: Factories, key: string)
    requires Converted(configured, sources, factories).Some?
    ensures
      var r, writes := Converted(configured, sources, factories).value, AllWrites(sources, configured, factories);
      && UniqueNames(r) && Names(r) == Names(Cloned(writes))
      && Lookup(r, key) == LastWrite(writes, key)
      && AllOneKind(r)
  {
    var writes := AllWrites(sources, configured, factories);
    LastWriterWins(writes, key);
    AllWritesOneKind(sources, configured, factories);
    PutAllOneKind([], writes);
  }
}
