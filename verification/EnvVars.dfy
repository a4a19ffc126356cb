/** pkg/util/envvar: environment variables as ordered lists that are used as maps. */
module EnvVars {
  import opened Outcomes
  import opened FirstWins

  /** Where a variable takes its value from when it has no literal one. */
  datatype EnvSource =
    | ConfigMapKey(name: string, key: string)
    | SecretKey(name: string, key: string)
    | FieldPath(path: string)

  datatype EnvVar = EnvVar(name: string, value: string, valueFrom: Option<EnvSource>)

  const BY_NAME: EnvVar -> string := (v: EnvVar) => v.name

  function Literal(name: string, value: string): EnvVar {
    EnvVar(name, value, None)
  }

  function From(name: string, source: EnvSource): EnvVar {
    EnvVar(name, "", Some(source))
  }

  function Lookup(vars: seq<EnvVar>, name: string): Option<EnvVar> {
    Find(vars, BY_NAME, name)
  }

  function Names(vars: seq<EnvVar>): seq<string> {
    seq(|vars|, i requires 0 <= i < |vars| => vars[i].name)
  }

  /** The entries other than those called `name`, in their order. */
  function Others(vars: seq<EnvVar>, name: string): seq<EnvVar> {
    Without(vars, BY_NAME, name)
  }

  predicate UniqueNames(vars: seq<EnvVar>) {
    Unique(vars, BY_NAME)
  }

  /** The map a list without duplicates stands for. */
  function AsMap(vars: seq<EnvVar>): map<string, EnvVar> {
    map n | n in Names(vars) && Lookup(vars, n).Some? :: Lookup(vars, n).value
  }

  /** Overwrites the first entry with `v`'s name, or appends `v`. */
  function Put(vars: seq<EnvVar>, v: EnvVar): (r: seq<EnvVar>)
    ensures |vars| <= |r| <= |vars| + 1
  {
    if vars == [] then [v]
    else if vars[0].name == v.name then [v] + vars[1..]
    else [vars[0]] + Put(vars[1..], v)
  }

  /** Drops the first entry called `name`. */
  function Drop(vars: seq<EnvVar>, name: string): seq<EnvVar> {
    if vars == [] then []
    else if vars[0].name == name then vars[1..]
    else [vars[0]] + Drop(vars[1..], name)
  }

  /** Combine: the first set, then what the second adds. */
  function Combined(a: seq<EnvVar>, b: seq<EnvVar>): seq<EnvVar> {
    Distinct(a + b, BY_NAME)
  }

  /** Clone: the first entry of every name. */
  function Cloned(vars: seq<EnvVar>): seq<EnvVar> {
    Distinct(vars, BY_NAME)
  }

  // ---------- properties ----------

  lemma {:induction false} LookupPut(vars: seq<EnvVar>, v: EnvVar, name: string)
    ensures Lookup(Put(vars, v), name) == if name == v.name then Some(v) else Lookup(vars, name)
  {
    if vars != [] && vars[0].name != v.name {
      LookupPut(vars[1..], v, name);
      assert ([vars[0]] + Put(vars[1..], v))[1..] == Put(vars[1..], v);
    } else if vars != [] {
      assert ([v] + vars[1..])[1..] == vars[1..];
    }
  }

  /** A write leaves every other entry, and their order, as they were. */
  lemma {:induction false} PutKeepsOthers(vars: seq<EnvVar>, v: EnvVar)
    ensures Others(Put(vars, v), v.name) == Others(vars, v.name)
  {
    if vars != [] {
      var rest := vars[1..];
      if vars[0].name == v.name {
        WithoutConcat([v], rest, BY_NAME, v.name);
      } else {
        PutKeepsOthers(rest, v);
        WithoutConcat([vars[0]], Put(rest, v), BY_NAME, v.name);
        assert [vars[0]][1..] == [];
      }
      assert [v][1..] == [];
    } else {
      assert [v][1..] == [];
    }
  }

  /** A write adds a name at the end or keeps the names. */
  lemma {:induction false} PutNames(vars: seq<EnvVar>, v: EnvVar)
    ensures Names(Put(vars, v)) == if v.name in Names(vars) then Names(vars) else Names(vars) + [v.name]
  {
    if vars != [] {
      var rest := vars[1..];
      assert Names(vars) == [vars[0].name] + Names(rest);
      if vars[0].name != v.name {
        PutNames(rest, v);
        assert Names([vars[0]] + Put(rest, v)) == [vars[0].name] + Names(Put(rest, v));
      } else {
        assert Names([v] + rest) == [v.name] + Names(rest);
      }
    }
  }

  lemma UniqueByNames(vars: seq<EnvVar>)
    ensures UniqueNames(vars) <==> forall i, j :: 0 <= i < j < |vars| ==> Names(vars)[i] != Names(vars)[j]
  {
    if UniqueNames(vars) {
      forall i, j | 0 <= i < j < |vars|
        ensures Names(vars)[i] != Names(vars)[j]
      {
        assert BY_NAME(vars[i]) != BY_NAME(vars[j]);
      }
    } else {
      var i, j :| 0 <= i < j < |vars| && BY_NAME(vars[i]) == BY_NAME(vars[j]);
      assert Names(vars)[i] == Names(vars)[j];
    }
  }

  lemma PutUnique(vars: seq<EnvVar>, v: EnvVar)
    requires UniqueNames(vars)
    ensures UniqueNames(Put(vars, v))
  {
    PutNames(vars, v);
    UniqueByNames(vars);
    UniqueByNames(Put(vars, v));
  }

  lemma InNames(vars: seq<EnvVar>, name: string)
    ensures name in Names(vars) <==> Lookup(vars, name).Some?
  {
    if name in Names(vars) {
      var i :| 0 <= i < |vars| && Names(vars)[i] == name;
      assert BY_NAME(vars[i]) == name;
    }
    if Lookup(vars, name).Some? {
      var i :| 0 <= i < |vars| && vars[i] == Lookup(vars, name).value;
      assert Names(vars)[i] == name;
    }
  }

  /** On every list a write is a map update; all other entries keep their order. */
  lemma PutRefinesMapUpdate(vars: seq<EnvVar>, v: EnvVar)
    ensures AsMap(Put(vars, v)) == AsMap(vars)[v.name := v]
    ensures Others(Put(vars, v), v.name) == Others(vars, v.name)
    ensures UniqueNames(vars) ==> UniqueNames(Put(vars, v))
  {
    PutKeepsOthers(vars, v);
    if UniqueNames(vars) {
      PutUnique(vars, v);
    }
    forall n
      ensures n in AsMap(Put(vars, v)) <==> n in AsMap(vars)[v.name := v]
      ensures n in AsMap(Put(vars, v)) ==> AsMap(Put(vars, v))[n] == AsMap(vars)[v.name := v][n]
    {
      LookupPut(vars, v, n);
      InNames(vars, n);
      InNames(Put(vars, v), n);
    }
  }

  /** Lookup in a combination: the first set decides, then the second. */
  lemma LookupCombined(a: seq<EnvVar>, b: seq<EnvVar>, name: string)
    ensures Lookup(Combined(a, b), name) == Lookup(a, name).OrElse(Lookup(b, name))
  {
    FindDistinct(a + b, BY_NAME, name);
    FindConcat(a, b, BY_NAME, name);
  }

  lemma CombineAssociative(a: seq<EnvVar>, b: seq<EnvVar>, c: seq<EnvVar>)
    ensures Combined(Combined(a, b), c) == Combined(a, Combined(b, c))
  {
    var all := a + b + c;
    assert Combined(Combined(a, b), c) == Distinct(all, BY_NAME) by {
      DistinctOfFront(a + b, c, BY_NAME);
    }
    assert a + (b + c) == all;
    DistinctOfBack(a, b + c, BY_NAME);
  }

  /** Combine is Clone of the two sets one after the other, and Clone is idempotent. */
  lemma CloneAlgebra(a: seq<EnvVar>, b: seq<EnvVar>)
    ensures Cloned(Cloned(a)) == Cloned(a)
    ensures Combined(a, b) == Cloned(a + b) == Cloned(Cloned(a) + Cloned(b))
    ensures UniqueNames(Combined(a, b))
  {
    var d := Cloned(a);
    assert Cloned(d) == d by {
      DistinctIsUnique(a, BY_NAME);
      DistinctOfUnique(d, BY_NAME);
    }
    assert Distinct(a + b, BY_NAME) == Distinct(d + b, BY_NAME) by {
      DistinctOfFront(a, b, BY_NAME);
    }
    DistinctOfBack(d, b, BY_NAME);
    DistinctIsUnique(a + b, BY_NAME);
  }

  lemma HeadDecides(head: EnvVar, rest: seq<EnvVar>)
    ensures Cloned([head] + rest) == [head] + Cloned(Others(rest, head.name))
  {
    DistinctFromHead([head] + rest, BY_NAME);
    assert ([head] + rest)[1..] == rest;
  }

  /** The entries of a combination stand in first-occurrence order: the head comes first, and what
      follows is the combination of what both sets hold under other names. */
  lemma CombineOrder(a: seq<EnvVar>, b: seq<EnvVar>)
    requires a != []
    ensures Combined(a, b) == [a[0]] + Combined(Others(a[1..], a[0].name), Others(b, a[0].name))
  {
    var name, rest := a[0].name, a[1..] + b;
    assert a + b == [a[0]] + rest;
    HeadDecides(a[0], rest);
    WithoutConcat(a[1..], b, BY_NAME, name);
  }

  // ---------- the slice operations ----------

  /** The position of the first entry called `name`, or the length. */
  function FirstAt(vars: seq<EnvVar>, name: string): (i: nat)
    ensures i <= |vars|
    ensures i < |vars| ==> vars[i].name == name
    ensures forall j :: 0 <= j < i ==> vars[j].name != name
  {
    if vars == [] || vars[0].name == name then 0
    else
      var k := FirstAt(vars[1..], name);
      assert forall j :: 1 <= j < k + 1 ==> vars[j] == vars[1..][j - 1];
      k + 1
  }

  lemma {:induction false} LookupAt(vars: seq<EnvVar>, name: string)
    ensures Lookup(vars, name) ==
      (var i := FirstAt(vars, name); if i < |vars| then Some(vars[i]) else None)
  {
    if vars != [] && vars[0].name != name {
      LookupAt(vars[1..], name);
    }
  }

  lemma {:induction false} PutAt(vars: seq<EnvVar>, v: EnvVar)
    ensures Put(vars, v) == (var i := FirstAt(vars, v.name); if i < |vars| then vars[i := v] else vars + [v])
  {
    if vars != [] {
      if vars[0].name == v.name {
        assert vars[0 := v] == [v] + vars[1..];
      } else {
        PutAt(vars[1..], v);
        assert vars == [vars[0]] + vars[1..];
        var i := FirstAt(vars[1..], v.name);
        if i < |vars[1..]| {
          assert [vars[0]] + vars[1..][i := v] == vars[i + 1 := v];
        } else {
          assert [vars[0]] + (vars[1..] + [v]) == vars + [v];
        }
      }
    }
  }

  lemma {:induction false} DropAt(vars: seq<EnvVar>, name: string)
    ensures Drop(vars, name) ==
      (var i := FirstAt(vars, name); if i < |vars| then vars[..i] + vars[i + 1..] else vars)
  {
    if vars != [] && vars[0].name != name {
      DropAt(vars[1..], name);
      var i := FirstAt(vars[1..], name);
      if i < |vars[1..]| {
        assert [vars[0]] + (vars[1..][..i] + vars[1..][i + 1..]) == vars[..i + 1] + vars[i + 2..];
      } else {
        assert [vars[0]] + vars[1..] == vars;
      }
    }
  }

  // ---------- what Remove removes ----------

  /** The entry of that name behind the first one is found once the first one is gone; any other name is
      looked up as before. */
  lemma LookupDrop(vars: seq<EnvVar>, name: string, n: string)
    ensures Lookup(Drop(vars, name), n) ==
      if n != name then Lookup(vars, n)
      else if FirstAt(vars, name) < |vars| then Lookup(vars[FirstAt(vars, name) + 1..], name)
      else None
  {
    var i := FirstAt(vars, name);
    DropAt(vars, name);
    LookupAt(vars, name);
    if i < |vars| {
      var front, behind := vars[..i], vars[i + 1..];
      assert vars == front + [vars[i]] + behind;
      NotInFront(front, name);
      LookupWithin(front, vars[i], behind, n);
    }
  }

  lemma NotInFront(front: seq<EnvVar>, name: string)
    requires forall j :: 0 <= j < |front| ==> front[j].name != name
    ensures Lookup(front, name).None?
  {
    LookupAt(front, name);
  }

  lemma LookupWithin(front: seq<EnvVar>, v: EnvVar, behind: seq<EnvVar>, n: string)
    ensures Lookup(front + behind, n) == Lookup(front, n).OrElse(Lookup(behind, n))
    ensures n != v.name ==> Lookup(front + [v] + behind, n) == Lookup(front + behind, n)
  {
    FindConcat(front, behind, BY_NAME, n);
    FindConcat(front + [v], behind, BY_NAME, n);
    FindConcat(front, [v], BY_NAME, n);
    assert [v][1..] == [];
  }

  predicate AtMostOne(vars: seq<EnvVar>, name: string) {
    forall i, j :: 0 <= i < j < |vars| && vars[i].name == name ==> vars[j].name != name
  }

  lemma OneAtMost(vars: seq<EnvVar>, name: string)
    ensures AtMostOne(vars, name) <==> Lookup(Drop(vars, name), name).None?
  {
    LookupDrop(vars, name, name);
    var i := FirstAt(vars, name);
    if i < |vars| {
      var behind := vars[i + 1..];
      assert forall j :: 0 <= j < |behind| ==> behind[j] == vars[i + 1 + j];
      if Lookup(behind, name).Some? {
        var j :| 0 <= j < |behind| && behind[j] == Lookup(behind, name).value;
        assert vars[i].name == name && vars[i + 1 + j].name == name;
      } else {
        assert forall j :: i < j < |vars| ==> BY_NAME(behind[j - i - 1]) != name && behind[j - i - 1] == vars[j];
      }
    }
  }

  /** Remove is a map delete if and only if at most one entry has the name. */
  lemma DropIsMapDeleteExactly(vars: seq<EnvVar>, name: string)
    ensures AsMap(Drop(vars, name)) == AsMap(vars) - {name} <==> AtMostOne(vars, name)
  {
    OneAtMost(vars, name);
    InNames(Drop(vars, name), name);
    if Lookup(Drop(vars, name), name).Some? {
      assert name in AsMap(Drop(vars, name));
    } else {
      forall n
        ensures n in AsMap(Drop(vars, name)) <==> n in AsMap(vars) - {name}
        ensures n in AsMap(Drop(vars, name)) ==> AsMap(Drop(vars, name))[n] == AsMap(vars)[n]
      {
        LookupDrop(vars, name, n);
        InNames(vars, n);
        InNames(Drop(vars, name), n);
      }
    }
  }

  /** Whatever entries have the name, Remove keeps all others in their order. */
  lemma {:induction false} DropKeepsOthers(vars: seq<EnvVar>, name: string)
    ensures Others(Drop(vars, name), name) == Others(vars, name)
  {
    if vars != [] && vars[0].name != name {
      DropKeepsOthers(vars[1..], name);
      var rest := Drop(vars[1..], name);
      WithoutConcat([vars[0]], rest, BY_NAME, name);
      assert [vars[0]][1..] == [];
    }
  }

  /** A slice of variables that is updated through its address. */
  class EnvList {
    var items: seq<EnvVar>

    constructor (items: seq<EnvVar>)
      ensures this.items == items
    {
      this.items := items;
    }

    /** The position of the first entry called `name`; stands for the pointer Get returns. */
    method Get(name: string) returns (at: Option<nat>)
      ensures at == if Lookup(items, name).None? then None else Some(FirstAt(items, name))
    {
      var i := 0;
      while i < |items|
        invariant 0 <= i <= FirstAt(items, name)
      {
        if items[i].name == name {
          LookupAt(items, name);
          return Some(i);
        }
        i := i + 1;
      }
      LookupAt(items, name);
      return None;
    }

    method SetVal(name: string, value: string)
      modifies this
      ensures items == Put(old(items), Literal(name, value))
    {
      var at := Get(name);
      LookupAt(items, name);
      PutAt(items, Literal(name, value));
      if at.Some? {
        items := items[at.value := items[at.value].(value := value, valueFrom := None)];
      } else {
        items := items + [Literal(name, value)];
      }
    }

    method SetVar(newEnvVar: EnvVar)
      modifies this
      ensures items == Put(old(items), newEnvVar)
    {
      var at := Get(newEnvVar.name);
      LookupAt(items, newEnvVar.name);
      PutAt(items, newEnvVar);
      if at.Some? {
        var v := items[at.value].(value := newEnvVar.value, valueFrom := None);
        if newEnvVar.valueFrom.Some? {
          v := v.(valueFrom := newEnvVar.valueFrom);
        }
        items := items[at.value := v];
      } else {
        items := items + [newEnvVar];
      }
    }

    method SetValueFrom(name: string, from: EnvSource)
      modifies this
      ensures items == Put(old(items), From(name, from))
    {
      var at := Get(name);
      LookupAt(items, name);
      PutAt(items, From(name, from));
      if at.Some? {
        items := items[at.value := items[at.value].(value := "", valueFrom := Some(from))];
      } else {
        items := items + [From(name, from)];
      }
    }

    method Remove(name: string)
      modifies this
      ensures items == Drop(old(items), name)
    {
      var at := Get(name);
      LookupAt(items, name);
      DropAt(items, name);
      if at.Some? {
        items := items[..at.value] + items[at.value + 1..];
      }
    }

    /** The loop body shared by Combine, Clone and the defaults: set what is not there yet. */
    method SetIfAbsent(v: EnvVar)
      modifies this
      ensures items == AddNew(old(items), BY_NAME, v)
    {
      var at := Get(v.name);
      LookupAt(items, v.name);
      if at.None? {
        PutAt(items, v);
        SetVar(v);
      }
    }
  }

  /** The list once the first `i` variables are added. */
  ghost function Added(vars: seq<EnvVar>, i: nat): seq<EnvVar>
    requires i <= |vars|
  {
    Distinct(vars[..i], BY_NAME)
  }

  lemma AddedStep(vars: seq<EnvVar>, i: nat)
    requires i < |vars|
    ensures Added(vars, i + 1) == AddNew(Added(vars, i), BY_NAME, vars[i])
  {
    assert vars[..i + 1] == vars[..i] + [vars[i]];
    DistinctSnoc(vars[..i], vars[i], BY_NAME);
  }

  lemma AddedEnds(vars: seq<EnvVar>)
    ensures Added(vars, 0) == [] && Added(vars, |vars|) == Cloned(vars)
  {
    assert vars[..|vars|] == vars;
  }

  /** The loop that Combine runs over each of its sets, Clone over its one and the defaults over theirs: behind
      the variables `before` it adds those of `from`. */
  method AddAll(envs: EnvList, ghost before: seq<EnvVar>, from: seq<EnvVar>)
    requires envs.items == Cloned(before)
    modifies envs
    ensures envs.items == Cloned(before + from)
  {
    ghost var all := before + from;
    AddedEnds(all);
    assert all[..|before|] == before;
    var i := 0;
    while i < |from|
      invariant 0 <= i <= |from|
      invariant envs.items == Added(all, |before| + i)
    {
      AddedStep(all, |before| + i);
      envs.SetIfAbsent(from[i]);
      i := i + 1;
    }
  }

  method Combine(setA: seq<EnvVar>, setB: seq<EnvVar>) returns (r: seq<EnvVar>)
    ensures r == Combined(setA, setB)
  {
    var envs := new EnvList([]);
    AddAll(envs, [], setA);
    assert [] + setA == setA;
    AddAll(envs, setA, setB);
    return envs.items;
  }

  method Clone(from: seq<EnvVar>) returns (r: seq<EnvVar>)
    ensures r == Cloned(from)
  {
    var envs := new EnvList([]);
    AddAll(envs, [], from);
    assert [] + from == from;
    return envs.items;
  }
}
