/** The names and values of the data source settings: keys by the words they are made of, and which property
    decides. */
module SpringNames {
  import opened Outcomes
  import opened Text
  import opened NameMangling
  import opened EnvVars
  import opened SpringProperties

  // ---------- keys ----------

  function UpperAll(words: seq<string>): seq<string> {
    seq(|words|, i requires 0 <= i < |words| => ToUpper(words[i]))
  }

  predicate NoPunctuation(s: string) {
    '.' !in s && '-' !in s
  }

  predicate AllPlain(words: seq<string>) {
    forall i :: 0 <= i < |words| ==> NoPunctuation(words[i])
  }

  /** Periods and dashes become underscores, and everything else is put into upper case. */
  lemma EnvReadyConcat(a: string, b: string)
    ensures EnvReady(a + b) == EnvReady(a) + EnvReady(b)
    ensures EnvReady(".") == EnvReady("-") == EnvReady("_") == "_"
    ensures NoPunctuation(a) ==> EnvReady(a) == ToUpper(a)
    ensures EnvReady(ToLower(a)) == EnvReady(a)
  {}

  lemma UpperLower(s: string)
    ensures ToUpper(ToLower(s)) == ToUpper(s)
  {}

  lemma LowerLower(s: string)
    ensures ToLower(ToLower(s)) == ToLower(s)
    ensures NoPunctuation(s) ==> NoPunctuation(ToLower(s))
  {}

  lemma {:induction false} EnvReadyJoin(words: seq<string>, separator: string)
    requires AllPlain(words) && (separator == "." || separator == "-" || separator == "_")
    ensures EnvReady(Join(words, separator)) == Join(UpperAll(words), "_")
  {
    if words != [] {
      var front, w := words[..|words| - 1], words[|words| - 1];
      assert words == front + [w] && UpperAll(words) == UpperAll(front) + [ToUpper(w)];
      EnvReadyJoin(front, separator);
      JoinSnoc(front, w, separator);
      JoinSnoc(UpperAll(front), ToUpper(w), "_");
      EnvReadyConcat(w, "");
      EnvReadyConcat(Join(front, separator), separator);
      EnvReadyConcat(Join(front, separator) + separator, w);
    }
  }

  lemma {:induction false} JoinConcat(a: seq<string>, b: seq<string>, separator: string)
    requires a != [] && b != []
    ensures Join(a + b, separator) == Join(a, separator) + separator + Join(b, separator)
  {
    var front, w := b[..|b| - 1], b[|b| - 1];
    assert b == front + [w] && a + b == (a + front) + [w];
    JoinSnoc(a + front, w, separator);
    JoinSnoc(front, w, separator);
    if front != [] {
      JoinConcat(a, front, separator);
      Reassociate(Join(a, separator), separator, Join(front, separator), w);
    } else {
      assert a + front == a;
    }
  }

  lemma Reassociate(a: string, separator: string, b: string, w: string)
    ensures a + separator + b + separator + w == a + separator + (b + separator + w)
  {}

  /** The words of the prefix: those of a known connection factory, in any letter case, or "spring", "teiid",
      "data" and the type of a source of another kind. */
  predicate PrefixWords(parts: seq<string>, sourceType: string, factories: Factories) {
    var t := ToLower(sourceType);
    if t in factories then ToLower(factories[t].springBootPropertyPrefix) == ToLower(Join(parts, "."))
    else parts == ["spring", "teiid", "data", sourceType]
  }

  /** The key of a property consists of the words of the prefix, the name of the source without its dashes and
      the camel-case words of the property's name, in upper case and joined with underscores. */
  lemma KeyOfWords(source: DatasourceInfo, pieces: seq<string>, humps: seq<string>, factories: Factories,
                   parts: seq<string>)
    requires PrefixWords(parts, source.sourceType, factories) && AllPlain(parts) && parts != []
    requires source.name == Join(pieces, "-") && AllPlain(pieces)
    requires PlainHumps(humps) && humps != []
    ensures PropertyKey(source, Concat(humps), factories)
      == Join(UpperAll(parts + [Concat(pieces)] + humps), "_")
  {
    var prefix := Prefix(source.sourceType, factories);
    var name := Sanitized(RemoveDash(ToLower(source.name)));
    KeyParts(prefix, name, Sanitized(Concat(humps)));
    PrefixKey(source.sourceType, factories, parts);
    NameKey(pieces);
    PropertyWords(humps);
    JoinThree(parts, Concat(pieces), humps);
  }

  lemma KeyParts(prefix: string, name: string, property: string)
    ensures Key(prefix, name, property) == EnvReady(prefix) + "_" + EnvReady(name) + "_" + EnvReady(property)
  {}

  lemma NameKey(pieces: seq<string>)
    requires AllPlain(pieces)
    ensures EnvReady(Sanitized(RemoveDash(ToLower(Join(pieces, "-"))))) == ToUpper(Concat(pieces))
  {
    LowerJoin(pieces);
    LowerPlain(pieces);
    DashesRemoved(LowerAll(pieces));
    ConcatPlain(LowerAll(pieces));
    var n := ToLower(Concat(pieces));
    NoCapitalsNoDashes(n, |n|);
    assert n[..|n|] == n;
    EnvReadyConcat(n, "");
    UpperLower(Concat(pieces));
  }

  lemma {:induction false} LowerJoin(pieces: seq<string>)
    ensures ToLower(Join(pieces, "-")) == Join(LowerAll(pieces), "-")
    ensures ToLower(Concat(pieces)) == Concat(LowerAll(pieces))
  {
    if pieces != [] {
      var front, w := pieces[..|pieces| - 1], pieces[|pieces| - 1];
      assert pieces == front + [w] && LowerAll(pieces) == LowerAll(front) + [ToLower(w)];
      LowerJoin(front);
      JoinSnoc(front, w, "-");
      JoinSnoc(LowerAll(front), ToLower(w), "-");
      ConcatSnoc(front, w);
      ConcatSnoc(LowerAll(front), ToLower(w));
      LowerConcat(Join(front, "-") + "-", w);
      LowerConcat(Join(front, "-"), "-");
      LowerConcat(Concat(front), w);
    }
  }

  lemma LowerConcat(a: string, b: string)
    ensures ToLower(a + b) == ToLower(a) + ToLower(b)
    ensures ToLower("-") == "-"
  {}

  lemma {:induction false} DashesRemoved(pieces: seq<string>)
    requires AllPlain(pieces)
    ensures RemoveDash(Join(pieces, "-")) == Concat(pieces)
  {
    if pieces != [] {
      var front, w := pieces[..|pieces| - 1], pieces[|pieces| - 1];
      assert pieces == front + [w];
      DashesRemoved(front);
      JoinSnoc(front, w, "-");
      ConcatSnoc(front, w);
      if front == [] {
        NothingDropped(w);
      } else {
        DashDropped(Join(front, "-"), w);
      }
    }
  }

  lemma {:induction false} ConcatPlain(pieces: seq<string>)
    requires AllPlain(pieces)
    ensures NoPunctuation(Concat(pieces))
  {
    if pieces != [] {
      ConcatPlain(pieces[1..]);
    }
  }

  lemma PropertyWords(humps: seq<string>)
    requires PlainHumps(humps)
    ensures EnvReady(Sanitized(Concat(humps))) == Join(UpperAll(humps), "_")
  {
    HumpsJoined(humps);
    LowerPlain(humps);
    EnvReadyJoin(LowerAll(humps), "-");
    assert UpperAll(LowerAll(humps)) == UpperAll(humps) by {
      forall i | 0 <= i < |humps| ensures ToUpper(ToLower(humps[i])) == ToUpper(humps[i]) {
        UpperLower(humps[i]);
      }
    }
  }

  lemma LowerPlain(words: seq<string>)
    requires AllPlain(words)
    ensures AllPlain(LowerAll(words))
  {
    forall i | 0 <= i < |words| ensures NoPunctuation(LowerAll(words)[i]) {
      LowerLower(words[i]);
    }
  }

  lemma PrefixKey(sourceType: string, factories: Factories, parts: seq<string>)
    requires PrefixWords(parts, sourceType, factories) && AllPlain(parts)
    ensures EnvReady(Prefix(sourceType, factories)) == Join(UpperAll(parts), "_")
  {
    var t := ToLower(sourceType);
    if t in factories {
      EnvReadyConcat(Join(parts, "."), "");
      EnvReadyJoin(parts, ".");
    } else {
      EnvReadyConcat(sourceType, "");
      EnvReadyConcat("spring.teiid.data.", t);
      EnvReadyConcat("spring.teiid.data.", sourceType);
      FourWords(sourceType);
      EnvReadyJoin(parts, ".");
    }
  }

  lemma FourWords(sourceType: string)
    ensures Join(["spring", "teiid", "data", sourceType], ".") == "spring.teiid.data." + sourceType
  {
    JoinSnoc(["spring", "teiid", "data"], sourceType, ".");
    JoinSnoc(["spring", "teiid"], "data", ".");
    JoinSnoc(["spring"], "teiid", ".");
    assert ["spring"] + ["teiid"] == ["spring", "teiid"];
    assert ["spring", "teiid"] + ["data"] == ["spring", "teiid", "data"];
    assert ["spring", "teiid", "data"] + [sourceType] == ["spring", "teiid", "data", sourceType];
  }

  lemma JoinThree(parts: seq<string>, name: string, humps: seq<string>)
    requires parts != [] && humps != []
    ensures Join(UpperAll(parts + [name] + humps), "_")
      == Join(UpperAll(parts), "_") + "_" + ToUpper(name) + "_" + Join(UpperAll(humps), "_")
  {
    assert UpperAll(parts + [name] + humps) == UpperAll(parts) + [ToUpper(name)] + UpperAll(humps);
    JoinConcat(UpperAll(parts) + [ToUpper(name)], UpperAll(humps), "_");
    JoinConcat(UpperAll(parts), [ToUpper(name)], "_");
  }

  // ---------- configured sources ----------

  /** The first source with that name in any letter case, or none when no name agrees. */
  lemma {:induction false} FirstConfigured(name: string, configured: seq<DataSource>, i: nat)
    requires forall j :: 0 <= j < i && j < |configured| ==> ToLower(configured[j].name) != ToLower(name)
    ensures i < |configured| && ToLower(configured[i].name) == ToLower(name) ==>
      FindConfigured(name, configured) == Some(configured[i])
    ensures |configured| <= i ==> FindConfigured(name, configured) == None
  {
    if i > 0 && configured != [] {
      FirstConfigured(name, configured[1..], i - 1);
    }
  }

  // ---------- which property decides ----------

  /** The property is neither empty nor without a reference. */
  predicate Effective(p: EnvVar) {
    p.value != "" || p.valueFrom.Some?
  }

  /** The source is configured and sets `key` by a property. */
  predicate Sets(source: DatasourceInfo, configured: seq<DataSource>, factories: Factories, key: string) {
    var c := FindConfigured(source.name, configured);
    c.Some? && SetBy(source, c.value.properties, factories, key)
  }

  predicate SetBy(source: DatasourceInfo, properties: seq<EnvVar>, factories: Factories, key: string) {
    exists j :: 0 <= j < |properties| && Effective(properties[j])
      && PropertyKey(source, properties[j].name, factories) == key
  }

  lemma {:induction false} LastWriteConcat(a: seq<EnvVar>, b: seq<EnvVar>, key: string)
    ensures LastWrite(a + b, key) == LastWrite(b, key).OrElse(LastWrite(a, key))
  {
    if b == [] {
      assert a + b == a;
    } else {
      assert (a + b)[..|a + b| - 1] == a + b[..|b| - 1];
      LastWriteConcat(a, b[..|b| - 1], key);
    }
  }

  /** A reference replaces the property's own literal value. */
  lemma PropertyDecides(p: EnvVar, k: string, key: string)
    ensures LastWrite(PropertyWrites(p, k), key) ==
      if k != key || !Effective(p) then None
      else if p.valueFrom.Some? then Some(From(key, p.valueFrom.value))
      else Some(Literal(key, p.value))
  {
    var value := if p.value != "" then [Literal(k, p.value)] else [];
    var reference := if p.valueFrom.Some? then [From(k, p.valueFrom.value)] else [];
    LastWriteConcat(value, reference, key);
  }

  /** What the last effective property with that key says. */
  lemma {:induction false} LastPropertyWins(source: DatasourceInfo, properties: seq<EnvVar>, factories: Factories,
                                            key: string, i: nat)
    requires i < |properties| && Effective(properties[i])
    requires PropertyKey(source, properties[i].name, factories) == key
    requires !SetBy(source, properties[i + 1..], factories, key)
    ensures LastWrite(Writes(source, properties, factories), key) == Some(
      if properties[i].valueFrom.Some? then From(key, properties[i].valueFrom.value)
      else Literal(key, properties[i].value))
    decreases |properties|
  {
    var front, p := properties[..|properties| - 1], properties[|properties| - 1];
    var k := PropertyKey(source, p.name, factories);
    LastWriteConcat(Writes(source, front, factories), PropertyWrites(p, k), key);
    PropertyDecides(p, k, key);
    if i < |front| {
      assert properties[i + 1..][|front| - i - 1] == p;
      assert front[i + 1..] == properties[i + 1..][..|front| - i - 1];
      LastPropertyWins(source, front, factories, key, i);
    }
  }

  lemma {:induction false} NotSetNotWritten(source: DatasourceInfo, properties: seq<EnvVar>, factories: Factories,
                                            key: string)
    requires !SetBy(source, properties, factories, key)
    ensures LastWrite(Writes(source, properties, factories), key) == None
  {
    if properties != [] {
      var front, p := properties[..|properties| - 1], properties[|properties| - 1];
      var k := PropertyKey(source, p.name, factories);
      LastWriteConcat(Writes(source, front, factories), PropertyWrites(p, k), key);
      PropertyDecides(p, k, key);
      assert forall j :: 0 <= j < |front| ==> properties[j] == front[j];
      NotSetNotWritten(source, front, factories, key);
    }
  }

  /** The last configured source that sets the key decides, by the last of its properties that do. */
  lemma {:induction false} LastSourceWins(sources: seq<DatasourceInfo>, configured: seq<DataSource>,
                                          factories: Factories, key: string, k: nat, i: nat)
    requires k < |sources|
    requires forall j :: k < j < |sources| ==> !Sets(sources[j], configured, factories, key)
    requires FindConfigured(sources[k].name, configured).Some?
    requires
      var properties := FindConfigured(sources[k].name, configured).value.properties;
      && i < |properties| && Effective(properties[i])
      && PropertyKey(sources[k], properties[i].name, factories) == key
      && !SetBy(sources[k], properties[i + 1..], factories, key)
    ensures
      var p := FindConfigured(sources[k].name, configured).value.properties[i];
      LastWrite(AllWrites(sources, configured, factories), key) ==
        Some(if p.valueFrom.Some? then From(key, p.valueFrom.value) else Literal(key, p.value))
    decreases |sources|
  {
    var front, source := sources[..|sources| - 1], sources[|sources| - 1];
    var c := FindConfigured(source.name, configured);
    var writes := if c.Some? then Writes(source, c.value.properties, factories) else [];
    LastWriteConcat(AllWrites(front, configured, factories), writes, key);
    if k == |front| {
      LastPropertyWins(source, c.value.properties, factories, key, i);
    } else {
      if c.Some? {
        NotSetNotWritten(source, c.value.properties, factories, key);
      }
      LastSourceWins(front, configured, factories, key, k, i);
    }
  }

  /** A key that no configured source sets does not occur. */
  lemma {:induction false} NoSourceSets(sources: seq<DatasourceInfo>, configured: seq<DataSource>,
                                        factories: Factories, key: string)
    requires forall j :: 0 <= j < |sources| ==> !Sets(sources[j], configured, factories, key)
    ensures LastWrite(AllWrites(sources, configured, factories), key) == None
  {
    if sources != [] {
      var front, source := sources[..|sources| - 1], sources[|sources| - 1];
      var c := FindConfigured(source.name, configured);
      var writes := if c.Some? then Writes(source, c.value.properties, factories) else [];
      LastWriteConcat(AllWrites(front, configured, factories), writes, key);
      if c.Some? {
        NotSetNotWritten(source, c.value.properties, factories, key);
      }
      NoSourceSets(front, configured, factories, key);
    }
  }
}
