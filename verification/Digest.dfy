/** pkg/controller/virtualdatabase/digest.go: the digests of a specification and of its configuration. */
module Digest {
  import opened Outcomes
  import opened Text
  import opened EnvVars
  import opened Vdb
  import SpringProperties

  /** The operator's version and its hash of a text in printable form. */
  datatype Hasher = Hasher(version: string, hash: string -> string)

  const UNREADABLE := "a referenced ConfigMap or Secret cannot be read"

  ghost predicate Injective(hash: string -> string) {
    forall a, b :: hash(a) == hash(b) ==> a == b
  }

  /** The text that is hashed: no separator between the parts. */
  function BuildText(h: Hasher, s: Source): string {
    h.version + s.ddl + s.maven + s.openApi + Concat(s.dependencies)
  }

  function BuildDigest(h: Hasher, s: Source): (r: string)
    ensures r != ""
  {
    "v" + h.hash(BuildText(h, s))
  }

  /** The text a variable contributes: its value, the revision of the object it refers to, or nothing. */
  function Revision(env: EnvVar, revisions: EnvSource -> Option<string>): Option<string> {
    if env.value != "" then Some(env.value)
    else if env.valueFrom.Some? && !env.valueFrom.value.FieldPath? then revisions(env.valueFrom.value)
    else Some("")
  }

  function Append(a: Option<string>, b: Option<string>): Option<string> {
    if a.Some? && b.Some? then Some(a.value + b.value) else None
  }

  function Revisions(envs: seq<EnvVar>, revisions: EnvSource -> Option<string>): Option<string> {
    if envs == [] then Some("")
    else Append(Revisions(envs[..|envs| - 1], revisions), Revision(envs[|envs| - 1], revisions))
  }

  function SourceRevisions(sources: seq<SpringProperties.DataSource>, revisions: EnvSource -> Option<string>)
    : Option<string>
  {
    if sources == [] then Some("")
    else
      var last := sources[|sources| - 1];
      Append(Append(SourceRevisions(sources[..|sources| - 1], revisions), Some(last.name)),
             Revisions(last.properties, revisions))
  }

  /** None when an object that a variable refers to cannot be read. */
  function ConfigDigest(h: Hasher, spec: Spec, revisions: EnvSource -> Option<string>): Option<string> {
    var text := Append(Revisions(spec.env, revisions), SourceRevisions(spec.dataSources, revisions));
    if text.Some? then Some("c" + h.hash(text.value)) else None
  }

  // ---------- properties ----------

  /** Under an injective hash two digests, be it of different operator versions, are the same exactly when
      version, DDL, Maven, OpenAPI and dependencies concatenate to the same text. */
  lemma DigestFaithful(h: Hasher, k: Hasher, s: Source, t: Source)
    requires Injective(h.hash) && k.hash == h.hash
    ensures BuildDigest(h, s) == BuildDigest(k, t) <==>
      h.version + s.ddl + s.maven + s.openApi + Concat(s.dependencies)
        == k.version + t.ddl + t.maven + t.openApi + Concat(t.dependencies)
  {
    var a, b := h.hash(BuildText(h, s)), h.hash(BuildText(k, t));
    assert ("v" + a)[1..] == a && ("v" + b)[1..] == b;
  }

  /** A new operator version gives every source another digest. */
  lemma VersionDetected(h: Hasher, k: Hasher, s: Source)
    requires Injective(h.hash) && k.hash == h.hash && k.version != h.version
    ensures BuildDigest(h, s) != BuildDigest(k, s)
  {
    var rest := s.ddl + s.maven + s.openApi + Concat(s.dependencies);
    DigestFaithful(h, k, s, s);
    VersionFirst(h, s);
    VersionFirst(k, s);
    FieldCounts("", h.version, k.version, rest);
    assert "" + h.version + rest == h.version + rest && "" + k.version + rest == k.version + rest;
  }

  lemma VersionFirst(h: Hasher, s: Source)
    ensures h.version + s.ddl + s.maven + s.openApi + Concat(s.dependencies)
      == h.version + (s.ddl + s.maven + s.openApi + Concat(s.dependencies))
  {}

  lemma {:induction false} ConcatMiddle(before: seq<string>, item: string, after: seq<string>)
    ensures Concat(before + [item] + after) == Concat(before) + item + Concat(after)
  {
    if before == [] {
      assert before + [item] + after == [item] + after;
      assert ([item] + after)[1..] == after;
    } else {
      assert (before + [item] + after)[1..] == before[1..] + [item] + after;
      ConcatMiddle(before[1..], item, after);
      assert before[0] + (Concat(before[1..]) + item + Concat(after))
        == before[0] + Concat(before[1..]) + item + Concat(after);
    }
  }

  lemma Cancel(before: string, a: string, b: string, after: string)
    ensures before + a + after == before + b + after ==> a == b
  {
    var x, y := before + a + after, before + b + after;
    if x == y {
      assert |a| == |b|;
      assert forall i :: 0 <= i < |a| ==> a[i] == x[|before| + i];
      assert forall i :: 0 <= i < |b| ==> b[i] == y[|before| + i];
    }
  }

  /** `t` differs from `s` in exactly one field, or in exactly one dependency. */
  ghost predicate OneEdit(s: Source, t: Source) {
    || (t == s.(ddl := t.ddl) && t.ddl != s.ddl)
    || (t == s.(maven := t.maven) && t.maven != s.maven)
    || (t == s.(openApi := t.openApi) && t.openApi != s.openApi)
    || exists i :: 0 <= i < |s.dependencies| && OneDependency(s, t, i)
  }

  ghost predicate OneDependency(s: Source, t: Source, i: nat)
    requires i < |s.dependencies|
  {
    && |t.dependencies| == |s.dependencies|
    && t == s.(dependencies := s.dependencies[i := t.dependencies[i]])
    && t.dependencies[i] != s.dependencies[i]
  }

  /** A change of one of the fields, or of one dependency, is always noticed. */
  lemma SingleEditDetected(h: Hasher, s: Source, t: Source)
    requires Injective(h.hash) && OneEdit(s, t)
    ensures BuildDigest(h, s) != BuildDigest(h, t)
  {
    DigestFaithful(h, h, s, t);
    if t.ddl != s.ddl {
      FieldCounts(h.version, s.ddl, t.ddl, s.maven + s.openApi + Concat(s.dependencies));
      Regroup(h, s);
      Regroup(h, t);
    } else if t.maven != s.maven {
      FieldCounts(h.version + s.ddl, s.maven, t.maven, s.openApi + Concat(s.dependencies));
      Regroup(h, s);
      Regroup(h, t);
    } else if t.openApi != s.openApi {
      FieldCounts(h.version + s.ddl + s.maven, s.openApi, t.openApi, Concat(s.dependencies));
    } else {
      var i :| 0 <= i < |s.dependencies| && OneDependency(s, t, i);
      DependencyCounts(h.version + s.ddl + s.maven + s.openApi, s.dependencies, t.dependencies, i);
    }
  }

  lemma FieldCounts(before: string, a: string, b: string, after: string)
    requires a != b
    ensures before + a + after != before + b + after
  {
    Cancel(before, a, b, after);
  }

  lemma DependencyCounts(front: string, a: seq<string>, b: seq<string>, i: nat)
    requires i < |a| == |b| && b == a[i := b[i]] && a[i] != b[i]
    ensures front + Concat(a) != front + Concat(b)
  {
    var before, after := Concat(a[..i]), Concat(a[i + 1..]);
    Around(a, i);
    Around(b, i);
    assert a[..i] == b[..i] && a[i + 1..] == b[i + 1..];
    FieldCounts(front + before, a[i], b[i], after);
    Shift(front, before, a[i], after);
    Shift(front, before, b[i], after);
  }

  lemma Around(a: seq<string>, i: nat)
    requires i < |a|
    ensures Concat(a) == Concat(a[..i]) + a[i] + Concat(a[i + 1..])
  {
    Parts(a, i);
    ConcatMiddle(a[..i], a[i], a[i + 1..]);
  }

  lemma Parts<T>(a: seq<T>, i: nat)
    requires i < |a|
    ensures a[..i] + [a[i]] + a[i + 1..] == a
  {}

  lemma Shift(front: string, before: string, x: string, after: string)
    ensures front + (before + x + after) == front + before + x + after
  {}

  lemma Regroup(h: Hasher, s: Source)
    ensures BuildText(h, s) == h.version + s.ddl + (s.maven + s.openApi + Concat(s.dependencies))
    ensures BuildText(h, s) == h.version + s.ddl + s.maven + (s.openApi + Concat(s.dependencies))
  {}

  /** Text moved across the boundary of two fields is not noticed, whatever the hash. */
  lemma BoundaryMoveUndetected(h: Hasher, s: Source, text: string)
    ensures BuildDigest(h, s.(ddl := s.ddl + text)) == BuildDigest(h, s.(maven := text + s.maven))
    ensures BuildDigest(h, s.(maven := s.maven + text)) == BuildDigest(h, s.(openApi := text + s.openApi))
  {
    assert h.version + (s.ddl + text) + s.maven == h.version + s.ddl + (text + s.maven);
    assert h.version + s.ddl + (s.maven + text) + s.openApi == h.version + s.ddl + s.maven + (text + s.openApi);
  }

  /** Nor is text moved from the OpenAPI document to the first dependency, or from one to the next. */
  lemma DependencyMoveUndetected(h: Hasher, s: Source, text: string, i: nat)
    requires i < |s.dependencies|
    ensures
      var behind := s.(dependencies := s.dependencies[i := text + s.dependencies[i]]);
      BuildDigest(h, behind) == BuildDigest(h,
        if i == 0 then s.(openApi := s.openApi + text)
        else s.(dependencies := s.dependencies[i - 1 := s.dependencies[i - 1] + text]))
  {
    var d, fields := s.dependencies, h.version + s.ddl + s.maven + s.openApi;
    var moved := d[i := text + d[i]];
    Around(moved, i);
    assert moved[..i] == d[..i] && moved[i + 1..] == d[i + 1..];
    if i == 0 {
      FromField(h.version + s.ddl + s.maven, s.openApi, text, d);
    } else {
      var kept := d[i - 1 := d[i - 1] + text];
      Around(kept, i);
      assert kept[..i] == d[..i - 1] + [d[i - 1] + text] && kept[i + 1..] == d[i + 1..];
      assert d[..i] == d[..i - 1] + [d[i - 1]];
      ConcatSnoc(d[..i - 1], d[i - 1] + text);
      ConcatSnoc(d[..i - 1], d[i - 1]);
      Cut(Concat(d[..i - 1]), d[i - 1], text, d[i], Concat(d[i + 1..]));
    }
  }

  lemma FromField(front: string, openApi: string, text: string, d: seq<string>)
    requires d != []
    ensures front + openApi + Concat(d[0 := text + d[0]]) == front + (openApi + text) + Concat(d)
  {
    assert d[0 := text + d[0]][1..] == d[1..];
    Cut(front, openApi, text, d[0], Concat(d[1..]));
    Shift(front + openApi, "", text + d[0], Concat(d[1..]));
    Shift(front + (openApi + text), "", d[0], Concat(d[1..]));
  }

  lemma Cut(a: string, b: string, text: string, c: string, e: string)
    ensures a + b + (text + c) + e == a + (b + text) + c + e
  {}

  // ---------- the digest of the configuration ----------

  function EnvPieces(envs: seq<EnvVar>, revisions: EnvSource -> Option<string>): seq<string> {
    seq(|envs|, i requires 0 <= i < |envs| => Revision(envs[i], revisions).GetOr(""))
  }

  function SourcePieces(sources: seq<SpringProperties.DataSource>, revisions: EnvSource -> Option<string>)
    : seq<string>
  {
    if sources == [] then []
    else
      var last := sources[|sources| - 1];
      SourcePieces(sources[..|sources| - 1], revisions) + [last.name] + EnvPieces(last.properties, revisions)
  }

  /** What is hashed, piece by piece. */
  function Pieces(spec: Spec, revisions: EnvSource -> Option<string>): seq<string> {
    EnvPieces(spec.env, revisions) + SourcePieces(spec.dataSources, revisions)
  }

  lemma {:induction false} ConcatTwo(a: seq<string>, b: seq<string>)
    ensures Concat(a + b) == Concat(a) + Concat(b)
  {
    if a == [] {
      assert a + b == b;
    } else {
      assert (a + b)[1..] == a[1..] + b;
      ConcatTwo(a[1..], b);
      assert a[0] + (Concat(a[1..]) + Concat(b)) == a[0] + Concat(a[1..]) + Concat(b);
    }
  }

  lemma {:induction false} RevisionsInPieces(envs: seq<EnvVar>, revisions: EnvSource -> Option<string>)
    requires Revisions(envs, revisions).Some?
    ensures Revisions(envs, revisions).value == Concat(EnvPieces(envs, revisions))
  {
    if envs != [] {
      var n := |envs| - 1;
      RevisionsInPieces(envs[..n], revisions);
      assert EnvPieces(envs, revisions) == EnvPieces(envs[..n], revisions) + [Revision(envs[n], revisions).value];
      ConcatSnoc(EnvPieces(envs[..n], revisions), Revision(envs[n], revisions).value);
    }
  }

  lemma {:induction false} SourcesInPieces(sources: seq<SpringProperties.DataSource>,
                                           revisions: EnvSource -> Option<string>)
    requires SourceRevisions(sources, revisions).Some?
    ensures SourceRevisions(sources, revisions).value == Concat(SourcePieces(sources, revisions))
  {
    if sources != [] {
      var front, last := sources[..|sources| - 1], sources[|sources| - 1];
      SourcesInPieces(front, revisions);
      RevisionsInPieces(last.properties, revisions);
      ConcatSnoc(SourcePieces(front, revisions), last.name);
      ConcatTwo(SourcePieces(front, revisions) + [last.name], EnvPieces(last.properties, revisions));
    }
  }

  lemma ConfigInPieces(h: Hasher, spec: Spec, revisions: EnvSource -> Option<string>)
    requires ConfigDigest(h, spec, revisions).Some?
    ensures ConfigDigest(h, spec, revisions).value == "c" + h.hash(Concat(Pieces(spec, revisions)))
  {
    RevisionsInPieces(spec.env, revisions);
    SourcesInPieces(spec.dataSources, revisions);
    ConcatTwo(EnvPieces(spec.env, revisions), SourcePieces(spec.dataSources, revisions));
  }

  /** `q` is `p` with `y` in place of some pieces `x`. */
  predicate Replaced(p: seq<string>, q: seq<string>, x: string, y: string) {
    |p| == |q| && forall i :: 0 <= i < |p| ==> p[i] == q[i] || (p[i] == x && q[i] == y)
  }

  lemma {:induction false} ReplacedLength(p: seq<string>, q: seq<string>, x: string, y: string)
    requires Replaced(p, q, x, y)
    ensures |x| <= |y| ==> |Concat(p)| <= |Concat(q)|
    ensures |x| < |y| && p != q ==> |Concat(p)| < |Concat(q)|
  {
    if p != [] {
      ReplacedLength(p[1..], q[1..], x, y);
      assert p == [p[0]] + p[1..] && q == [q[0]] + q[1..];
    }
  }

  lemma {:induction false} ReplacedDiffers(p: seq<string>, q: seq<string>, x: string, y: string)
    requires Replaced(p, q, x, y) && p != q
    ensures Concat(p) != Concat(q)
  {
    if |x| < |y| {
      ReplacedLength(p, q, x, y);
    } else if |y| < |x| {
      ReplacedLength(q, p, y, x);
    } else {
      var a, b := Concat(p[1..]), Concat(q[1..]);
      assert Concat(p)[..|p[0]|] == p[0] && Concat(p)[|p[0]|..] == a;
      assert Concat(q)[..|q[0]|] == q[0] && Concat(q)[|q[0]|..] == b;
      if p[0] == q[0] {
        assert p == [p[0]] + p[1..] && q == [q[0]] + q[1..];
        ReplacedDiffers(p[1..], q[1..], x, y);
      }
    }
  }

  lemma PiecesDetected(h: Hasher, s: Spec, t: Spec, before: EnvSource -> Option<string>,
                       after: EnvSource -> Option<string>, x: string, y: string)
    requires Injective(h.hash) && ConfigDigest(h, s, before).Some? && ConfigDigest(h, t, after).Some?
    requires Replaced(Pieces(s, before), Pieces(t, after), x, y) && Pieces(s, before) != Pieces(t, after)
    ensures ConfigDigest(h, s, before) != ConfigDigest(h, t, after)
  {
    ConfigInPieces(h, s, before);
    ConfigInPieces(h, t, after);
    ReplacedDiffers(Pieces(s, before), Pieces(t, after), x, y);
    var a, b := h.hash(Concat(Pieces(s, before))), h.hash(Concat(Pieces(t, after)));
    assert ("c" + a)[1..] == a && ("c" + b)[1..] == b;
  }

  /** A variable without a value of its own that refers to a key of a ConfigMap or Secret. */
  predicate RefersTo(v: EnvVar, source: EnvSource) {
    v.value == "" && v.valueFrom == Some(source) && (source.ConfigMapKey? || source.SecretKey?)
  }

  predicate SomeRefers(envs: seq<EnvVar>, source: EnvSource) {
    exists i :: 0 <= i < |envs| && RefersTo(envs[i], source)
  }

  /** A variable or a property of some data source refers to it. */
  predicate Referred(spec: Spec, source: EnvSource) {
    || SomeRefers(spec.env, source)
    || exists k :: 0 <= k < |spec.dataSources| && SomeRefers(spec.dataSources[k].properties, source)
  }

  lemma EnvReplaced(envs: seq<EnvVar>, before: EnvSource -> Option<string>, after: EnvSource -> Option<string>,
                    x: string, y: string, source: EnvSource)
    requires forall r :: after(r) == before(r) || (before(r) == Some(x) && after(r) == Some(y))
    ensures Replaced(EnvPieces(envs, before), EnvPieces(envs, after), x, y)
    ensures SomeRefers(envs, source) && before(source) == Some(x) != Some(y) == after(source)
      ==> EnvPieces(envs, before) != EnvPieces(envs, after)
  {
    if SomeRefers(envs, source) && before(source) == Some(x) != Some(y) == after(source) {
      var i :| 0 <= i < |envs| && RefersTo(envs[i], source);
      assert EnvPieces(envs, before)[i] == x && EnvPieces(envs, after)[i] == y;
    }
  }

  lemma ReplacedConcat(a: seq<string>, b: seq<string>, c: seq<string>, d: seq<string>, x: string, y: string)
    requires Replaced(a, b, x, y) && Replaced(c, d, x, y)
    ensures Replaced(a + c, b + d, x, y)
    ensures a + c == b + d <==> a == b && c == d
  {
    if a + c == b + d {
      assert a == (a + c)[..|a|] == b && c == (a + c)[|a|..] == d;
    }
  }

  lemma {:induction false} SourcesReplaced(sources: seq<SpringProperties.DataSource>,
                                           before: EnvSource -> Option<string>, after: EnvSource -> Option<string>,
                                           x: string, y: string, source: EnvSource)
    requires forall r :: after(r) == before(r) || (before(r) == Some(x) && after(r) == Some(y))
    requires before(source) == Some(x) != Some(y) == after(source)
    ensures Replaced(SourcePieces(sources, before), SourcePieces(sources, after), x, y)
    ensures (exists k :: 0 <= k < |sources| && SomeRefers(sources[k].properties, source))
      ==> SourcePieces(sources, before) != SourcePieces(sources, after)
  {
    if sources != [] {
      var n := |sources| - 1;
      var front, last := sources[..n], sources[n];
      SourcesReplaced(front, before, after, x, y, source);
      EnvReplaced(last.properties, before, after, x, y, source);
      var p, q := SourcePieces(front, before), SourcePieces(front, after);
      ReplacedConcat(p, q, [last.name], [last.name], x, y);
      ReplacedConcat(p + [last.name], q + [last.name], EnvPieces(last.properties, before),
                     EnvPieces(last.properties, after), x, y);
      if k :| 0 <= k < |sources| && SomeRefers(sources[k].properties, source) {
        assert k < n ==> front[k] == sources[k];
      }
    }
  }

  /** A new revision of a ConfigMap or Secret is always noticed when something refers to it, however many
      variables and data source properties do. */
  lemma RevisionDetected(h: Hasher, spec: Spec, before: EnvSource -> Option<string>,
                         after: EnvSource -> Option<string>, x: string, y: string, source: EnvSource)
    requires Injective(h.hash) && ConfigDigest(h, spec, before).Some? && ConfigDigest(h, spec, after).Some?
    requires forall r :: after(r) == before(r) || (before(r) == Some(x) && after(r) == Some(y))
    requires before(source) == Some(x) != Some(y) == after(source) && Referred(spec, source)
    ensures ConfigDigest(h, spec, before) != ConfigDigest(h, spec, after)
  {
    EnvReplaced(spec.env, before, after, x, y, source);
    SourcesReplaced(spec.dataSources, before, after, x, y, source);
    ReplacedConcat(EnvPieces(spec.env, before), EnvPieces(spec.env, after),
                   SourcePieces(spec.dataSources, before), SourcePieces(spec.dataSources, after), x, y);
    PiecesDetected(h, spec, spec, before, after, x, y);
  }

  /** A changed value of one variable is always noticed. */
  lemma LiteralDetected(h: Hasher, spec: Spec, revisions: EnvSource -> Option<string>, i: nat, value: string)
    requires Injective(h.hash) && i < |spec.env| && spec.env[i].value != "" && value != "" && value != spec.env[i].value
    requires ConfigDigest(h, spec, revisions).Some?
    ensures
      var t := spec.(env := spec.env[i := spec.env[i].(value := value)]);
      ConfigDigest(h, t, revisions).Some? ==> ConfigDigest(h, spec, revisions) != ConfigDigest(h, t, revisions)
  {
    var t := spec.(env := spec.env[i := spec.env[i].(value := value)]);
    var p, q := EnvPieces(spec.env, revisions), EnvPieces(t.env, revisions);
    var rest := SourcePieces(spec.dataSources, revisions);
    assert p[i] == spec.env[i].value && q[i] == value;
    assert Replaced(p, q, spec.env[i].value, value);
    assert Replaced(rest, rest, spec.env[i].value, value);
    ReplacedConcat(p, q, rest, rest, spec.env[i].value, value);
    if ConfigDigest(h, t, revisions).Some? {
      PiecesDetected(h, spec, t, revisions, revisions, spec.env[i].value, value);
    }
  }

  function PiecesOf(source: SpringProperties.DataSource, revisions: EnvSource -> Option<string>): seq<string> {
    [source.name] + EnvPieces(source.properties, revisions)
  }

  lemma {:induction false} OneSourceReplaced(s: seq<SpringProperties.DataSource>, t: seq<SpringProperties.DataSource>,
                                             k: nat, revisions: EnvSource -> Option<string>, x: string, y: string)
    requires k < |s| == |t| && t == s[k := t[k]]
    requires Replaced(PiecesOf(s[k], revisions), PiecesOf(t[k], revisions), x, y)
    requires PiecesOf(s[k], revisions) != PiecesOf(t[k], revisions)
    ensures Replaced(SourcePieces(s, revisions), SourcePieces(t, revisions), x, y)
    ensures SourcePieces(s, revisions) != SourcePieces(t, revisions)
  {
    var n := |s| - 1;
    LastPieces(s, revisions);
    LastPieces(t, revisions);
    if k == n {
      assert s[..n] == t[..n];
    } else {
      assert s[n] == t[n] && t[..n] == s[..n][k := t[k]];
      OneSourceReplaced(s[..n], t[..n], k, revisions, x, y);
    }
    ReplacedConcat(SourcePieces(s[..n], revisions), SourcePieces(t[..n], revisions),
                   PiecesOf(s[n], revisions), PiecesOf(t[n], revisions), x, y);
  }

  lemma LastPieces(s: seq<SpringProperties.DataSource>, revisions: EnvSource -> Option<string>)
    requires s != []
    ensures SourcePieces(s, revisions) == SourcePieces(s[..|s| - 1], revisions) + PiecesOf(s[|s| - 1], revisions)
  {}

  lemma SourceDetected(h: Hasher, spec: Spec, revisions: EnvSource -> Option<string>, k: nat,
                       source: SpringProperties.DataSource, x: string, y: string)
    requires Injective(h.hash) && k < |spec.dataSources| && ConfigDigest(h, spec, revisions).Some?
    requires Replaced(PiecesOf(spec.dataSources[k], revisions), PiecesOf(source, revisions), x, y)
    requires PiecesOf(spec.dataSources[k], revisions) != PiecesOf(source, revisions)
    ensures
      var t := spec.(dataSources := spec.dataSources[k := source]);
      ConfigDigest(h, t, revisions).Some? ==> ConfigDigest(h, spec, revisions) != ConfigDigest(h, t, revisions)
  {
    var t := spec.(dataSources := spec.dataSources[k := source]);
    OneSourceReplaced(spec.dataSources, t.dataSources, k, revisions, x, y);
    var p := EnvPieces(spec.env, revisions);
    ReplacedConcat(p, p, SourcePieces(spec.dataSources, revisions), SourcePieces(t.dataSources, revisions), x, y);
    if ConfigDigest(h, t, revisions).Some? {
      PiecesDetected(h, spec, t, revisions, revisions, x, y);
    }
  }

  /** So is another name of a data source. */
  lemma NameDetected(h: Hasher, spec: Spec, revisions: EnvSource -> Option<string>, k: nat, name: string)
    requires Injective(h.hash) && k < |spec.dataSources| && name != spec.dataSources[k].name
    requires ConfigDigest(h, spec, revisions).Some?
    ensures
      var t := spec.(dataSources := spec.dataSources[k := spec.dataSources[k].(name := name)]);
      ConfigDigest(h, t, revisions).Some? ==> ConfigDigest(h, spec, revisions) != ConfigDigest(h, t, revisions)
  {
    var source := spec.dataSources[k];
    assert PiecesOf(source, revisions)[0] == source.name && PiecesOf(source.(name := name), revisions)[0] == name;
    SourceDetected(h, spec, revisions, k, source.(name := name), source.name, name);
  }

  /** And another literal value of one of its properties. */
  lemma PropertyDetected(h: Hasher, spec: Spec, revisions: EnvSource -> Option<string>, k: nat, j: nat, value: string)
    requires Injective(h.hash) && k < |spec.dataSources| && j < |spec.dataSources[k].properties|
    requires spec.dataSources[k].properties[j].value !in ["", value] && value != ""
    requires ConfigDigest(h, spec, revisions).Some?
    ensures
      var source := spec.dataSources[k];
      var p := source.properties[j].(value := value);
      var t := spec.(dataSources := spec.dataSources[k := source.(properties := source.properties[j := p])]);
      ConfigDigest(h, t, revisions).Some? ==> ConfigDigest(h, spec, revisions) != ConfigDigest(h, t, revisions)
  {
    var source := spec.dataSources[k];
    var p := source.properties[j].(value := value);
    var changed := source.(properties := source.properties[j := p]);
    assert PiecesOf(source, revisions)[j + 1] == source.properties[j].value;
    assert PiecesOf(changed, revisions)[j + 1] == value;
    SourceDetected(h, spec, revisions, k, changed, source.properties[j].value, value);
  }

  /** A variable refers to an object that cannot be read. */
  predicate Unreadable(envs: seq<EnvVar>, revisions: EnvSource -> Option<string>) {
    exists i :: 0 <= i < |envs| && UnreadableAt(envs[i], revisions)
  }

  predicate UnreadableAt(v: EnvVar, revisions: EnvSource -> Option<string>) {
    v.valueFrom.Some? && RefersTo(v, v.valueFrom.value) && revisions(v.valueFrom.value).None?
  }

  /** There is no digest if and only if a variable or a property refers to an object that cannot be read. */
  lemma UnreadableExactly(h: Hasher, spec: Spec, revisions: EnvSource -> Option<string>)
    ensures ConfigDigest(h, spec, revisions).None? <==>
      || Unreadable(spec.env, revisions)
      || exists k :: 0 <= k < |spec.dataSources| && Unreadable(spec.dataSources[k].properties, revisions)
  {
    NoRevisions(spec.env, revisions);
    NoSourceRevisions(spec.dataSources, revisions);
  }

  lemma {:induction false} NoRevisions(envs: seq<EnvVar>, revisions: EnvSource -> Option<string>)
    ensures Revisions(envs, revisions).None? <==> Unreadable(envs, revisions)
  {
    if envs != [] {
      var n := |envs| - 1;
      NoRevisions(envs[..n], revisions);
      assert forall i :: 0 <= i < n ==> envs[..n][i] == envs[i];
      assert Revision(envs[n], revisions).None? <==> UnreadableAt(envs[n], revisions);
    }
  }

  lemma {:induction false} NoSourceRevisions(sources: seq<SpringProperties.DataSource>,
                                             revisions: EnvSource -> Option<string>)
    ensures SourceRevisions(sources, revisions).None? <==>
      exists k :: 0 <= k < |sources| && Unreadable(sources[k].properties, revisions)
  {
    if sources != [] {
      var n := |sources| - 1;
      NoSourceRevisions(sources[..n], revisions);
      NoRevisions(sources[n].properties, revisions);
      assert forall k :: 0 <= k < n ==> sources[..n][k] == sources[k];
    }
  }

  // ---------- the operations ----------

  /** A running hash: what has been written so far. */
  class HashState {
    var written: string

    constructor ()
      ensures written == ""
    {
      written := "";
    }

    method Write(text: string)
      modifies this
      ensures written == old(written) + text
    {
      written := written + text;
    }
  }

  method ComputeForVirtualDatabase(h: Hasher, s: Source) returns (digest: string)
    ensures digest == BuildDigest(h, s)
  {
    var hash := new HashState();
    hash.Write(h.version);
    if s.ddl != "" {
      hash.Write(s.ddl);
    }
    if s.maven != "" {
      hash.Write(s.maven);
    }
    if s.openApi != "" {
      hash.Write(s.openApi);
    }
    ghost var fields := hash.written;
    assert fields == h.version + s.ddl + s.maven + s.openApi;
    var i := 0;
    while i < |s.dependencies|
      invariant 0 <= i <= |s.dependencies|
      invariant hash.written == fields + Concat(s.dependencies[..i])
    {
      assert s.dependencies[..i + 1] == s.dependencies[..i] + [s.dependencies[i]];
      ConcatSnoc(s.dependencies[..i], s.dependencies[i]);
      hash.Write(s.dependencies[i]);
      i := i + 1;
    }
    assert s.dependencies[..i] == s.dependencies;
    return "v" + h.hash(hash.written);
  }

  /** Writes the revisions of `envs`; false when one cannot be read. */
  method WriteRevisions(hash: HashState, envs: seq<EnvVar>, revisions: EnvSource -> Option<string>)
    returns (ok: bool)
    modifies hash
    ensures ok <==> Revisions(envs, revisions).Some?
    ensures ok ==> hash.written == old(hash.written) + Revisions(envs, revisions).value
  {
    var i := 0;
    while i < |envs|
      invariant 0 <= i <= |envs|
      invariant Revisions(envs[..i], revisions).Some?
      invariant hash.written == old(hash.written) + Revisions(envs[..i], revisions).value
    {
      assert envs[..i + 1][..i] == envs[..i];
      var str := Revision(envs[i], revisions);
      if str.None? {
        UnreadableStays(envs, i + 1, revisions);
        return false;
      }
      hash.Write(str.value);
      i := i + 1;
    }
    assert envs[..i] == envs;
    return true;
  }

  lemma {:induction false} UnreadableStays(envs: seq<EnvVar>, i: nat, revisions: EnvSource -> Option<string>)
    requires i <= |envs| && Revisions(envs[..i], revisions).None?
    ensures Revisions(envs, revisions).None?
    decreases |envs|
  {
    if i < |envs| {
      assert envs[..|envs| - 1][..i] == envs[..i];
      UnreadableStays(envs[..|envs| - 1], i, revisions);
    } else {
      assert envs[..i] == envs;
    }
  }

  lemma {:induction false} UnreadableSourceStays(sources: seq<SpringProperties.DataSource>, i: nat,
                                                 revisions: EnvSource -> Option<string>)
    requires i <= |sources| && SourceRevisions(sources[..i], revisions).None?
    ensures SourceRevisions(sources, revisions).None?
    decreases |sources|
  {
    if i < |sources| {
      assert sources[..|sources| - 1][..i] == sources[..i];
      UnreadableSourceStays(sources[..|sources| - 1], i, revisions);
    } else {
      assert sources[..i] == sources;
    }
  }

  /** Writes the names and revisions of the data sources; false when one cannot be read. */
  method WriteSources(hash: HashState, sources: seq<SpringProperties.DataSource>,
                      revisions: EnvSource -> Option<string>)
    returns (ok: bool)
    modifies hash
    ensures ok <==> SourceRevisions(sources, revisions).Some?
    ensures ok ==> hash.written == old(hash.written) + SourceRevisions(sources, revisions).value
  {
    var i := 0;
    while i < |sources|
      invariant 0 <= i <= |sources|
      invariant SourceRevisions(sources[..i], revisions).Some?
      invariant hash.written == old(hash.written) + SourceRevisions(sources[..i], revisions).value
    {
      assert sources[..i + 1][..i] == sources[..i];
      hash.Write(sources[i].name);
      ok := WriteRevisions(hash, sources[i].properties, revisions);
      if !ok {
        UnreadableSourceStays(sources, i + 1, revisions);
        return false;
      }
      i := i + 1;
    }
    assert sources[..i] == sources;
    return true;
  }

  method ComputeConfigDigest(h: Hasher, spec: Spec, revisions: EnvSource -> Option<string>)
    returns (r: Option<string>)
    ensures r == ConfigDigest(h, spec, revisions)
  {
    var hashVal := new HashState();
    var ok := WriteRevisions(hashVal, spec.env, revisions);
    if !ok {
      return None;
    }
    ok := WriteSources(hashVal, spec.dataSources, revisions);
    if !ok {
      return None;
    }
    ghost var envs := Revisions(spec.env, revisions).value;
    assert "" + envs == envs;
    return Some("c" + h.hash(hashVal.written));
  }
}
