/** pkg/util/maven: coordinates (group, artifact, packaging type, classifier, version) and dependencies. */
module Maven {
  import opened Outcomes
  import opened Text
  import opened FirstWins

  datatype Dependency = Dependency(
    groupId: string, artifactId: string, version: string, packaging: string, classifier: string)

  /** A dependency in which only the first three parts are filled. */
  function Plain(groupId: string, artifactId: string, version: string): Dependency {
    Dependency(groupId, artifactId, version, "", "")
  }

  const BY_COORDINATES: Dependency -> (string, string) := (d: Dependency) => (d.groupId, d.artifactId)

  // ---------- ParseGAV ----------

  /** The class [^: ] of the coordinate pattern. */
  predicate IsPart(c: char) { c != ':' && c != ' ' }

  /** The longest run of part characters at the start of `s`. */
  function Run(s: string): (r: string)
    ensures r <= s
    ensures forall i :: 0 <= i < |r| ==> IsPart(r[i])
    ensures |r| < |s| ==> !IsPart(s[|r|])
  {
    if s == "" || !IsPart(s[0]) then "" else [s[0]] + Run(s[1..])
  }

  /** The groups 1, 2, 4, 6 and 8 of a match; a group that took no part is empty. */
  datatype Groups = Groups(first: string, second: string, fourth: string, sixth: string, eighth: string)

  /** An optional `:` with a non-empty run behind it. */
  function ColonRun(s: string): string {
    if s != "" && s[0] == ':' then Run(s[1..]) else ""
  }

  function AfterColonRun(s: string): string {
    if ColonRun(s) == "" then s else s[1 + |ColonRun(s)|..]
  }

  /** The match that starts at the start of `s`. The runs are maximal: what follows a run in the pattern
      never starts with a part character. */
  function GavHere(s: string): Option<Groups> {
    var first := Run(s);
    var s1 := s[|first|..];
    if first == "" || ColonRun(s1) == "" then None
    else
      var second, s2 := ColonRun(s1), AfterColonRun(s1);
      if s2 == "" || s2[0] != ':' then Some(Groups(first, second, "", "", ""))
      else
        var fourth := Run(s2[1..]);
        var s4 := s2[1 + |fourth|..];
        var sixth, s6 := ColonRun(s4), AfterColonRun(s4);
        Some(Groups(first, second, fourth, sixth, ColonRun(s6)))
  }

  /** The leftmost match. */
  function FindGav(s: string): Option<Groups> {
    if GavHere(s).Some? then GavHere(s)
    else if s == "" then None
    else FindGav(s[1..])
  }

  function Count(s: string, c: char): nat {
    if s == "" then 0 else (if s[0] == c then 1 else 0) + Count(s[1..], c)
  }

  const GAV_ERROR :=
    "GAV must match <groupId>:<artifactId>[:<packagingType>[:<classifier>]]:(<version>|'?')"

  function ParseGAV(gav: string): Result<Dependency> {
    match FindGav(gav)
    case None => Failure(GAV_ERROR)
    case Some(g) =>
      var colons := Count(gav, ':');
      if colons == 2 then Success(Dependency(g.first, g.second, g.fourth, "jar", ""))
      else if colons == 3 then Success(Dependency(g.first, g.second, g.sixth, g.fourth, ""))
      else Success(Dependency(g.first, g.second, g.eighth, g.fourth, g.sixth))
  }

  predicate IsFatJar(maven: string) {
    maven != "" && !Contains(maven, ":vdb:")
  }

  // ---------- properties ----------

  predicate PartText(s: string) {
    forall i :: 0 <= i < |s| ==> IsPart(s[i])
  }

  /** A dependency whose parts can be printed; the packaging type may be empty. */
  predicate Printable(d: Dependency) {
    && d.groupId != "" && d.artifactId != "" && d.version != ""
    && PartText(d.groupId) && PartText(d.artifactId) && PartText(d.version)
    && PartText(d.packaging) && PartText(d.classifier)
  }

  datatype Form = Three | Four | Five

  /** The parts of a coordinate with three, four or five of them. */
  function Parts(d: Dependency, form: Form): seq<string> {
    match form
    case Three => [d.groupId, d.artifactId, d.version]
    case Four => [d.groupId, d.artifactId, d.packaging, d.version]
    case Five => [d.groupId, d.artifactId, d.packaging, d.classifier, d.version]
  }

  predicate Fits(d: Dependency, form: Form) {
    match form
    case Three => d.packaging == "jar" && d.classifier == ""
    case Four => d.classifier == ""
    case Five => d.classifier != ""
  }

  lemma {:induction false} RunOf(w: string, rest: string)
    requires PartText(w) && (rest == "" || !IsPart(rest[0]))
    ensures Run(w + rest) == w
  {
    if w == "" {
      assert w + rest == rest;
    } else {
      assert (w + rest)[1..] == w[1..] + rest;
      RunOf(w[1..], rest);
    }
  }

  lemma ColonRunOf(w: string, rest: string)
    requires PartText(w) && w != "" && (rest == "" || !IsPart(rest[0]))
    ensures ColonRun(":" + w + rest) == w && AfterColonRun(":" + w + rest) == rest
  {
    var s := ":" + w + rest;
    assert s[1..] == w + rest;
    RunOf(w, rest);
    assert s[1 + |w|..] == rest;
  }

  /** The text behind the first two parts. */
  function Tail(d: Dependency, form: Form): string {
    match form
    case Three => ":" + d.version
    case Four => ":" + d.packaging + (":" + d.version)
    case Five => ":" + d.packaging + (":" + d.classifier + (":" + d.version))
  }

  function Printed(d: Dependency, form: Form): string {
    d.groupId + (":" + d.artifactId + Tail(d, form))
  }

  lemma PrintedIsJoined(d: Dependency, form: Form)
    ensures Printed(d, form) == Join(Parts(d, form), ":")
  {
    var ps := Parts(d, form);
    assert ps[1..][0] == ps[1] && ps[1..][1..][0] == ps[2];
    assert Join(ps[|ps| - 1..], ":") == d.version;
    if form == Three {
      assert ps[1..][1..] == ps[2..];
    } else if form == Four {
      assert ps[1..][1..] == ps[2..] && ps[2..][1..] == ps[3..];
      assert Join(ps[2..], ":") == d.packaging + ":" + d.version;
    } else {
      assert ps[1..][1..] == ps[2..] && ps[2..][1..] == ps[3..] && ps[3..][1..] == ps[4..];
      assert Join(ps[3..], ":") == d.classifier + ":" + d.version;
      assert Join(ps[2..], ":") == d.packaging + ":" + (d.classifier + ":" + d.version);
    }
    var j2 := Join(ps[2..], ":");
    assert Tail(d, form) == ":" + j2;
    assert Join(ps[1..], ":") == d.artifactId + ":" + j2;
    assert Join(ps, ":") == d.groupId + ":" + (d.artifactId + ":" + j2);
  }

  lemma {:induction false} CountConcat(a: string, b: string, c: char)
    ensures Count(a + b, c) == Count(a, c) + Count(b, c)
  {
    if a == "" {
      assert a + b == b;
    } else {
      assert (a + b)[1..] == a[1..] + b;
      CountConcat(a[1..], b, c);
    }
  }

  lemma {:induction false} NoColons(w: string)
    requires PartText(w)
    ensures Count(w, ':') == 0
  {
    if w != "" {
      NoColons(w[1..]);
    }
  }

  lemma CountColon(w: string, rest: string)
    requires PartText(w)
    ensures Count(":" + w + rest, ':') == 1 + Count(rest, ':')
  {
    assert (":" + w + rest)[1..] == w + rest;
    CountConcat(w, rest, ':');
    NoColons(w);
  }

  lemma LastColon(w: string)
    requires PartText(w)
    ensures Count(":" + w, ':') == 1
  {
    CountColon(w, "");
    assert ":" + w + "" == ":" + w;
  }

  lemma PrintedColons(d: Dependency, form: Form)
    requires Printable(d)
    ensures Count(Printed(d, form), ':') == match form case Three => 2 case Four => 3 case Five => 4
  {
    CountConcat(d.groupId, ":" + d.artifactId + Tail(d, form), ':');
    NoColons(d.groupId);
    CountColon(d.artifactId, Tail(d, form));
    LastColon(d.version);
    if form == Four {
      CountColon(d.packaging, ":" + d.version);
    } else if form == Five {
      CountColon(d.packaging, ":" + d.classifier + (":" + d.version));
      CountColon(d.classifier, ":" + d.version);
    }
  }

  /** The groups found behind the first two parts. */
  lemma TailGroups(d: Dependency, form: Form)
    requires Printable(d) && Fits(d, form)
    ensures
      var s2 := Tail(d, form);
      var fourth := Run(s2[1..]);
      var s4 := s2[1 + |fourth|..];
      match form
      case Three => fourth == d.version
      case Four => fourth == d.packaging && ColonRun(s4) == d.version
      case Five => fourth == d.packaging && ColonRun(s4) == d.classifier && ColonRun(AfterColonRun(s4)) == d.version
  {
    var s2 := Tail(d, form);
    var v := ":" + d.version;
    assert v + "" == v;
    ColonRunOf(d.version, "");
    if form == Three {
      assert s2[1..] == d.version + "";
      RunOf(d.version, "");
    } else {
      var rest := if form == Four then v else ":" + d.classifier + v;
      PackagingThen(d, form, rest);
      RunOf(d.packaging, rest);
      if form == Five {
        ColonRunOf(d.classifier, v);
      }
    }
  }

  lemma PackagingThen(d: Dependency, form: Form, rest: string)
    requires form != Three
    requires rest == if form == Four then ":" + d.version else ":" + d.classifier + (":" + d.version)
    ensures Tail(d, form)[1..] == d.packaging + rest && Tail(d, form)[1 + |d.packaging|..] == rest
  {}

  /** ParseGAV inverts printing for coordinates of three, four and five parts. */
  lemma ParsePrintedGav(d: Dependency, form: Form)
    requires Printable(d) && Fits(d, form)
    ensures ParseGAV(Join(Parts(d, form), ":")) == Success(d)
  {
    PrintedIsJoined(d, form);
    PrintedColons(d, form);
    TailGroups(d, form);
    var s := Printed(d, form);
    var s1 := ":" + d.artifactId + Tail(d, form);
    RunOf(d.groupId, s1);
    assert s[|d.groupId|..] == s1;
    ColonRunOf(d.artifactId, Tail(d, form));
  }

  /** A colon with a part character on either side. */
  predicate Joint(s: string, i: int) {
    1 <= i < |s| - 1 && s[i] == ':' && IsPart(s[i - 1]) && IsPart(s[i + 1])
  }

  /** Behind the first run there is such a colon exactly when a coordinate starts here. */
  lemma GavStartsHere(s: string)
    ensures GavHere(s).Some? <==> Run(s) != "" && Joint(s, |Run(s)|)
  {
    var n := |Run(s)|;
    if 0 < n < |s| - 1 {
      assert s[n..][0] == s[n] && s[n..][1..][0] == s[n + 1];
      assert IsPart(s[n - 1]) by {
        assert Run(s)[n - 1] == s[n - 1];
      }
    }
  }

  lemma JointBehind(s: string, i: int)
    requires s != ""
    ensures i > 1 ==> (Joint(s[1..], i - 1) <==> Joint(s, i))
    ensures Joint(s, 1) ==> GavHere(s).Some?
  {
    if Joint(s, 1) {
      assert s[1..][0] == s[1] && Run(s[1..]) == "";
      assert Run(s) == [s[0]] + "";
      GavStartsHere(s);
    }
  }

  lemma {:induction false} JointFound(s: string, i: int)
    requires Joint(s, i)
    ensures FindGav(s).Some?
  {
    JointBehind(s, i);
    if i > 1 {
      JointFound(s[1..], i - 1);
    }
  }

  lemma {:induction false} FoundJoint(s: string) returns (i: int)
    requires FindGav(s).Some?
    ensures Joint(s, i)
  {
    if GavHere(s).Some? {
      GavStartsHere(s);
      i := |Run(s)|;
    } else {
      i := FoundJoint(s[1..]);
      JointBehind(s, i + 1);
      i := i + 1;
    }
  }

  lemma FoundExactly(s: string)
    ensures FindGav(s).Some? <==> exists i :: Joint(s, i)
  {
    if FindGav(s).Some? {
      var i := FoundJoint(s);
    }
    if i :| Joint(s, i) {
      JointFound(s, i);
    }
  }

  /** A coordinate is accepted if and only if some colon has a part character on either side. */
  lemma AcceptedExactly(gav: string)
    ensures ParseGAV(gav).Success? <==> exists i :: Joint(gav, i)
  {
    FoundExactly(gav);
  }

  /** Two parts are enough: version and packaging type stay empty. */
  lemma TwoPartsAccepted(groupId: string, artifactId: string)
    requires groupId != "" && PartText(groupId) && artifactId != "" && PartText(artifactId)
    ensures ParseGAV(groupId + ":" + artifactId) == Success(Plain(groupId, artifactId, ""))
  {
    var s, rest := groupId + ":" + artifactId, ":" + artifactId;
    assert s == groupId + rest && rest + "" == rest;
    RunOf(groupId, rest);
    assert s[|groupId|..] == rest;
    ColonRunOf(artifactId, "");
    CountConcat(groupId, rest, ':');
    NoColons(groupId);
    LastColon(artifactId);
  }

  predicate ColonFree(parts: seq<string>) {
    forall i :: 0 <= i < |parts| ==> ':' !in parts[i]
  }

  predicate HasInteriorVdb(parts: seq<string>) {
    exists i :: 1 <= i < |parts| - 1 && parts[i] == "vdb"
  }

  /** A build is a fat-jar build unless an interior part of its coordinate is "vdb". */
  lemma FatJarByParts(parts: seq<string>)
    requires ColonFree(parts) && Join(parts, ":") != ""
    ensures IsFatJar(Join(parts, ":")) <==> !HasInteriorVdb(parts)
  {
    VdbPart(parts);
  }

  lemma {:induction false} VdbPart(parts: seq<string>)
    requires ColonFree(parts)
    ensures Contains(Join(parts, ":"), ":vdb:") <==> HasInteriorVdb(parts)
  {
    if |parts| >= 2 {
      var p, rest := parts[0], parts[1..];
      var s, t := Join(parts, ":"), Join(rest, ":");
      VdbPart(rest);
      VdbAfterFirst(p, t);
      VdbFirst(rest);
      if HasInteriorVdb(rest) {
        var i :| 1 <= i < |rest| - 1 && rest[i] == "vdb";
        assert parts[i + 1] == "vdb";
      }
      if HasInteriorVdb(parts) {
        var i :| 1 <= i < |parts| - 1 && parts[i] == "vdb";
        assert rest[i - 1] == "vdb";
      }
    } else {
      forall i
        ensures !OccursAt(Join(parts, ":"), ":vdb:", i)
      {
        OccurrenceColon(Join(parts, ":"), i);
      }
    }
  }

  lemma OccurrenceColon(s: string, i: int)
    ensures OccursAt(s, ":vdb:", i) ==> i < |s| && s[i] == ':'
  {
    if OccursAt(s, ":vdb:", i) {
      assert s[i] == s[i..i + 5][0];
    }
  }

  /** The text starts with "vdb:" exactly when the first part is "vdb" and another one follows. */
  lemma VdbFirst(parts: seq<string>)
    requires ColonFree(parts) && parts != []
    ensures "vdb:" <= Join(parts, ":") <==> parts[0] == "vdb" && |parts| >= 2
  {
    var s, p := Join(parts, ":"), parts[0];
    assert p <= s;
    if |parts| >= 2 {
      VdbAtStart(p, Join(parts[1..], ":"));
    }
    if "vdb:" <= s {
      assert s[3] == ':';
      assert |parts| == 1 ==> s == p;
    }
  }

  lemma VdbAtStart(p: string, t: string)
    requires ':' !in p
    ensures "vdb:" <= p + ":" + t <==> p == "vdb"
  {
    var s := p + ":" + t;
    assert s[..|p|] == p && s[|p|] == ':';
    if "vdb:" <= s {
      assert s[..3] == "vdb" && s[3] == ':' && s[2] != ':' && s[1] != ':' && s[0] != ':';
      assert forall i :: 0 <= i < |p| ==> p[i] == s[i];
      assert |p| == 3;
    }
  }

  lemma OccursBehind(front: string, t: string, sub: string, i: nat)
    ensures OccursAt(front + t, sub, |front| + i) <==> OccursAt(t, sub, i)
  {
    if i + |sub| <= |t| {
      assert (front + t)[|front| + i..|front| + i + |sub|] == t[i..i + |sub|];
    }
  }

  lemma VdbAtColon(p: string, t: string)
    ensures OccursAt(p + ":" + t, ":vdb:", |p|) <==> "vdb:" <= t
  {
    var u := ":" + t;
    assert p + ":" + t == p + u;
    OccursBehind(p, u, ":vdb:", 0);
    assert u[1..] == t;
    if |t| >= 4 {
      assert u[0..5] == ":" + t[..4];
      assert ":vdb:"[1..] == "vdb:" && u[0..5][1..] == t[..4];
    }
  }

  /** An occurrence in `p:t` starts at that colon or lies in `t`. */
  lemma VdbAfterFirst(p: string, t: string)
    requires ':' !in p
    ensures Contains(p + ":" + t, ":vdb:") <==> "vdb:" <= t || Contains(t, ":vdb:")
  {
    var s := p + ":" + t;
    VdbAtColon(p, t);
    if Contains(s, ":vdb:") {
      var i :| 0 <= i <= |s| && OccursAt(s, ":vdb:", i);
      NotInFirst(p, t, i);
      if i > |p| {
        OccursBehind(p + ":", t, ":vdb:", i - |p| - 1);
      }
    }
    if Contains(t, ":vdb:") {
      var i :| 0 <= i <= |t| && OccursAt(t, ":vdb:", i);
      OccursBehind(p + ":", t, ":vdb:", i);
    }
  }

  lemma NotInFirst(p: string, t: string, i: nat)
    requires ':' !in p && OccursAt(p + ":" + t, ":vdb:", i)
    ensures i >= |p|
  {
    var s := p + ":" + t;
    OccurrenceColon(s, i);
    assert forall k :: 0 <= k < |p| ==> p[k] == s[k];
  }

  // ---------- the dependency list of a project ----------

  lemma OneMore(first: seq<Dependency>, deps: seq<Dependency>, i: nat)
    requires i < |deps|
    ensures Distinct(first + deps[..i + 1], BY_COORDINATES)
      == AddNew(Distinct(first + deps[..i], BY_COORDINATES), BY_COORDINATES, deps[i])
  {
    assert first + deps[..i + 1] == (first + deps[..i]) + [deps[i]];
    DistinctSnoc(first + deps[..i], deps[i], BY_COORDINATES);
  }

  class Project {
    var dependencies: seq<Dependency>

    constructor (dependencies: seq<Dependency>)
      ensures this.dependencies == dependencies
    {
      this.dependencies := dependencies;
    }

    method AddDependency(dep: Dependency)
      modifies this
      ensures dependencies == AddNew(old(dependencies), BY_COORDINATES, dep)
    {
      var i := 0;
      assert dependencies[0..] == dependencies;
      while i < |dependencies|
        invariant 0 <= i <= |dependencies|
        invariant Find(dependencies, BY_COORDINATES, BY_COORDINATES(dep))
          == Find(dependencies[i..], BY_COORDINATES, BY_COORDINATES(dep))
      {
        assert dependencies[i..][1..] == dependencies[i + 1..];
        if dependencies[i].groupId == dep.groupId && dependencies[i].artifactId == dep.artifactId {
          return;
        }
        i := i + 1;
      }
      dependencies := dependencies + [dep];
    }

    /** Adds what is new of `deps`, in order. */
    method AddDependencies(deps: seq<Dependency>)
      requires Unique(dependencies, BY_COORDINATES)
      modifies this
      ensures dependencies == Distinct(old(dependencies) + deps, BY_COORDINATES)
      ensures Unique(dependencies, BY_COORDINATES)
    {
      ghost var first := dependencies;
      DistinctOfUnique(first, BY_COORDINATES);
      assert first + deps[..0] == first;
      var i := 0;
      while i < |deps|
        invariant 0 <= i <= |deps|
        invariant dependencies == Distinct(first + deps[..i], BY_COORDINATES)
      {
        OneMore(first, deps, i);
        AddDependency(deps[i]);
        i := i + 1;
      }
      assert dependencies == Distinct(first + deps, BY_COORDINATES) by {
        assert deps[..i] == deps;
      }
      DistinctIsUnique(first + deps, BY_COORDINATES);
    }
  }
}
