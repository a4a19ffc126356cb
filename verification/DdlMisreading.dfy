/** When exactly a printed declaration is read as it is meant, and why a quoted name must not hold CREATE
    followed by two dashes: for a match that starts inside the name they open a line comment, and a comment
    behind the name is then read as a declaration. */
module DdlMisreading {
  import opened Outcomes
  import opened Text
  import opened Ddl
  import opened DataSources
  import opened DdlPrinter
  import opened DdlRoundTrip
  import opened DdlPatterns

  lemma {:induction false} FoundInside(readings: seq<seq<Item>>, a: string, b: string)
    requires MatchHere(readings, b).Some?
    ensures Search(readings, a + b).Some?
  {
    if a == "" {
      assert a + b == b;
    } else if MatchHere(readings, a + b).None? {
      assert (a + b)[1..] == a[1..] + b;
      FoundInside(readings, a[1..], b);
    }
  }

  /** A wrapper declaration without its CREATE: what a comment can hide. */
  predicate Hidden(clauses: seq<Clause>, last: Name) {
    && |clauses| == 5 && last.Plain? && NameShape(last) && ClausesShape(clauses)
    && clauses[0].head == Word("FOREIGN") && clauses[1].head == Word("DATA")
    && clauses[2].head == Word("WRAPPER") && clauses[3].head.Ident? && clauses[4].head == Word("TYPE")
  }

  /** What a match that starts inside the name gets to see: CREATE, a line comment and the hidden text. */
  function SeenFromName(hidden: seq<Clause>): seq<Clause> {
    [Clause(Word("CREATE"), [Line("\"/*", '\n')])] + hidden
  }

  lemma SeenMatches(hidden: seq<Clause>, last: Name, end: string)
    requires Hidden(hidden, last)
    ensures MatchHere(WRAPPER, Render(SeenFromName(hidden), last, "*/" + end)).Some?
  {
    var clauses := SeenFromName(hidden);
    forall i | 0 <= i < |clauses|
      ensures HeadShape(clauses[i].head) && UnitsShape(clauses[i].gap)
    {
      if i > 0 {
        assert clauses[i] == hidden[i - 1];
      }
    }
    assert HeadsCorrespond(WRAPPER_HEADS, clauses);
    AllMatched(WRAPPER_HEADS, clauses, last, "*/" + end);
  }

  lemma OneUnit(u: Unit)
    ensures RenderUnits([u]) == RenderUnit(u)
  {
    assert [u][1..] == [];
    assert RenderUnit(u) + "" == RenderUnit(u);
  }

  lemma Behind(c: string, a: string, b: string, eol: char, rest: string)
    ensures c + ("--" + (a + b) + [eol] + rest) == c + "--" + a + (b + ([eol] + rest))
  {}

  lemma Around(open: string, eol: string, x: string, y: string)
    ensures open + (eol + (x + y)) == open + (eol + x) + y
  {}

  lemma SeenParts(hidden: seq<Clause>, last: Name, y: string)
    ensures Render(SeenFromName(hidden), last, y)
      == "CREATE" + ("--" + ("\"" + "/*") + ['\n'] + Render(hidden, last, y))
  {
    assert SeenFromName(hidden)[1..] == hidden;
    OneUnit(Line("\"/*", '\n'));
    assert "\"/*" == "\"" + "/*";
  }

  lemma SeenText(hidden: seq<Clause>, last: Name, end: string)
    ensures Render(SeenFromName(hidden), last, "*/" + end)
      == "CREATE" + "--" + "\"" + ("/*" + ("\n" + Render(hidden, last, "")) + ("*/" + end))
  {
    var x, y := Render(hidden, last, ""), "*/" + end;
    SeenParts(hidden, last, y);
    RenderEnd(hidden, last, "", y);
    assert "" + y == y;
    Behind("CREATE", "\"", "/*", '\n', x + y);
    Around("/*", "\n", x, y);
  }

  predicate ServerShape(e: Declaration) {
    && e.Server? && |e.gaps| == 6
    && ClausesShape(Zip(Heads(e), e.gaps)) && NameShape(e.wrapper)
  }

  /** The text of the statement from inside the name on. */
  lemma InsideName(e: Declaration, a: string, body: string) returns (before: string, behind: string)
    requires e.Server? && |e.gaps| == 6 && e.name == Quoted(a + "CREATE--") && e.gaps[2] == [Block(body)]
    ensures Print(e) == before + ("CREATE" + "--" + "\"" + ("/*" + body + ("*/" + behind)))
  {
    var clauses, last, end := Zip(Heads(e), e.gaps), Last(e), e.tail + ";";
    behind := Render(clauses[3..], last, end);
    var g0, g1, g2 := RenderUnits(e.gaps[0]), RenderUnits(e.gaps[1]), RenderUnits(e.gaps[2]);
    OneUnit(Block(body));
    var rest := "/*" + body + ("*/" + behind);
    assert g2 + behind == rest;
    assert clauses[1..][1..] == clauses[2..] && clauses[2..][1..] == clauses[3..];
    var s1, s2 := Render(clauses[1..], last, end), Render(clauses[2..], last, end);
    assert clauses[2].head == Ident(e.name) && clauses[2..][0] == clauses[2];
    assert s2 == RenderName(e.name) + rest;
    CutName(a, rest);
    assert clauses[1..][0] == clauses[1] && s1 == "SERVER" + (g1 + s2);
    assert Print(e) == "CREATE" + (g0 + s1);
    before := "CREATE" + (g0 + ("SERVER" + (g1 + ("\"" + a))));
    Reassociate("CREATE", g0, "SERVER", g1, "\"" + a, "CREATE" + "--" + "\"" + rest);
  }

  lemma CutName(a: string, rest: string)
    ensures RenderName(Quoted(a + "CREATE--")) + rest == "\"" + a + ("CREATE" + "--" + "\"" + rest)
  {
    assert "CREATE--" == "CREATE" + "--";
  }

  lemma Reassociate(a: string, b: string, c: string, d: string, e: string, f: string)
    ensures a + (b + (c + (d + (e + f)))) == a + (b + (c + (d + e))) + f
  {}

  /** Any server whose quoted name ends in CREATE-- and is followed by a comment that hides the rest of a
      wrapper declaration is read as two data sources. */
  lemma ReadAsTwo(e: Declaration, a: string, hidden: seq<Clause>, last: Name, line: string)
    requires ServerShape(e) && EndShape(e.wrapper, e.tail + ";") && Hidden(hidden, last)
    requires e.name == Quoted(a + "CREATE--") && e.gaps[2] == [Block("\n" + Render(hidden, last, ""))]
    requires ToUpper(line) == Print(e)
    ensures |OfLine(SERVER, WRAPPER, line)| == 2 > |Meaning(e)|
  {
    var clauses, end := Zip(Heads(e), e.gaps), e.tail + ";";
    assert HeadsCorrespond(SERVER_PLAIN, clauses);
    AllMatched(SERVER_PLAIN, clauses, e.wrapper, end);
    FoundAtStart(SERVER, 0, Print(e));
    var before, behind := InsideName(e, a, "\n" + Render(hidden, last, ""));
    SeenMatches(hidden, last, behind);
    SeenText(hidden, last, behind);
    FoundInside(WRAPPER, before, Render(SeenFromName(hidden), last, "*/" + behind));
    NamesFound(Print(e));
  }

  lemma NamesFound(s: string)
    requires Search(SERVER, s).Some? && Search(WRAPPER, s).Some?
    ensures |Info(Search(SERVER, s))| == 1 && |Info(Search(WRAPPER, s))| == 1
  {
    InfoOfMatch(s);
  }

  // ---------- when exactly a line is read as it is meant ----------

  lemma {:induction false} SpacedHasId(heads: seq<Item>)
    ensures Id in Spaced(heads, Id)
  {
    if heads != [] {
      SpacedHasId(heads[1..]);
    }
  }

  lemma {:induction false} ItemsCapture(items: seq<Item>, s: string)
    requires MatchItems(items, s).Some? && Id in items
    ensures MatchItems(items, s).value != []
    decreases items
  {
    if items[0] != Id {
      ItemsCapture(items[1..], s[ItemLength(items[0], s).value..]);
    }
  }

  predicate AllCapture(readings: seq<seq<Item>>) {
    forall i :: 0 <= i < |readings| ==> Id in readings[i]
  }

  lemma {:induction false} HereCaptures(readings: seq<seq<Item>>, s: string)
    requires AllCapture(readings) && MatchHere(readings, s).Some?
    ensures MatchHere(readings, s).value != []
  {
    if MatchItems(readings[0], s).Some? {
      ItemsCapture(readings[0], s);
    } else {
      HereCaptures(readings[1..], s);
    }
  }

  /** Every match captures a name. */
  lemma {:induction false} SearchCaptures(readings: seq<seq<Item>>, s: string)
    requires AllCapture(readings) && Search(readings, s).Some?
    ensures Search(readings, s).value != []
  {
    if MatchHere(readings, s).Some? {
      HereCaptures(readings, s);
    } else {
      SearchCaptures(readings, s[1..]);
    }
  }

  lemma PatternsCapture()
    ensures AllCapture(SERVER) && AllCapture(WRAPPER)
  {
    SpacedHasId(SERVER_PLAIN);
    SpacedHasId(SERVER_TYPED);
    SpacedHasId(WRAPPER_HEADS);
  }

  lemma InfoOfMatch(s: string)
    ensures |Info(Search(SERVER, s))| == (if Search(SERVER, s).Some? then 1 else 0)
    ensures |Info(Search(WRAPPER, s))| == (if Search(WRAPPER, s).Some? then 1 else 0)
  {
    PatternsCapture();
    if Search(SERVER, s).Some? {
      SearchCaptures(SERVER, s);
    }
    if Search(WRAPPER, s).Some? {
      SearchCaptures(WRAPPER, s);
    }
  }

  /** No reading matches anywhere in `s`. */
  predicate Nowhere(readings: seq<seq<Item>>, s: string) {
    forall i :: 0 <= i <= |s| ==> MatchHere(readings, s[i..]).None?
  }

  lemma NowhereFound(readings: seq<seq<Item>>, s: string)
    ensures Nowhere(readings, s) <==> Search(readings, s).None?
  {
    var i := SearchIsLeftmost(readings, s);
    if Search(readings, s).None? {
      assert forall j :: 0 <= j < i ==> MatchHere(readings, s[j..]).None?;
    }
  }

  /** The guard: no pattern for the other kind of declaration matches anywhere in the text. */
  predicate OtherKindNowhere(d: Declaration, s: string) {
    match d
    case Server(_, _, _, _) => Nowhere(WRAPPER, s)
    case TypedServer(_, _, _, _, _) => Nowhere(WRAPPER, s)
    case Wrapper(_, _, _, _) => Nowhere(SERVER, s)
    case BareWrapper(_, _, _) => Nowhere(SERVER, s) && Nowhere(WRAPPER, s)
  }

  /** Whatever its comments, names and tail hold, a printed declaration is read as it is meant if and only
      if nothing in its text looks like a declaration of the other kind. */
  lemma ReadAsMeantExactly(d: Declaration, line: string)
    requires ShapeOk(UpperDeclaration(d)) && ToUpper(line) == Print(UpperDeclaration(d))
    ensures OfLine(SERVER, WRAPPER, line) == Meaning(d) <==> OtherKindNowhere(d, ToUpper(line))
  {
    var e, s := UpperDeclaration(d), ToUpper(line);
    SameMeaning(d);
    InfoOfMatch(s);
    NowhereFound(SERVER, s);
    NowhereFound(WRAPPER, s);
    if e.Server? || e.TypedServer? {
      ServerFound(e);
      OneOfTwo(Info(Search(SERVER, s)), Info(Search(WRAPPER, s)));
    } else if e.Wrapper? {
      WrapperFound(e);
      OneOfTwo(Info(Search(WRAPPER, s)), Info(Search(SERVER, s)));
    }
  }

  lemma OneOfTwo<T>(a: seq<T>, b: seq<T>)
    ensures a + b == a <==> b == []
    ensures b + a == a <==> b == []
  {
    assert |a + b| == |b + a| == |a| + |b|;
    assert b == [] ==> b + a == a;
  }

  // ---------- whole texts ----------

  /** At least as many data sources are read as are meant, and if as many, then those. */
  predicate ReadAtLeast(server: seq<seq<Item>>, wrapper: seq<seq<Item>>, d: Declaration, line: string) {
    && |OfLine(server, wrapper, line)| >= |Meaning(d)|
    && (|OfLine(server, wrapper, line)| == |Meaning(d)| ==> OfLine(server, wrapper, line) == Meaning(d))
  }

  lemma LineReadAtLeast(d: Declaration, line: string)
    requires ShapeOk(UpperDeclaration(d)) && ToUpper(line) == Print(UpperDeclaration(d))
    ensures ReadAtLeast(SERVER, WRAPPER, d, line)
  {
    var e, s := UpperDeclaration(d), ToUpper(line);
    SameMeaning(d);
    if e.Server? || e.TypedServer? {
      ServerFound(e);
      OneOfTwo(Info(Search(SERVER, s)), Info(Search(WRAPPER, s)));
    } else if e.Wrapper? {
      WrapperFound(e);
      OneOfTwo(Info(Search(WRAPPER, s)), Info(Search(SERVER, s)));
    }
  }

  lemma {:induction false} LinesReadAtLeast(server: seq<seq<Item>>, wrapper: seq<seq<Item>>, ds: seq<Declaration>,
                                            lines: seq<string>)
    requires |ds| == |lines| && forall i :: 0 <= i < |ds| ==> ReadAtLeast(server, wrapper, ds[i], lines[i])
    ensures |OfLines(server, wrapper, lines)| >= |AllMeanings(ds)|
    ensures |OfLines(server, wrapper, lines)| == |AllMeanings(ds)| ==> EachMeans(server, wrapper, ds, lines)
  {
    if ds != [] {
      var n := |ds| - 1;
      LinesReadAtLeast(server, wrapper, ds[..n], lines[..n]);
      assert ReadAtLeast(server, wrapper, ds[n], lines[n]);
      if EachMeans(server, wrapper, ds[..n], lines[..n]) && OfLine(server, wrapper, lines[n]) == Meaning(ds[n]) {
        OneMoreMeans(server, wrapper, ds, lines);
      }
      var a, b := OfLines(server, wrapper, lines[..n]), OfLine(server, wrapper, lines[n]);
      var x, y := AllMeanings(ds[..n]), Meaning(ds[n]);
      assert |OfLines(server, wrapper, lines)| == |a| + |b| && |AllMeanings(ds)| == |x| + |y|;
    }
  }

  lemma OneMoreMeans(server: seq<seq<Item>>, wrapper: seq<seq<Item>>, ds: seq<Declaration>, lines: seq<string>)
    requires |ds| == |lines| > 0 && EachMeans(server, wrapper, ds[..|ds| - 1], lines[..|ds| - 1])
    requires OfLine(server, wrapper, lines[|ds| - 1]) == Meaning(ds[|ds| - 1])
    ensures EachMeans(server, wrapper, ds, lines)
  {
    var n := |ds| - 1;
    var front, before := ds[..n], lines[..n];
    forall i | 0 <= i < |ds|
      ensures OfLine(server, wrapper, lines[i]) == Meaning(ds[i])
    {
      if i < n {
        assert lines[i] == before[i] && ds[i] == front[i];
      }
    }
  }

  /** The line is a statement that prints the declaration, in any letter case. */
  ghost predicate Renders(line: string, d: Declaration) {
    Statement(line) && ShapeOk(UpperDeclaration(d)) && ToUpper(line) == Print(UpperDeclaration(d))
  }

  /** A text of printed declarations, whatever their comments, names and tails hold, is read back exactly if
      and only if nothing in any of them looks like a declaration of the other kind. */
  lemma ReadBackExactly(ds: seq<Declaration>, lines: seq<string>, separators: seq<string>)
    requires |ds| == |lines| && |separators| == |lines| + 1
    requires forall i :: 0 <= i < |ds| ==> Renders(lines[i], ds[i])
    requires forall i :: 0 <= i < |separators| ==> WordFree(separators[i])
    ensures Declared(Interleaved(separators, lines)) == AllMeanings(ds) <==>
      forall i :: 0 <= i < |ds| ==> OtherKindNowhere(ds[i], ToUpper(lines[i]))
  {
    assert forall i :: 0 <= i < |lines| ==> Renders(lines[i], ds[i]) && Statement(lines[i]);
    TokenizeInverts(separators, lines);
    forall i | 0 <= i < |ds|
      ensures ReadAtLeast(SERVER, WRAPPER, ds[i], lines[i])
      ensures OfLine(SERVER, WRAPPER, lines[i]) == Meaning(ds[i]) <==> OtherKindNowhere(ds[i], ToUpper(lines[i]))
    {
      LineReadAtLeast(ds[i], lines[i]);
      ReadAsMeantExactly(ds[i], lines[i]);
    }
    EachExactly(SERVER, WRAPPER, ds, lines);
  }

  lemma EachExactly(server: seq<seq<Item>>, wrapper: seq<seq<Item>>, ds: seq<Declaration>, lines: seq<string>)
    requires |ds| == |lines| && forall i :: 0 <= i < |ds| ==> ReadAtLeast(server, wrapper, ds[i], lines[i])
    ensures OfLines(server, wrapper, lines) == AllMeanings(ds) <==> EachMeans(server, wrapper, ds, lines)
  {
    LinesReadAtLeast(server, wrapper, ds, lines);
    if EachMeans(server, wrapper, ds, lines) {
      LinesMean(server, wrapper, ds, lines);
    }
  }

  // ---------- an example ----------

  const SPACE: Units := [White(' ')]

  const HIDDEN := [Clause(Word("FOREIGN"), SPACE), Clause(Word("DATA"), SPACE), Clause(Word("WRAPPER"), SPACE),
                   Clause(Ident(Plain("V")), SPACE), Clause(Word("TYPE"), SPACE)]

  function HiddenText(): string { Render(HIDDEN, Plain("T"), "") }

  /** In print, with \n for a line end:
      CREATE SERVER "CREATE--"/*\nFOREIGN DATA WRAPPER V TYPE T*/FOREIGN DATA WRAPPER W; */
  function Example(): Declaration {
    Server(Quoted("" + "CREATE--"), Plain("W"),
           [SPACE, SPACE, [Block("\n" + HiddenText())], SPACE, SPACE, SPACE], "")
  }

  lemma SpaceIsBody()
    ensures Body(RenderUnits(SPACE))
  {
    OneUnit(White(' '));
    UnquotedIsBody(" ");
  }

  lemma HiddenIsBody()
    ensures Body(HiddenText())
  {
    SpaceIsBody();
    forall i | 0 <= i < |HIDDEN|
      ensures Body(RenderHead(HIDDEN[i].head)) && Body(RenderUnits(HIDDEN[i].gap))
    {
      UnquotedIsBody(RenderHead(HIDDEN[i].head));
    }
    UnquotedIsBody("T");
    UnquotedIsBody("");
    RenderIsBody(HIDDEN, Plain("T"), "");
  }

  lemma HiddenIsUpper()
    ensures ToUpper(HiddenText()) == HiddenText()
  {
    UpperWords();
    assert UpperUnits(SPACE) == SPACE;
    assert UpperName(Plain("V")) == Plain("V") && UpperName(Plain("T")) == Plain("T");
    assert UpperClauses(HIDDEN) == HIDDEN;
    UpperRender(HIDDEN, Plain("T"), "");
    assert ToUpper("") == "";
  }

  lemma ExampleIsUpper()
    ensures |Example().gaps| == |Heads(Example())| && ToUpper(Print(Example())) == Print(Example())
  {
    var e := Example();
    HiddenIsUpper();
    UpperConcat("\n", HiddenText());
    assert ToUpper("\n") == "\n" && ToUpper("") == "";
    assert UpperUnits(SPACE) == SPACE;
    assert UpperUnits(e.gaps[2]) == e.gaps[2];
    assert UpperGaps(e.gaps) == e.gaps;
    assert UpperName(e.name) == e.name && UpperName(e.wrapper) == e.wrapper;
    assert UpperDeclaration(e) == e;
    UpperPrint(e);
  }

  lemma HeadIsBody(h: Head)
    requires HeadShape(h)
    ensures Body(RenderHead(h))
  {
    match h
    case Word(text) => UnquotedIsBody(text);
    case Ident(Plain(text)) => UnquotedIsBody(text);
    case Ident(Quoted(text)) => QuotedIsBody(text);
  }

  lemma ExampleGap(i: nat)
    requires i < 6
    ensures Body(RenderUnits(Example().gaps[i]))
  {
    SpaceIsBody();
    CommentIsBody();
  }

  lemma ExampleIsStatement()
    ensures |Example().gaps| == |Heads(Example())| && Statement(Print(Example()))
  {
    var e := Example();
    var clauses := Zip(Heads(e), e.gaps);
    ExampleShape();
    forall i | 0 <= i < |clauses|
      ensures Body(RenderHead(clauses[i].head)) && Body(RenderUnits(clauses[i].gap))
    {
      assert HeadShape(clauses[i].head);
      HeadIsBody(clauses[i].head);
      ExampleGap(i);
    }
    HeadIsBody(Ident(e.wrapper));
    UnquotedIsBody("");
    PrintIsStatement(e);
  }

  lemma CommentIsBody()
    ensures Body(RenderUnits(Example().gaps[2]))
  {
    var body := "\n" + HiddenText();
    OneUnit(Block(body));
    HiddenIsBody();
    UnquotedIsBody("\n");
    UnquotedIsBody("/*");
    UnquotedIsBody("*/");
    BodyConcat("\n", HiddenText());
    BodyConcat("/*", body);
    BodyConcat("/*" + body, "*/");
  }

  /** The whole parser reads two data sources from a text that declares one. */
  lemma ExampleMisread()
    ensures |Example().gaps| == |Heads(Example())|
    ensures |Declared(Print(Example()))| == 2 && |Meaning(Example())| == 1
  {
    ExampleIsUpper();
    ExampleIsStatement();
    ExampleShape();
    HiddenShape();
    ReadAsTwo(Example(), "", HIDDEN, Plain("T"), Print(Example()));
    OneStatement(Print(Example()));
  }

  /** A text of one statement declares what the statement does. */
  lemma OneStatement(line: string)
    requires Statement(line)
    ensures Declared(line) == OfLine(SERVER, WRAPPER, line)
  {
    TakeStatement(line, "");
    assert line + "" == line && Tokenize("") == [] && Tokenize(line) == [line];
    OneLine(SERVER, WRAPPER, line);
  }

  lemma OneLine(server: seq<seq<Item>>, wrapper: seq<seq<Item>>, line: string)
    ensures OfLines(server, wrapper, [line]) == OfLine(server, wrapper, line)
  {
    assert [line][..0] == [];
    assert OfLines(server, wrapper, []) == [];
  }

  lemma HiddenShape()
    ensures Hidden(HIDDEN, Plain("T"))
  {
    forall i | 0 <= i < |HIDDEN|
      ensures HeadShape(HIDDEN[i].head) && UnitsShape(HIDDEN[i].gap)
    {}
  }

  lemma {:induction false} NoStarInside(clauses: seq<Clause>, last: Name)
    requires forall i :: 0 <= i < |clauses| ==> '*' !in RenderHead(clauses[i].head) && clauses[i].gap == SPACE
    requires '*' !in RenderName(last)
    ensures '*' !in Render(clauses, last, "")
  {
    if clauses != [] {
      OneUnit(White(' '));
      NoStarInside(clauses[1..], last);
    }
  }

  lemma ExampleShape()
    ensures ServerShape(Example())
  {
    NoStarInside(HIDDEN, Plain("T"));
    var e := Example();
    var clauses := Zip(Heads(e), e.gaps);
    forall i | 0 <= i < |clauses|
      ensures HeadShape(clauses[i].head) && UnitsShape(clauses[i].gap)
    {
      assert i != 2 ==> clauses[i].gap == SPACE;
      WordsShape();
    }
  }

  lemma WordsShape()
    ensures HeadShape(Word("CREATE")) && HeadShape(Word("SERVER")) && HeadShape(Word("FOREIGN"))
    ensures HeadShape(Word("DATA")) && HeadShape(Word("WRAPPER"))
  {}
}
