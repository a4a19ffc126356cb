/** Parsing inverts printing: from a text of data source declarations exactly these are read back. */
module DdlRoundTrip {
  import opened Outcomes
  import opened Text
  import opened Ddl
  import opened DataSources
  import opened DdlPrinter
  import SpringProperties

  /** The declarations of data sources and of wrappers. Behind the last name comes `tail`, such as
      an OPTIONS clause, and a semicolon. */
  datatype Declaration =
    | Server(name: Name, wrapper: Name, gaps: seq<Units>, tail: string)
    | TypedServer(name: Name, sourceType: Name, wrapper: Name, gaps: seq<Units>, tail: string)
    | Wrapper(name: Name, sourceType: Name, gaps: seq<Units>, tail: string)
    | BareWrapper(name: Name, gaps: seq<Units>, tail: string)

  function Heads(d: Declaration): seq<Head> {
    match d
    case Server(name, _, _, _) =>
      [Word("CREATE"), Word("SERVER"), Ident(name), Word("FOREIGN"), Word("DATA"), Word("WRAPPER")]
    case TypedServer(name, sourceType, _, _, _) =>
      [Word("CREATE"), Word("SERVER"), Ident(name), Word("TYPE"), Ident(sourceType),
       Word("FOREIGN"), Word("DATA"), Word("WRAPPER")]
    case Wrapper(name, _, _, _) =>
      [Word("CREATE"), Word("FOREIGN"), Word("DATA"), Word("WRAPPER"), Ident(name), Word("TYPE")]
    case BareWrapper(_, _, _) =>
      [Word("CREATE"), Word("FOREIGN"), Word("DATA"), Word("WRAPPER")]
  }

  function Last(d: Declaration): Name {
    match d
    case Server(_, wrapper, _, _) => wrapper
    case TypedServer(_, _, wrapper, _, _) => wrapper
    case Wrapper(_, sourceType, _, _) => sourceType
    case BareWrapper(name, _, _) => name
  }

  function Zip(heads: seq<Head>, gaps: seq<Units>): seq<Clause>
    requires |heads| == |gaps|
  {
    seq(|heads|, i requires 0 <= i < |heads| => Clause(heads[i], gaps[i]))
  }

  /** The statement in print. */
  function Print(d: Declaration): string
    requires |d.gaps| == |Heads(d)|
  {
    Render(Zip(Heads(d), d.gaps), Last(d), d.tail + ";")
  }

  /** What the declaration means: its name and its type, in lower case and without quotes. */
  function Meaning(d: Declaration): seq<SpringProperties.DatasourceInfo> {
    match d
    case Server(name, wrapper, _, _) =>
      [SpringProperties.DatasourceInfo(ToLower(name.text), ToLower(wrapper.text))]
    case TypedServer(name, _, wrapper, _, _) =>
      [SpringProperties.DatasourceInfo(ToLower(name.text), ToLower(wrapper.text))]
    case Wrapper(name, sourceType, _, _) =>
      [SpringProperties.DatasourceInfo(ToLower(name.text), ToLower(sourceType.text))]
    case BareWrapper(_, _, _) => []
  }

  // ---------- upper case ----------

  function UpperUnit(u: Unit): Unit {
    match u
    case White(c) => White(UpperChar(c))
    case Block(body) => Block(ToUpper(body))
    case Line(body, eol) => Line(ToUpper(body), UpperChar(eol))
  }

  function UpperUnits(units: Units): Units {
    seq(|units|, i requires 0 <= i < |units| => UpperUnit(units[i]))
  }

  function UpperName(n: Name): Name { n.(text := ToUpper(n.text)) }

  function UpperGaps(gaps: seq<Units>): seq<Units> {
    seq(|gaps|, i requires 0 <= i < |gaps| => UpperUnits(gaps[i]))
  }

  function UpperDeclaration(d: Declaration): Declaration {
    match d
    case Server(n, w, gaps, tail) => Server(UpperName(n), UpperName(w), UpperGaps(gaps), ToUpper(tail))
    case TypedServer(n, t, w, gaps, tail) =>
      TypedServer(UpperName(n), UpperName(t), UpperName(w), UpperGaps(gaps), ToUpper(tail))
    case Wrapper(n, t, gaps, tail) => Wrapper(UpperName(n), UpperName(t), UpperGaps(gaps), ToUpper(tail))
    case BareWrapper(n, gaps, tail) => BareWrapper(UpperName(n), UpperGaps(gaps), ToUpper(tail))
  }

  /** The parts of a declaration in upper case are well-formed: gaps are not empty, comment bodies have no
      quote, semicolon or star (line comments no line end), plain names are words, quoted names have no
      quote, and no CREATE in a comment, a quoted name or the tail is followed by space or a comment. */
  predicate PartsOk(d: Declaration) {
    && |d.gaps| == |Heads(d)|
    && ClausesOk(Zip(Heads(d), d.gaps))
    && NameOk(Last(d)) && EndOk(Last(d), d.tail + ";")
  }

  /** The parts are well-formed but for what CREATE may be followed by and what the tail starts with. */
  predicate ShapeOk(d: Declaration) {
    && |d.gaps| == |Heads(d)|
    && ClausesShape(Zip(Heads(d), d.gaps))
    && NameShape(Last(d)) && EndShape(Last(d), d.tail + ";")
  }

  lemma PartsHaveShape(d: Declaration)
    requires PartsOk(d)
    ensures ShapeOk(d)
  {
    OkIsShape(Zip(Heads(d), d.gaps));
  }

  ghost predicate Printable(d: Declaration) {
    PartsOk(UpperDeclaration(d)) && Body(d.tail)
  }

  predicate Blank(units: Units) {
    units != [] && forall i :: 0 <= i < |units| ==> units[i].White? && IsSpace(units[i].c)
  }

  lemma BlankUpper(units: Units)
    requires Blank(units)
    ensures UnitsOk(UpperUnits(units))
  {}

  lemma PlainUpper(n: Name)
    requires n.Plain? && NameShape(n)
    ensures NameOk(UpperName(n))
  {}

  /** A declaration with words for names, only space between them and nothing behind the last name is
      printable. */
  lemma PlainIsPrintable(d: Declaration)
    requires |d.gaps| == |Heads(d)| && d.tail == "" && Last(d).Plain? && NameShape(Last(d))
    requires forall i :: 0 <= i < |d.gaps| ==> Blank(d.gaps[i])
    requires forall i :: 0 <= i < |Heads(d)| && Heads(d)[i].Ident? ==>
      Heads(d)[i].name.Plain? && NameShape(Heads(d)[i].name)
    ensures Printable(d)
  {
    var e := UpperDeclaration(d);
    UpperHeads(d);
    forall i | 0 <= i < |Heads(e)|
      ensures HeadOk(Heads(e)[i]) && UnitsOk(e.gaps[i])
    {
      BlankUpper(d.gaps[i]);
      if Heads(d)[i].Ident? {
        PlainUpper(Heads(d)[i].name);
      } else {
        WordUpper(d, i);
      }
    }
    PlainUpper(Last(d));
    LoneSemicolon(Last(e));
    assert e.tail + ";" == ";";
  }

  lemma WordUpper(d: Declaration, i: nat)
    requires i < |Heads(d)| && Heads(d)[i].Word?
    ensures HeadOk(UpperHead(Heads(d)[i]))
  {
    UpperWords();
    WordsOk();
    WordsUsed(d, i);
  }

  lemma WordsUsed(d: Declaration, i: nat)
    requires i < |Heads(d)| && Heads(d)[i].Word?
    ensures Heads(d)[i].text in {"CREATE", "SERVER", "FOREIGN", "DATA", "WRAPPER", "TYPE"}
  {}

  lemma WordsOk()
    ensures HeadOk(Word("CREATE")) && HeadOk(Word("SERVER")) && HeadOk(Word("FOREIGN"))
    ensures HeadOk(Word("DATA")) && HeadOk(Word("WRAPPER")) && HeadOk(Word("TYPE"))
  {}

  lemma LoneSemicolon(last: Name)
    ensures EndOk(last, ";")
  {
    assert GapLength(";") == 0;
  }

  lemma UpperUnitText(u: Unit)
    ensures RenderUnit(UpperUnit(u)) == ToUpper(RenderUnit(u))
  {}

  lemma UpperUnitsTail(units: Units)
    requires units != []
    ensures UpperUnits(units)[0] == UpperUnit(units[0]) && UpperUnits(units)[1..] == UpperUnits(units[1..])
  {}

  lemma {:induction false} UpperUnitsText(units: Units)
    ensures RenderUnits(UpperUnits(units)) == ToUpper(RenderUnits(units))
  {
    if units != [] {
      UpperUnitText(units[0]);
      UpperUnitsText(units[1..]);
      UpperUnitsTail(units);
      UpperConcat(RenderUnit(units[0]), RenderUnits(units[1..]));
    }
  }

  lemma UpperNameText(n: Name)
    ensures RenderName(UpperName(n)) == ToUpper(RenderName(n))
  {}

  function UpperHead(h: Head): Head {
    match h
    case Word(text) => Word(ToUpper(text))
    case Ident(name) => Ident(UpperName(name))
  }

  lemma UpperHeadText(h: Head)
    ensures RenderHead(UpperHead(h)) == ToUpper(RenderHead(h))
  {
    if h.Ident? {
      UpperNameText(h.name);
    }
  }

  function UpperClauses(clauses: seq<Clause>): seq<Clause> {
    seq(|clauses|, i requires 0 <= i < |clauses| => Clause(UpperHead(clauses[i].head), UpperUnits(clauses[i].gap)))
  }

  lemma {:induction false} UpperRender(clauses: seq<Clause>, last: Name, end: string)
    ensures Render(UpperClauses(clauses), UpperName(last), ToUpper(end)) == ToUpper(Render(clauses, last, end))
  {
    if clauses == [] {
      UpperNameText(last);
      UpperConcat(RenderName(last), end);
    } else {
      var h, g, rest := clauses[0].head, clauses[0].gap, Render(clauses[1..], last, end);
      assert UpperClauses(clauses)[1..] == UpperClauses(clauses[1..]);
      UpperRender(clauses[1..], last, end);
      UpperHeadText(h);
      UpperUnitsText(g);
      UpperConcat(RenderUnits(g), rest);
      UpperConcat(RenderHead(h), RenderUnits(g) + rest);
    }
  }

  lemma UpperWords()
    ensures ToUpper("CREATE") == "CREATE" && ToUpper("SERVER") == "SERVER" && ToUpper("FOREIGN") == "FOREIGN"
    ensures ToUpper("DATA") == "DATA" && ToUpper("WRAPPER") == "WRAPPER" && ToUpper("TYPE") == "TYPE"
  {}

  lemma UpperHeads(d: Declaration)
    ensures |Heads(UpperDeclaration(d))| == |Heads(d)|
    ensures forall i :: 0 <= i < |Heads(d)| ==> Heads(UpperDeclaration(d))[i] == UpperHead(Heads(d)[i])
  {
    UpperWords();
  }

  /** Printing commutes with upper case. */
  lemma UpperPrint(d: Declaration)
    requires |d.gaps| == |Heads(d)|
    ensures |UpperDeclaration(d).gaps| == |Heads(UpperDeclaration(d))|
    ensures Print(UpperDeclaration(d)) == ToUpper(Print(d))
  {
    var e := UpperDeclaration(d);
    UpperHeads(d);
    assert Zip(Heads(e), e.gaps) == UpperClauses(Zip(Heads(d), d.gaps));
    UpperRender(Zip(Heads(d), d.gaps), Last(d), d.tail + ";");
    UpperConcat(d.tail, ";");
    assert ToUpper(";") == ";";
  }

  // ---------- captured names ----------

  /** The first name among the clauses is the first one captured. */
  lemma {:induction false} FirstCaptured(clauses: seq<Clause>, i: nat)
    requires i < |clauses| && clauses[i].head.Ident?
    requires forall j :: 0 <= j < i ==> clauses[j].head.Word?
    ensures AllCaptured(clauses) != [] && AllCaptured(clauses)[0] == RenderName(clauses[i].head.name)
  {
    if i > 0 {
      FirstCaptured(clauses[1..], i - 1);
    }
  }

  lemma LowerUpper(s: string)
    ensures ToLower(ToUpper(s)) == ToLower(s)
  {}

  lemma StripName(n: Name)
    requires NameShape(n)
    ensures RenderName(n) != "\"" && StripQuotes(RenderName(n)) == ToLower(n.text)
  {
    var s := RenderName(n);
    if n.Quoted? {
      assert s[1..|s| - 1] == n.text;
    } else {
      assert IsWord(s[0]);
    }
  }

  lemma CapturesOk(names: seq<string>, n: Name, m: Name)
    requires NameShape(n) && NameShape(m) && names != []
    requires names[0] == RenderName(n) && names[|names| - 1] == RenderName(m)
    requires forall i :: 0 <= i < |names| ==> names[i] != "\""
    ensures Info(Some(names)) == [SpringProperties.DatasourceInfo(ToLower(n.text), ToLower(m.text))]
  {
    StripName(n);
    StripName(m);
  }

  // ---------- what the patterns find in a statement ----------

  lemma ReadingsOk()
    ensures StartsWithCreate(SERVER) && StartsWithCreate(WRAPPER)
  {
    assert SERVER[0][0] == Keyword("CREATE") && SERVER[0][1] == Gap;
    assert SERVER[1][0] == Keyword("CREATE") && SERVER[1][1] == Gap;
    assert WRAPPER[0][0] == Keyword("CREATE") && WRAPPER[0][1] == Gap;
  }

  /** One reading of a pattern matches. */
  lemma FoundAtStart(readings: seq<seq<Item>>, i: nat, s: string)
    requires i < |readings| && MatchItems(readings[i], s).Some?
    requires forall j :: 0 <= j < i ==> MatchItems(readings[j], s).None?
    ensures Search(readings, s) == MatchItems(readings[i], s)
  {
    ReadingFound(readings, i, s);
  }

  lemma {:induction false} ReadingFound(readings: seq<seq<Item>>, i: nat, s: string)
    requires i < |readings| && MatchItems(readings[i], s).Some?
    requires forall j :: 0 <= j < i ==> MatchItems(readings[j], s).None?
    ensures MatchHere(readings, s) == MatchItems(readings[i], s)
  {
    if i > 0 {
      assert MatchItems(readings[0], s).None?;
      assert forall j :: 0 <= j < i - 1 ==> readings[1..][j] == readings[j + 1];
      ReadingFound(readings[1..], i - 1, s);
    }
  }

  lemma {:induction false} NoReadingFound(readings: seq<seq<Item>>, s: string)
    requires forall j :: 0 <= j < |readings| ==> MatchItems(readings[j], s).None?
    ensures MatchHere(readings, s).None?
  {
    if readings != [] {
      assert MatchItems(readings[0], s).None?;
      assert forall j :: 0 <= j < |readings[1..]| ==> readings[1..][j] == readings[j + 1];
      NoReadingFound(readings[1..], s);
    }
  }

  /** What follows a name that ends in CREATE. */
  function FromName(clauses: seq<Clause>, i: nat): seq<Clause>
    requires i < |clauses|
  {
    [CreateLike(clauses[i])] + clauses[i + 1..]
  }

  lemma {:induction false} NamesOneByOne(readings: seq<seq<Item>>, clauses: seq<Clause>, last: Name, end: string)
    requires forall i :: 0 <= i < |clauses| && clauses[i].head.Ident? ==>
      MatchHere(readings, Render(FromName(clauses, i), last, end)).None?
    requires MatchHere(readings, "CREATE" + end).None?
    ensures NoneFromNames(readings, clauses, last, end)
  {
    if clauses != [] {
      if clauses[0].head.Ident? {
        assert FromName(clauses, 0) == [CreateLike(clauses[0])] + clauses[1..];
      }
      forall i | 0 <= i < |clauses[1..]| && clauses[1..][i].head.Ident?
        ensures MatchHere(readings, Render(FromName(clauses[1..], i), last, end)).None?
      {
        assert FromName(clauses[1..], i) == FromName(clauses, i + 1);
      }
      NamesOneByOne(readings, clauses[1..], last, end);
    }
  }

  /** A pattern whose readings all fail at CREATE, and from every name, finds nothing. */
  lemma NothingIn(readings: seq<seq<Item>>, clauses: seq<Clause>, last: Name, end: string)
    requires StartsWithCreate(readings) && ClausesOk(clauses) && NameOk(last) && EndOk(last, end)
    requires clauses != [] && clauses[0].head == Word("CREATE")
    requires forall i :: 1 <= i < |clauses| ==> clauses[i].head != Word("CREATE")
    requires MatchHere(readings, Render(clauses, last, end)).None?
    requires forall i :: 0 <= i < |clauses| && clauses[i].head.Ident? ==>
      MatchHere(readings, Render(FromName(clauses, i), last, end)).None?
    requires MatchHere(readings, "CREATE" + end).None?
    ensures Search(readings, Render(clauses, last, end)).None?
  {
    var rest := clauses[1..];
    assert clauses == [Clause(Word("CREATE"), clauses[0].gap)] + rest;
    forall i | 0 <= i < |rest| && rest[i].head.Ident?
      ensures MatchHere(readings, Render(FromName(rest, i), last, end)).None?
    {
      assert FromName(rest, i) == FromName(clauses, i + 1);
    }
    NamesOneByOne(readings, rest, last, end);
    ClausesTail(clauses);
    NothingInStatement(readings, clauses[0].gap, rest, last, end);
  }

  lemma CreateThenEnd(heads: seq<Item>, end: string)
    requires |heads| >= 2 && heads[0] == Keyword("CREATE") && Unrelated(end)
    requires heads[1] in {Keyword("SERVER"), Keyword("FOREIGN"), Keyword("TYPE")}
    ensures MatchItems(Spaced(heads, Id), "CREATE" + end).None?
  {
    var items := Spaced(heads, Id);
    assert ("CREATE" + end)[..6] == "CREATE";
    MatchStep(items, "CREATE", end);
    assert items[1..] == [Gap] + Spaced(heads[1..], Id);
    GapThenMissed(heads[1..], end);
  }

  /** The second keyword of a pattern, right behind CREATE, is missed. */
  lemma SecondMissed(heads: seq<Item>, clauses: seq<Clause>, last: Name, end: string)
    requires |heads| >= 2 && heads[0] == Keyword("CREATE") && heads[1].Keyword? && heads[1].text != ""
    requires ClausesOk(clauses) && NameOk(last) && |clauses| >= 2 && clauses[0].head == Word("CREATE")
    requires clauses[1].head.Word? && clauses[1].head.text[0] != heads[1].text[0]
    ensures MatchItems(Spaced(heads, Id), Render(clauses, last, end)).None?
  {
    var front, more := clauses[..1], clauses[1..];
    assert clauses == front + more;
    OkIsShape(clauses);
    OkIsShape(front);
    ClausesTail(clauses);
    OkIsShape(more);
    assert Corresponds(heads[0], front[0].head);
    KeywordMissed(heads, front, more, last, end);
  }

  lemma FromNameOk(clauses: seq<Clause>, i: nat)
    requires i < |clauses| && ClausesOk(clauses)
    ensures ClausesOk(FromName(clauses, i))
  {
    var f := FromName(clauses, i);
    forall j | 0 <= j < |f|
      ensures HeadOk(f[j].head) && UnitsOk(f[j].gap)
    {
      assert HeadOk(clauses[i + j].head) && UnitsOk(clauses[i + j].gap);
      if j > 0 {
        assert f[j] == clauses[i + j];
      }
    }
  }

  // ---------- the four kinds of statement ----------

  predicate HasHeads(clauses: seq<Clause>, heads: seq<Head>) {
    |clauses| == |heads| && forall i :: 0 <= i < |clauses| ==> clauses[i].head == heads[i]
  }

  predicate WrapperClause(clauses: seq<Clause>) {
    && |clauses| == 4
    && clauses[0].head == Word("CREATE") && clauses[1].head == Word("FOREIGN")
    && clauses[2].head == Word("DATA") && clauses[3].head == Word("WRAPPER")
  }

  /** A wrapper clause that ends with the statement does not satisfy the wrapper pattern, which goes on
      with TYPE. */
  lemma WrapperEndsEarly(clauses: seq<Clause>, last: Name, end: string)
    requires ClausesOk(clauses) && NameOk(last) && EndOk(last, end) && WrapperClause(clauses)
    ensures MatchHere(WRAPPER, Render(clauses, last, end)).None?
  {
    OkIsShape(clauses);
    assert HeadsCorrespond(WRAPPER_HEADS, clauses);
    EndMissed(WRAPPER_HEADS, clauses, last, end);
    NoReadingFound(WRAPPER, Render(clauses, last, end));
  }

  /** Behind CREATE comes a keyword that does not start with `c`. */
  predicate NotNext(clauses: seq<Clause>, c: char) {
    && |clauses| >= 2 && clauses[0].head == Word("CREATE")
    && clauses[1].head.Word? && clauses[1].head.text != "" && clauses[1].head.text[0] != c
  }

  lemma NoServerHere(clauses: seq<Clause>, last: Name, end: string)
    requires ClausesOk(clauses) && NameOk(last) && NotNext(clauses, 'S')
    ensures MatchHere(SERVER, Render(clauses, last, end)).None?
  {
    SecondMissed(SERVER_PLAIN, clauses, last, end);
    SecondMissed(SERVER_TYPED, clauses, last, end);
    NoReadingFound(SERVER, Render(clauses, last, end));
  }

  lemma NoWrapperHere(clauses: seq<Clause>, last: Name, end: string)
    requires ClausesOk(clauses) && NameOk(last) && NotNext(clauses, 'F')
    ensures MatchHere(WRAPPER, Render(clauses, last, end)).None?
  {
    SecondMissed(WRAPPER_HEADS, clauses, last, end);
    NoReadingFound(WRAPPER, Render(clauses, last, end));
  }

  lemma NothingFromEnd(end: string)
    requires Unrelated(end)
    ensures MatchHere(SERVER, "CREATE" + end).None? && MatchHere(WRAPPER, "CREATE" + end).None?
  {
    CreateThenEnd(SERVER_PLAIN, end);
    CreateThenEnd(SERVER_TYPED, end);
    CreateThenEnd(WRAPPER_HEADS, end);
    NoReadingFound(SERVER, "CREATE" + end);
    NoReadingFound(WRAPPER, "CREATE" + end);
  }

  /** Only the first head is CREATE. */
  predicate OneCreate(clauses: seq<Clause>) {
    && clauses != [] && clauses[0].head == Word("CREATE")
    && forall i :: 1 <= i < |clauses| ==> clauses[i].head != Word("CREATE")
  }

  /** No server is found where CREATE and every name are followed by keywords other than SERVER. */
  lemma NoServer(clauses: seq<Clause>, last: Name, end: string)
    requires ClausesOk(clauses) && NameOk(last) && EndOk(last, end) && OneCreate(clauses) && NotNext(clauses, 'S')
    requires forall i :: 0 <= i < |clauses| && clauses[i].head.Ident? ==>
      && i + 1 < |clauses| && clauses[i + 1].head.Word?
      && clauses[i + 1].head.text != "" && clauses[i + 1].head.text[0] != 'S'
    ensures Search(SERVER, Render(clauses, last, end)).None?
  {
    ReadingsOk();
    NoServerHere(clauses, last, end);
    forall i | 0 <= i < |clauses| && clauses[i].head.Ident?
      ensures MatchHere(SERVER, Render(FromName(clauses, i), last, end)).None?
    {
      FromNameOk(clauses, i);
      assert FromName(clauses, i)[1] == clauses[i + 1];
      NoServerHere(FromName(clauses, i), last, end);
    }
    NothingFromEnd(end);
    NothingIn(SERVER, clauses, last, end);
  }

  /** No wrapper is found where CREATE and every name are followed by a keyword other than FOREIGN, or by
      a wrapper clause that ends with the statement. */
  lemma NoWrapper(clauses: seq<Clause>, last: Name, end: string)
    requires ClausesOk(clauses) && NameOk(last) && EndOk(last, end) && OneCreate(clauses)
    requires NotNext(clauses, 'F') || WrapperClause(clauses)
    requires forall i :: 0 <= i < |clauses| && clauses[i].head.Ident? ==>
      NotNext(FromName(clauses, i), 'F') || WrapperClause(FromName(clauses, i))
    ensures Search(WRAPPER, Render(clauses, last, end)).None?
  {
    ReadingsOk();
    NoWrapperAt(clauses, last, end);
    forall i | 0 <= i < |clauses| && clauses[i].head.Ident?
      ensures MatchHere(WRAPPER, Render(FromName(clauses, i), last, end)).None?
    {
      FromNameOk(clauses, i);
      NoWrapperAt(FromName(clauses, i), last, end);
    }
    NothingFromEnd(end);
    NothingIn(WRAPPER, clauses, last, end);
  }

  lemma NoWrapperAt(clauses: seq<Clause>, last: Name, end: string)
    requires ClausesOk(clauses) && NameOk(last) && EndOk(last, end)
    requires NotNext(clauses, 'F') || WrapperClause(clauses)
    ensures MatchHere(WRAPPER, Render(clauses, last, end)).None?
  {
    if NotNext(clauses, 'F') {
      NoWrapperHere(clauses, last, end);
    } else {
      WrapperEndsEarly(clauses, last, end);
    }
  }

  lemma NoServerIn(e: Declaration)
    requires PartsOk(e) && (e.Wrapper? || e.BareWrapper?)
    ensures Search(SERVER, Print(e)).None?
  {
    var clauses := Zip(Heads(e), e.gaps);
    assert HasHeads(clauses, Heads(e));
    assert NotNext(clauses, 'S');
    NoServer(clauses, Last(e), e.tail + ";");
  }

  lemma NoWrapperIn(e: Declaration)
    requires PartsOk(e) && !e.Wrapper?
    ensures Search(WRAPPER, Print(e)).None?
  {
    var clauses := Zip(Heads(e), e.gaps);
    assert HasHeads(clauses, Heads(e));
    WrapperNames(e, clauses);
    NoWrapper(clauses, Last(e), e.tail + ";");
  }

  lemma WrapperNames(e: Declaration, clauses: seq<Clause>)
    requires !e.Wrapper? && HasHeads(clauses, Heads(e))
    ensures NotNext(clauses, 'F') || WrapperClause(clauses)
    ensures forall i :: 0 <= i < |clauses| && clauses[i].head.Ident? ==>
      NotNext(FromName(clauses, i), 'F') || WrapperClause(FromName(clauses, i))
  {
    forall i | 0 <= i < |clauses| && clauses[i].head.Ident?
      ensures NotNext(FromName(clauses, i), 'F') || WrapperClause(FromName(clauses, i))
    {
      var f := FromName(clauses, i);
      assert forall j :: 1 <= j < |f| ==> f[j] == clauses[i + j];
      if e.TypedServer? && i == 2 {
        assert NotNext(f, 'F');
      } else {
        assert f[1] == clauses[i + 1] && f[2] == clauses[i + 2] && f[3] == clauses[i + 3];
        assert WrapperClause(f);
      }
    }
  }

  lemma ServerFound(e: Declaration)
    requires ShapeOk(e) && (e.Server? || e.TypedServer?)
    ensures Info(Search(SERVER, Print(e))) == Meaning(e)
  {
    var clauses, last := Zip(Heads(e), e.gaps), Last(e);
    assert clauses[2].head == Ident(e.name) && HeadShape(clauses[2].head);
    FirstCaptured(clauses, 2);
    if e.Server? {
      PlainServerMatches(e);
    } else {
      TypedServerMatches(e);
    }
    var names := AllCaptured(clauses) + [RenderName(last)];
    assert Search(SERVER, Print(e)) == Some(names);
    CapturesOk(names, e.name, last);
  }

  lemma PlainServerMatches(e: Declaration)
    requires ShapeOk(e) && e.Server?
    ensures Search(SERVER, Print(e)) == Some(AllCaptured(Zip(Heads(e), e.gaps)) + [RenderName(Last(e))])
  {
    var clauses, last, end := Zip(Heads(e), e.gaps), Last(e), e.tail + ";";
    assert HeadsCorrespond(SERVER_PLAIN, clauses);
    AllMatched(SERVER_PLAIN, clauses, last, end);
    FoundAtStart(SERVER, 0, Print(e));
  }

  lemma TypedServerMatches(e: Declaration)
    requires ShapeOk(e) && e.TypedServer?
    ensures Search(SERVER, Print(e)) == Some(AllCaptured(Zip(Heads(e), e.gaps)) + [RenderName(Last(e))])
  {
    var clauses, last, end := Zip(Heads(e), e.gaps), Last(e), e.tail + ";";
    assert MatchItems(SERVER[1], Print(e)) == Some(AllCaptured(clauses) + [RenderName(last)]) by {
      TypedHeads(e);
      AllMatched(SERVER_TYPED, clauses, last, end);
    }
    TypeNotForeign(e);
    FoundAtStart(SERVER, 1, Print(e));
  }

  lemma TypedHeads(e: Declaration)
    requires |e.gaps| == |Heads(e)| && e.TypedServer?
    ensures HeadsCorrespond(SERVER_TYPED, Zip(Heads(e), e.gaps))
  {}

  lemma TypeNotForeign(e: Declaration)
    requires ShapeOk(e) && e.TypedServer?
    ensures MatchItems(SERVER[0], Print(e)).None?
  {
    var clauses, last, end := Zip(Heads(e), e.gaps), Last(e), e.tail + ";";
    var front, more := clauses[..3], clauses[3..];
    assert clauses == front + more;
    assert forall i :: 0 <= i < |more| ==> more[i] == clauses[i + 3];
    assert HeadsCorrespond(SERVER_PLAIN, front);
    KeywordMissed(SERVER_PLAIN, front, more, last, end);
  }

  lemma WrapperHeads(e: Declaration)
    requires |e.gaps| == |Heads(e)| && e.Wrapper?
    ensures HeadsCorrespond(WRAPPER_HEADS, Zip(Heads(e), e.gaps))
  {}

  lemma WrapperFound(e: Declaration)
    requires ShapeOk(e) && e.Wrapper?
    ensures Info(Search(WRAPPER, Print(e))) == Meaning(e)
  {
    var clauses, last, end := Zip(Heads(e), e.gaps), Last(e), e.tail + ";";
    var s := Print(e);
    assert clauses[4].head == Ident(e.name) && HeadShape(clauses[4].head);
    FirstCaptured(clauses, 4);
    var names := AllCaptured(clauses) + [RenderName(last)];
    WrapperHeads(e);
    AllMatched(WRAPPER_HEADS, clauses, last, end);
    FoundAtStart(WRAPPER, 0, s);
    assert Search(WRAPPER, s) == Some(names);
    CapturesOk(names, e.name, last);
  }

  /** A printed statement, in any letter case, declares what its declaration means. */
  lemma LineMeans(d: Declaration, line: string)
    requires PartsOk(UpperDeclaration(d)) && ToUpper(line) == Print(UpperDeclaration(d))
    ensures OfLine(SERVER, WRAPPER, line) == Meaning(d)
  {
    var e := UpperDeclaration(d);
    SameMeaning(d);
    PartsHaveShape(e);
    if e.Server? || e.TypedServer? {
      ServerFound(e);
      NoWrapperIn(e);
    } else {
      NoServerIn(e);
      if e.Wrapper? {
        WrapperFound(e);
      } else {
        NoWrapperIn(e);
      }
    }
  }

  lemma SameMeaning(d: Declaration)
    ensures Meaning(UpperDeclaration(d)) == Meaning(d)
  {
    LowerUpper(d.name.text);
    LowerUpper(Last(d).text);
  }

  // ---------- statements ----------

  lemma UnitIsBody(u: Unit)
    requires UnitOk(u)
    ensures Body(RenderUnit(u))
  {
    UnquotedIsBody(RenderUnit(u));
  }

  lemma {:induction false} UnitsAreBody(units: Units)
    requires forall i :: 0 <= i < |units| ==> UnitOk(units[i])
    ensures Body(RenderUnits(units))
  {
    if units != [] {
      UnitIsBody(units[0]);
      UnitsAreBody(units[1..]);
      BodyConcat(RenderUnit(units[0]), RenderUnits(units[1..]));
    }
  }

  lemma NameIsBody(n: Name)
    requires NameOk(n)
    ensures Body(RenderName(n))
  {
    match n
    case Plain(text) => UnquotedIsBody(text);
    case Quoted(text) => QuotedIsBody(text);
  }

  /** The pieces of a printed statement are texts of the group. */
  ghost predicate BodyParts(clauses: seq<Clause>, last: Name) {
    && Body(RenderName(last))
    && forall i :: 0 <= i < |clauses| ==> Body(RenderHead(clauses[i].head)) && Body(RenderUnits(clauses[i].gap))
  }

  lemma OkParts(clauses: seq<Clause>, last: Name)
    requires ClausesOk(clauses) && NameOk(last)
    ensures BodyParts(clauses, last)
  {
    NameIsBody(last);
    forall i | 0 <= i < |clauses|
      ensures Body(RenderHead(clauses[i].head)) && Body(RenderUnits(clauses[i].gap))
    {
      var h := clauses[i].head;
      assert HeadOk(h) && UnitsOk(clauses[i].gap);
      if h.Ident? {
        NameIsBody(h.name);
      } else {
        UnquotedIsBody(h.text);
      }
      UnitsAreBody(clauses[i].gap);
    }
  }

  lemma {:induction false} RenderIsBody(clauses: seq<Clause>, last: Name, end: string)
    requires BodyParts(clauses, last) && Body(end)
    ensures Body(Render(clauses, last, end))
  {
    if clauses == [] {
      BodyConcat(RenderName(last), end);
    } else {
      var h, g, rest := clauses[0].head, clauses[0].gap, Render(clauses[1..], last, end);
      assert Body(RenderHead(h)) && Body(RenderUnits(g));
      RenderIsBody(clauses[1..], last, end);
      BodyConcat(RenderUnits(g), rest);
      BodyConcat(RenderHead(h), RenderUnits(g) + rest);
    }
  }

  lemma {:induction false} RenderEnd(clauses: seq<Clause>, last: Name, a: string, b: string)
    ensures Render(clauses, last, a + b) == Render(clauses, last, a) + b
  {
    if clauses == [] {
      assert RenderName(last) + (a + b) == RenderName(last) + a + b;
    } else {
      var h, g, rest := RenderHead(clauses[0].head), RenderUnits(clauses[0].gap), Render(clauses[1..], last, a);
      RenderEnd(clauses[1..], last, a, b);
      assert h + (g + (rest + b)) == h + (g + rest) + b;
    }
  }

  /** A text of the group without its first character, when that is a plain one. */
  lemma BodyTail(t: string)
    requires Body(t) && t != "" && IsWord(t[0])
    ensures Body(t[1..])
  {}

  /** A printed declaration is one statement. */
  lemma PrintIsStatement(e: Declaration)
    requires |e.gaps| == |Heads(e)| && BodyParts(Zip(Heads(e), e.gaps), Last(e)) && Body(e.tail)
    ensures Statement(Print(e))
  {
    var clauses, last := Zip(Heads(e), e.gaps), Last(e);
    var t := Render(clauses, last, e.tail);
    RenderEnd(clauses, last, e.tail, ";");
    RenderIsBody(clauses, last, e.tail);
    assert clauses[0].head == Word("CREATE");
    assert t[0] == 'C';
    BodyTail(t);
    assert Print(e)[1..|Print(e)| - 1] == t[1..];
  }

  lemma {:induction false} BodyUpper(t: string)
    requires Body(t)
    ensures Body(ToUpper(t))
    decreases |t|
  {
    var u := ToUpper(t);
    if t == "" {
    } else if !IsQuote(t[0]) && t[0] != ';' && Body(t[1..]) {
      BodyUpper(t[1..]);
      UpperIndex(t, 1);
      assert u[0] == UpperChar(t[0]);
    } else {
      var k :| IsQuotation(t, k) && Body(t[k + 1..]);
      BodyUpper(t[k + 1..]);
      UpperIndex(t, k + 1);
      assert forall i :: 1 <= i < k ==> t[1..k][i - 1] == t[i];
      assert forall i :: 0 <= i < k - 1 ==> u[1..k][i] == UpperChar(t[i + 1]);
      assert IsQuotation(u, k);
    }
  }

  /** A line that prints a declaration in any letter case is one statement. */
  lemma LineIsStatement(d: Declaration, line: string)
    requires Printable(d) && ToUpper(line) == Print(UpperDeclaration(d))
    ensures Statement(line)
  {
    var e := UpperDeclaration(d);
    BodyUpper(d.tail);
    OkParts(Zip(Heads(e), e.gaps), Last(e));
    PrintIsStatement(e);
    StatementUpper(line);
  }

  // ---------- the round trip ----------

  function AllMeanings(ds: seq<Declaration>): seq<SpringProperties.DatasourceInfo> {
    if ds == [] then [] else AllMeanings(ds[..|ds| - 1]) + Meaning(ds[|ds| - 1])
  }

  /** The line prints the declaration, in any letter case. */
  ghost predicate Prints(line: string, d: Declaration) {
    Printable(d) && |d.gaps| == |Heads(d)| && ToUpper(line) == ToUpper(Print(d))
  }

  lemma PrintedLine(line: string, d: Declaration)
    requires Prints(line, d)
    ensures OfLine(SERVER, WRAPPER, line) == Meaning(d)
    ensures Statement(line)
  {
    UpperPrint(d);
    LineMeans(d, line);
    LineIsStatement(d, line);
  }

  predicate EachMeans(server: seq<seq<Item>>, wrapper: seq<seq<Item>>, ds: seq<Declaration>, lines: seq<string>) {
    |ds| == |lines| && forall i :: 0 <= i < |ds| ==> OfLine(server, wrapper, lines[i]) == Meaning(ds[i])
  }

  lemma {:induction false} LinesMean(server: seq<seq<Item>>, wrapper: seq<seq<Item>>, ds: seq<Declaration>,
                                     lines: seq<string>)
    requires EachMeans(server, wrapper, ds, lines)
    ensures OfLines(server, wrapper, lines) == AllMeanings(ds)
  {
    if ds != [] {
      LinesMean(server, wrapper, ds[..|ds| - 1], lines[..|ds| - 1]);
    }
  }

  /** For any declarations, printed in any letter case and separated by anything without word characters,
      the parser returns exactly the lower-cased, unquoted names and types, in order. */
  lemma ParsingInvertsPrinting(ds: seq<Declaration>, lines: seq<string>, separators: seq<string>)
    requires |ds| == |lines| && |separators| == |lines| + 1
    requires forall i :: 0 <= i < |ds| ==> Prints(lines[i], ds[i])
    requires forall i :: 0 <= i < |separators| ==> WordFree(separators[i])
    ensures Declared(Interleaved(separators, lines)) == AllMeanings(ds)
  {
    forall i | 0 <= i < |lines|
      ensures Statement(lines[i])
      ensures OfLine(SERVER, WRAPPER, lines[i]) == Meaning(ds[i])
    {
      PrintedLine(lines[i], ds[i]);
    }
    TokenizeInverts(separators, lines);
    LinesMean(SERVER, WRAPPER, ds, lines);
  }
}
