/** Printed data source declarations, and what the scanner of DataSources does on their texts. */
module DdlPrinter {
  import opened Outcomes
  import opened Text
  import opened Ddl
  import opened DataSources

  // ---------- pieces of a statement ----------

  /** A space character, a block comment or a line comment. */
  datatype Unit = White(c: char) | Block(body: string) | Line(body: string, eol: char)

  type Units = seq<Unit>

  datatype Name = Plain(text: string) | Quoted(text: string)

  /** A keyword or a name. */
  datatype Head = Word(text: string) | Ident(name: Name)

  /** A keyword or a name and the gap behind it. */
  datatype Clause = Clause(head: Head, gap: Units)

  function RenderUnit(u: Unit): string {
    match u
    case White(c) => [c]
    case Block(body) => "/*" + body + "*/"
    case Line(body, eol) => "--" + body + [eol]
  }

  function RenderUnits(units: Units): string {
    if units == [] then "" else RenderUnit(units[0]) + RenderUnits(units[1..])
  }

  function RenderName(n: Name): string {
    match n
    case Plain(text) => text
    case Quoted(text) => "\"" + text + "\""
  }

  function RenderHead(h: Head): string {
    match h
    case Word(text) => text
    case Ident(name) => RenderName(name)
  }

  /** The clauses one after the other, then the last name and what ends the statement. */
  function Render(clauses: seq<Clause>, last: Name, end: string): string {
    if clauses == [] then RenderName(last) + end
    else RenderHead(clauses[0].head) + (RenderUnits(clauses[0].gap) + Render(clauses[1..], last, end))
  }

  // ---------- what makes the parts harmless ----------

  predicate StartsGap(s: string) {
    s != "" && (IsSpace(s[0]) || "/*" <= s || "--" <= s)
  }

  /** No CREATE in `s` is, or could be by what comes after `s`, followed by space or a comment. */
  predicate Harmless(s: string) {
    forall i :: 0 <= i <= |s| && OccursAt(s, "CREATE", i) ==> HarmlessBehind(s[i + 6..])
  }

  predicate HarmlessBehind(s: string) {
    s != "" && !StartsGap(s) && (|s| == 1 ==> s[0] != '-' && s[0] != '/')
  }

  /** A unit that is one: a space character, a block comment without a star inside, or a line comment
      without a line end inside. */
  predicate UnitShape(u: Unit) {
    match u
    case White(c) => IsSpace(c)
    case Block(body) => '*' !in body
    case Line(body, eol) => IsEol(eol) && forall i :: 0 <= i < |body| ==> !IsEol(body[i])
  }

  /** Moreover a comment has neither quotes nor semicolons and no CREATE that a gap seems to follow. */
  predicate UnitOk(u: Unit) {
    UnitShape(u) && (!u.White? ==> Unquoted(u.body) && Harmless(RenderUnit(u)))
  }

  predicate UnitsShape(units: Units) {
    units != [] && forall i :: 0 <= i < |units| ==> UnitShape(units[i])
  }

  predicate UnitsOk(units: Units) {
    units != [] && forall i :: 0 <= i < |units| ==> UnitOk(units[i])
  }

  predicate AllWord(s: string) {
    forall i :: 0 <= i < |s| ==> IsWord(s[i])
  }

  /** A plain name is a word, a quoted one has no quote inside. */
  predicate NameShape(n: Name) {
    match n
    case Plain(text) => text != "" && AllWord(text)
    case Quoted(text) => '"' !in text
  }

  /** Moreover a quoted name has no CREATE that a gap seems to follow. */
  predicate NameOk(n: Name) {
    NameShape(n) && (n.Quoted? ==> Harmless(RenderName(n)))
  }

  predicate HeadShape(h: Head) {
    match h
    case Word(text) => text != "" && AllWord(text)
    case Ident(name) => NameShape(name)
  }

  predicate HeadOk(h: Head) {
    match h
    case Word(text) => text != "" && AllWord(text) && (text == "CREATE" || 'C' !in text)
    case Ident(name) => NameOk(name)
  }

  predicate ClausesShape(clauses: seq<Clause>) {
    forall i :: 0 <= i < |clauses| ==> HeadShape(clauses[i].head) && UnitsShape(clauses[i].gap)
  }

  predicate ClausesOk(clauses: seq<Clause>) {
    forall i :: 0 <= i < |clauses| ==> HeadOk(clauses[i].head) && UnitsOk(clauses[i].gap)
  }

  lemma OkIsShape(clauses: seq<Clause>)
    requires ClausesOk(clauses)
    ensures ClausesShape(clauses)
  {
    forall i | 0 <= i < |clauses|
      ensures HeadShape(clauses[i].head) && UnitsShape(clauses[i].gap)
    {
      assert HeadOk(clauses[i].head) && UnitsOk(clauses[i].gap);
    }
  }

  predicate EndShape(last: Name, end: string) {
    last.Plain? ==> end == "" || !IsWord(end[0])
  }

  /** Behind a gap at its start, `end` does not go on with a keyword of the patterns. */
  predicate Unrelated(end: string) {
    var rest := end[GapLength(end)..];
    GapLength(end) == 0 || (!("SERVER" <= rest) && !("FOREIGN" <= rest) && !("TYPE" <= rest))
  }

  /** What may end a statement whose last name is `last`. */
  predicate EndOk(last: Name, end: string) {
    && end != "" && EndsOpen(end) && Harmless(end) && Unrelated(end)
    && (last.Plain? ==> !IsWord(end[0]))
  }

  predicate EndsOpen(a: string) {
    a != "" && a[|a| - 1] !in "CREAT"
  }

  // ---------- scanning the parts ----------

  lemma {:induction false} BlockScanned(body: string, rest: string)
    requires '*' !in body
    ensures BlockLength(body + "*/" + rest) == Some(|body| + 2)
  {
    var s := body + "*/" + rest;
    if body == "" {
      assert s[0] == '*' && s[1] == '/';
    } else {
      assert s[1..] == body[1..] + "*/" + rest;
      BlockScanned(body[1..], rest);
    }
  }

  lemma {:induction false} LineScanned(body: string, eol: char, rest: string)
    requires IsEol(eol) && forall i :: 0 <= i < |body| ==> !IsEol(body[i])
    ensures LineLength(body + [eol] + rest) == Some(|body| + 1)
  {
    var s := body + [eol] + rest;
    if body == "" {
      assert s[0] == eol;
    } else {
      assert s[1..] == body[1..] + [eol] + rest;
      LineScanned(body[1..], eol, rest);
    }
  }

  lemma UnitScanned(u: Unit, rest: string)
    requires UnitShape(u)
    ensures UnitLength(RenderUnit(u) + rest) == Some(|RenderUnit(u)|)
  {
    match u
    case White(c) =>
    case Block(body) =>
      BehindOpening("/*", body + "*/", rest);
      assert "/*" + body + "*/" == "/*" + (body + "*/");
      BlockScanned(body, rest);
    case Line(body, eol) =>
      BehindOpening("--", body + [eol], rest);
      assert "--" + body + [eol] == "--" + (body + [eol]);
      LineScanned(body, eol, rest);
  }

  lemma BehindOpening(opening: string, body: string, rest: string)
    requires |opening| == 2
    ensures
      var s := opening + body + rest;
      opening <= s && s[0] == opening[0] && s[1] == opening[1] && s[2..] == body + rest
  {}

  lemma {:induction false} GapScanned(units: Units, rest: string)
    requires (forall i :: 0 <= i < |units| ==> UnitShape(units[i])) && UnitLength(rest).None?
    ensures GapLength(RenderUnits(units) + rest) == |RenderUnits(units)|
  {
    if units == [] {
      assert "" + rest == rest;
    } else {
      var u, more := RenderUnit(units[0]), RenderUnits(units[1..]);
      assert u + more + rest == u + (more + rest);
      UnitScanned(units[0], more + rest);
      assert (u + (more + rest))[|u|..] == more + rest;
      GapScanned(units[1..], rest);
    }
  }

  lemma {:induction false} WordScanned(text: string, rest: string)
    requires AllWord(text) && (rest == "" || !IsWord(rest[0]))
    ensures WordLength(text + rest) == |text|
  {
    if text == "" {
      assert "" + rest == rest;
    } else {
      assert (text + rest)[1..] == text[1..] + rest;
      WordScanned(text[1..], rest);
    }
  }

  lemma {:induction false} QuoteScanned(text: string, q: char, rest: string)
    requires q !in text
    ensures BehindQuote(text + [q] + rest, q) == Some(|text| + 1)
  {
    var s := text + [q] + rest;
    if text != "" {
      assert s[1..] == text[1..] + [q] + rest;
      QuoteScanned(text[1..], q, rest);
    }
  }

  lemma NameScanned(n: Name, rest: string)
    requires NameShape(n) && EndShape(n, rest)
    ensures IdLength(RenderName(n) + rest) == Some(|RenderName(n)|)
  {
    match n
    case Plain(text) => WordScanned(text, rest);
    case Quoted(text) =>
      var s := RenderName(n) + rest;
      assert s[0] == '"' && s[1..] == text + ['"'] + rest;
      QuoteScanned(text, '"', rest);
  }

  predicate Corresponds(item: Item, h: Head) {
    match h
    case Word(text) => item == Keyword(text)
    case Ident(_) => item == Id
  }

  function Captured(h: Head): seq<string> {
    if h.Ident? then [RenderName(h.name)] else []
  }

  function AllCaptured(clauses: seq<Clause>): seq<string> {
    if clauses == [] then [] else Captured(clauses[0].head) + AllCaptured(clauses[1..])
  }

  function Prepend(names: seq<string>, r: Option<seq<string>>): Option<seq<string>> {
    if r.None? then None else Some(names + r.value)
  }

  lemma {:induction false} UnitsNotEmpty(units: Units)
    requires UnitsShape(units)
    ensures RenderUnits(units) != ""
    ensures StartsGap(RenderUnits(units)) && !IsWord(RenderUnits(units)[0])
  {
    var u := units[0];
    assert UnitShape(u);
    var r := RenderUnits(units);
    if u.Block? {
      assert r[..2] == "/*";
    } else if u.Line? {
      assert r[..2] == "--";
    }
  }

  lemma MatchStep(items: seq<Item>, a: string, b: string)
    requires items != [] && ItemLength(items[0], a + b) == Some(|a|)
    ensures MatchItems(items, a + b) == Prepend(if items[0].Id? then [a] else [], MatchItems(items[1..], b))
  {
    assert (a + b)[|a|..] == b && (a + b)[..|a|] == a;
    var r := MatchItems(items[1..], b);
    if r.Some? {
      assert [] + r.value == r.value;
    }
  }

  lemma PrependTwice(x: seq<string>, y: seq<string>, r: Option<seq<string>>)
    ensures Prepend(x, Prepend(y, r)) == Prepend(x + y, r)
  {
    if r.Some? {
      assert x + (y + r.value) == x + y + r.value;
    }
  }

  lemma PrependNothing(r: Option<seq<string>>)
    ensures Prepend([], r) == r
  {
    if r.Some? {
      assert [] + r.value == r.value;
    }
  }

  /** A head and its gap are consumed together. */
  lemma ClauseMatched(item: Item, c: Clause, items: seq<Item>, rest: string)
    requires Corresponds(item, c.head) && HeadShape(c.head) && UnitsShape(c.gap) && UnitLength(rest).None?
    ensures MatchItems([item, Gap] + items, RenderHead(c.head) + (RenderUnits(c.gap) + rest)) ==
      Prepend(Captured(c.head), MatchItems(items, rest))
  {
    var h, g := RenderHead(c.head), RenderUnits(c.gap);
    UnitsNotEmpty(c.gap);
    GapScanned(c.gap, rest);
    if c.head.Ident? {
      NameScanned(c.head.name, g + rest);
    } else {
      assert (h + (g + rest))[..|h|] == h;
    }
    var all := [item, Gap] + items;
    MatchStep(all, h, g + rest);
    assert all[1..] == [Gap] + items && all[1..][1..] == items;
    MatchStep(all[1..], g, rest);
    PrependNothing(MatchItems(items, rest));
  }

  lemma RenderStarts(clauses: seq<Clause>, last: Name, end: string)
    requires ClausesShape(clauses) && NameShape(last)
    ensures UnitLength(Render(clauses, last, end)).None?
  {
    var h := if clauses == [] then RenderName(last) else RenderHead(clauses[0].head);
    assert h != "" && (IsWord(h[0]) || h[0] == '"');
    var s := Render(clauses, last, end);
    assert s[0] == h[0];
    NoUnit(s);
  }

  lemma NoUnit(s: string)
    requires !StartsGap(s)
    ensures UnitLength(s).None?
  {}

  /** The first heads of a pattern correspond to the heads of the clauses. */
  predicate HeadsCorrespond(heads: seq<Item>, clauses: seq<Clause>) {
    |clauses| <= |heads| && forall i :: 0 <= i < |clauses| ==> Corresponds(heads[i], clauses[i].head)
  }

  lemma HeadsTail(heads: seq<Item>, clauses: seq<Clause>)
    requires clauses != [] && HeadsCorrespond(heads, clauses) && ClausesShape(clauses)
    ensures HeadsCorrespond(heads[1..], clauses[1..]) && ClausesShape(clauses[1..])
  {
    forall i | 0 <= i < |clauses[1..]|
      ensures Corresponds(heads[1..][i], clauses[1..][i].head)
      ensures HeadShape(clauses[1..][i].head) && UnitsShape(clauses[1..][i].gap)
    {
      assert Corresponds(heads[i + 1], clauses[i + 1].head);
      assert HeadShape(clauses[i + 1].head);
    }
  }

  /** Clauses are consumed by the heads they correspond to; what is left must match the rest. */
  lemma {:induction false} ClausesMatched(heads: seq<Item>, clauses: seq<Clause>, more: seq<Clause>, last: Name,
                                          end: string)
    requires HeadsCorrespond(heads, clauses) && ClausesShape(clauses) && ClausesShape(more) && NameShape(last)
    ensures MatchItems(Spaced(heads, Id), Render(clauses + more, last, end)) ==
      Prepend(AllCaptured(clauses), MatchItems(Spaced(heads[|clauses|..], Id), Render(more, last, end)))
    decreases |clauses|
  {
    if clauses == [] {
      assert clauses + more == more && heads[0..] == heads;
      PrependNothing(MatchItems(Spaced(heads, Id), Render(more, last, end)));
    } else {
      var rest := Render(clauses[1..] + more, last, end);
      assert (clauses + more)[1..] == clauses[1..] + more;
      assert Corresponds(heads[0], clauses[0].head) && HeadShape(clauses[0].head);
      HeadsTail(heads, clauses);
      RenderStarts(clauses[1..] + more, last, end);
      ClauseMatched(heads[0], clauses[0], Spaced(heads[1..], Id), rest);
      ClausesMatched(heads[1..], clauses[1..], more, last, end);
      assert heads[1..][|clauses[1..]|..] == heads[|clauses|..];
      PrependTwice(Captured(clauses[0].head), AllCaptured(clauses[1..]),
                   MatchItems(Spaced(heads[|clauses|..], Id), Render(more, last, end)));
    }
  }

  /** A pattern with as many heads as there are clauses captures all names. */
  lemma AllMatched(heads: seq<Item>, clauses: seq<Clause>, last: Name, end: string)
    requires |heads| == |clauses| && HeadsCorrespond(heads, clauses) && ClausesShape(clauses)
    requires NameShape(last) && EndShape(last, end)
    ensures MatchItems(Spaced(heads, Id), Render(clauses, last, end)) ==
      Some(AllCaptured(clauses) + [RenderName(last)])
  {
    ClausesMatched(heads, clauses, [], last, end);
    assert clauses + [] == clauses && heads[|clauses|..] == [];
    NameScanned(last, end);
    MatchStep([Id], RenderName(last), end);
    assert [Id][1..] == [];
    assert [RenderName(last)] + [] == [RenderName(last)];
  }

  /** A keyword of the pattern meets a keyword of the text that starts with another letter. */
  lemma KeywordMissed(heads: seq<Item>, clauses: seq<Clause>, more: seq<Clause>, last: Name, end: string)
    requires HeadsCorrespond(heads, clauses) && ClausesShape(clauses) && ClausesShape(more) && NameShape(last)
    requires |heads| > |clauses| && more != [] && heads[|clauses|].Keyword? && more[0].head.Word?
    requires heads[|clauses|].text != "" && heads[|clauses|].text[0] != more[0].head.text[0]
    ensures MatchItems(Spaced(heads, Id), Render(clauses + more, last, end)).None?
  {
    ClausesMatched(heads, clauses, more, last, end);
    var items, s := Spaced(heads[|clauses|..], Id), Render(more, last, end);
    assert items[0] == heads[|clauses|];
    assert HeadShape(more[0].head);
    assert s[0] == more[0].head.text[0];
  }

  /** The pattern goes on behind the last name, with one of the keywords that `end` does not hold. */
  lemma EndMissed(heads: seq<Item>, clauses: seq<Clause>, last: Name, end: string)
    requires HeadsCorrespond(heads, clauses) && ClausesShape(clauses) && NameShape(last)
    requires EndShape(last, end) && Unrelated(end)
    requires |heads| >= |clauses| + 2 && heads[|clauses|] == Id
    requires heads[|clauses| + 1] in {Keyword("SERVER"), Keyword("FOREIGN"), Keyword("TYPE")}
    ensures MatchItems(Spaced(heads, Id), Render(clauses, last, end)).None?
  {
    ClausesMatched(heads, clauses, [], last, end);
    assert clauses + [] == clauses;
    NameThenMissed(heads[|clauses|..], last, end);
  }

  lemma NameThenMissed(left: seq<Item>, last: Name, end: string)
    requires NameShape(last) && EndShape(last, end) && Unrelated(end)
    requires |left| >= 2 && left[0] == Id
    requires left[1] in {Keyword("SERVER"), Keyword("FOREIGN"), Keyword("TYPE")}
    ensures MatchItems(Spaced(left, Id), RenderName(last) + end).None?
  {
    var items := Spaced(left, Id);
    NameScanned(last, end);
    assert items[0] == Id;
    MatchStep(items, RenderName(last), end);
    assert items[1..] == [Gap] + Spaced(left[1..], Id);
    GapThenMissed(left[1..], end);
  }

  lemma GapThenMissed(heads: seq<Item>, end: string)
    requires Unrelated(end) && heads != []
    requires heads[0] in {Keyword("SERVER"), Keyword("FOREIGN"), Keyword("TYPE")}
    ensures MatchItems([Gap] + Spaced(heads, Id), end).None?
  {
    var items := [Gap] + Spaced(heads, Id);
    var n := GapLength(end);
    assert items[1..] == Spaced(heads, Id) && items[1..][0] == heads[0];
    if n > 0 {
      assert ItemLength(items[1..][0], end[n..]).None?;
    }
  }

  // ---------- searching past the parts ----------

  /** Every reading starts with CREATE and a gap. */
  predicate StartsWithCreate(readings: seq<seq<Item>>) {
    forall i :: 0 <= i < |readings| ==>
      |readings[i]| >= 2 && readings[i][0] == Keyword("CREATE") && readings[i][1] == Gap
  }

  lemma NoReading(items: seq<Item>, s: string)
    requires |items| >= 2 && items[0] == Keyword("CREATE") && items[1] == Gap
    requires "CREATE" <= s ==> UnitLength(s[6..]).None?
    ensures MatchItems(items, s).None?
  {
    if "CREATE" <= s {
      var rest := items[1..];
      assert rest[0] == Gap && GapLength(s[6..]) == 0;
      assert ItemLength(rest[0], s[6..]).None?;
      assert MatchItems(rest, s[6..]).None?;
      assert ItemLength(items[0], s) == Some(6);
    }
  }

  lemma {:induction false} NoMatchHere(readings: seq<seq<Item>>, s: string)
    requires StartsWithCreate(readings)
    requires "CREATE" <= s ==> UnitLength(s[6..]).None?
    ensures MatchHere(readings, s).None?
  {
    if readings != [] {
      NoReading(readings[0], s);
      assert forall i :: 0 <= i < |readings[1..]| ==> readings[1..][i] == readings[i + 1];
      NoMatchHere(readings[1..], s);
    }
  }

  lemma SearchStep(readings: seq<seq<Item>>, s: string)
    requires s != "" && MatchHere(readings, s).None?
    ensures Search(readings, s) == Search(readings, s[1..])
  {}

  lemma SearchEmpty(readings: seq<seq<Item>>)
    requires StartsWithCreate(readings)
    ensures Search(readings, "").None?
  {
    NoMatchHere(readings, "");
  }

  /** The search passes a text without the letter C. */
  lemma {:induction false} SkipNoC(readings: seq<seq<Item>>, a: string, b: string)
    requires StartsWithCreate(readings) && 'C' !in a
    ensures Search(readings, a + b) == Search(readings, b)
  {
    if a == "" {
      assert a + b == b;
    } else {
      assert (a + b)[0] != 'C';
      NoMatchHere(readings, a + b);
      assert (a + b)[1..] == a[1..] + b;
      SkipNoC(readings, a[1..], b);
    }
  }

  lemma HarmlessTail(a: string)
    requires a != "" && Harmless(a)
    ensures Harmless(a[1..])
  {
    forall i | 0 <= i <= |a[1..]| && OccursAt(a[1..], "CREATE", i)
      ensures HarmlessBehind(a[1..][i + 6..])
    {
      assert a[i + 1..i + 1 + 6] == a[1..][i..i + 6];
      assert OccursAt(a, "CREATE", i + 1);
      assert a[1..][i + 6..] == a[i + 1 + 6..];
    }
  }

  /** CREATE at the start of `a + b` lies within `a` when the last character of `a` is none of its letters. */
  lemma CreateWithin(a: string, b: string)
    requires EndsOpen(a) && "CREATE" <= a + b
    ensures "CREATE" <= a
  {
    var s := a + b;
    assert forall k :: 0 <= k < 6 ==> s[k] == "CREATE"[k];
    assert a[|a| - 1] == s[|a| - 1];
    assert |a| >= 6;
    assert a[..6] == s[..6];
  }

  /** The search passes a harmless text. */
  lemma {:induction false} SkipHarmless(readings: seq<seq<Item>>, a: string, b: string)
    requires StartsWithCreate(readings) && Harmless(a) && (a != "" ==> EndsOpen(a))
    ensures Search(readings, a + b) == Search(readings, b)
  {
    if a == "" {
      assert a + b == b;
    } else {
      var s := a + b;
      if "CREATE" <= s {
        CreateWithin(a, b);
        assert a[0..6] == "CREATE";
        assert OccursAt(a, "CREATE", 0);
        assert a[0 + 6..] == a[6..];
        HarmlessGap(a[6..], b);
        assert s[6..] == a[6..] + b;
      }
      NoMatchHere(readings, s);
      assert s[1..] == a[1..] + b;
      HarmlessTail(a);
      SkipHarmless(readings, a[1..], b);
    }
  }

  lemma HarmlessGap(a: string, b: string)
    requires HarmlessBehind(a)
    ensures UnitLength(a + b).None?
  {
    var s := a + b;
    assert s[0] == a[0];
    if |a| >= 2 {
      assert s[..2] == a[..2];
    }
    NoUnit(s);
  }

  /** The search passes a word, provided that nothing matches from a CREATE at its end. */
  lemma {:induction false} SkipWord(readings: seq<seq<Item>>, a: string, b: string)
    requires StartsWithCreate(readings) && AllWord(a) && (b == "" || !IsWord(b[0]))
    requires MatchHere(readings, "CREATE" + b).None?
    ensures Search(readings, a + b) == Search(readings, b)
  {
    if a == "" {
      assert a + b == b;
    } else {
      var s := a + b;
      if a == "CREATE" {
      } else {
        if "CREATE" <= s {
          WordBehindCreate(a, b);
        }
        NoMatchHere(readings, s);
      }
      assert s[1..] == a[1..] + b;
      SkipWord(readings, a[1..], b);
    }
  }

  lemma WordBehindCreate(a: string, b: string)
    requires AllWord(a) && a != "CREATE" && (b == "" || !IsWord(b[0])) && "CREATE" <= a + b
    ensures UnitLength((a + b)[6..]).None?
  {
    var s := a + b;
    assert forall k :: 0 <= k < 6 ==> s[k] == "CREATE"[k] && IsWord(s[k]);
    assert b != "" ==> s[|a|] == b[0];
    assert |a| >= 6;
    assert a[..6] == s[..6] == "CREATE";
    assert a == a[..6] + a[6..];
    assert a[6..] != "";
    assert s[6..][0] == a[6];
  }

  lemma {:induction false} SkipUnits(readings: seq<seq<Item>>, units: Units, b: string)
    requires StartsWithCreate(readings) && forall i :: 0 <= i < |units| ==> UnitOk(units[i])
    ensures Search(readings, RenderUnits(units) + b) == Search(readings, b)
  {
    if units == [] {
      assert "" + b == b;
    } else {
      var u, more := RenderUnit(units[0]), RenderUnits(units[1..]);
      assert u + more + b == u + (more + b);
      assert UnitOk(units[0]);
      if units[0].White? {
        assert u == [units[0].c];
        SkipNoC(readings, u, more + b);
      } else {
        SkipHarmless(readings, u, more + b);
      }
      SkipUnits(readings, units[1..], b);
    }
  }

  /** The search passes a head that no match starts from. */
  lemma SkipHead(readings: seq<seq<Item>>, h: Head, b: string)
    requires StartsWithCreate(readings) && HeadOk(h) && (b == "" || !IsWord(b[0]) || (h.Ident? && h.name.Quoted?))
    requires h != Word("CREATE")
    requires h.Ident? && h.name.Plain? ==> MatchHere(readings, "CREATE" + b).None?
    ensures Search(readings, RenderHead(h) + b) == Search(readings, b)
  {
    match h
    case Word(text) => SkipNoC(readings, text, b);
    case Ident(Plain(text)) => SkipWord(readings, text, b);
    case Ident(Quoted(text)) => SkipHarmless(readings, RenderName(h.name), b);
  }

  /** A CREATE clause with the gap of `c`, as seen from a name that ends in CREATE. */
  function CreateLike(c: Clause): Clause {
    Clause(Word("CREATE"), c.gap)
  }

  /** From no plain name that ends in CREATE does a match start. */
  predicate NoneFromNames(readings: seq<seq<Item>>, clauses: seq<Clause>, last: Name, end: string) {
    if clauses == [] then
      last.Plain? ==> MatchHere(readings, "CREATE" + end).None?
    else
      && (clauses[0].head.Ident? && clauses[0].head.name.Plain? ==>
            MatchHere(readings, Render([CreateLike(clauses[0])] + clauses[1..], last, end)).None?)
      && NoneFromNames(readings, clauses[1..], last, end)
  }

  /** The search finds nothing in the clauses that follow the first one. */
  lemma {:induction false} NothingFound(readings: seq<seq<Item>>, clauses: seq<Clause>, last: Name, end: string)
    requires StartsWithCreate(readings) && ClausesOk(clauses) && NameOk(last) && EndOk(last, end)
    requires forall i :: 0 <= i < |clauses| ==> clauses[i].head != Word("CREATE")
    requires NoneFromNames(readings, clauses, last, end)
    ensures Search(readings, Render(clauses, last, end)).None?
  {
    if clauses == [] {
      SkipHead(readings, Ident(last), end);
      SkipHarmless(readings, end, "");
      assert end + "" == end;
      SearchEmpty(readings);
    } else {
      var c, rest := clauses[0], Render(clauses[1..], last, end);
      assert HeadOk(c.head) && UnitsOk(c.gap);
      OkIsShape(clauses);
      UnitsNotEmpty(c.gap);
      assert ([CreateLike(c)] + clauses[1..])[1..] == clauses[1..];
      SkipHead(readings, c.head, RenderUnits(c.gap) + rest);
      SkipUnits(readings, c.gap, rest);
      ClausesTail(clauses);
      NothingFound(readings, clauses[1..], last, end);
    }
  }

  lemma ClausesTail(clauses: seq<Clause>)
    requires clauses != [] && ClausesOk(clauses)
    ensures ClausesOk(clauses[1..])
  {
    forall i | 0 <= i < |clauses[1..]|
      ensures HeadOk(clauses[1..][i].head) && UnitsOk(clauses[1..][i].gap)
    {
      assert HeadOk(clauses[i + 1].head);
    }
  }

  /** A statement in which nothing matches, neither at its CREATE nor behind it. */
  lemma NothingInStatement(readings: seq<seq<Item>>, gap: Units, clauses: seq<Clause>, last: Name, end: string)
    requires StartsWithCreate(readings) && UnitsOk(gap) && ClausesOk(clauses) && NameOk(last) && EndOk(last, end)
    requires forall i :: 0 <= i < |clauses| ==> clauses[i].head != Word("CREATE")
    requires NoneFromNames(readings, clauses, last, end)
    requires MatchHere(readings, Render([Clause(Word("CREATE"), gap)] + clauses, last, end)).None?
    ensures Search(readings, Render([Clause(Word("CREATE"), gap)] + clauses, last, end)).None?
  {
    var all := [Clause(Word("CREATE"), gap)] + clauses;
    assert all[1..] == clauses;
    var rest := Render(clauses, last, end);
    SkipCreate(readings, RenderUnits(gap) + rest);
    SkipUnits(readings, gap, rest);
    NothingFound(readings, clauses, last, end);
  }

  /** When nothing matches at its start, the search passes the first CREATE too. */
  lemma SkipCreate(readings: seq<seq<Item>>, b: string)
    requires StartsWithCreate(readings) && MatchHere(readings, "CREATE" + b).None?
    ensures Search(readings, "CREATE" + b) == Search(readings, b)
  {
    var s := "CREATE" + b;
    assert s[1..] == "REATE" + b;
    SearchStep(readings, s);
    SkipNoC(readings, "REATE", b);
  }
}
