/** ParseDataSourcesInfoFromDdl of pkg/util/vdbutil/parser.go: the data sources a DDL text declares. */
module DataSources {
  import opened Outcomes
  import opened Text
  import opened Ddl
  import opened SpringProperties

  // ---------- comments and space ----------

  /** The length up to and including the end of a block comment, behind its opening. As in the pattern, a
      star that does not close the comment is consumed together with the character behind it. */
  function BlockLength(s: string): (r: Option<nat>)
    ensures r.Some? ==> 2 <= r.value <= |s|
  {
    if s == "" then None
    else if s[0] != '*' then Plus(1, BlockLength(s[1..]))
    else if |s| == 1 then None
    else if s[1] == '/' then Some(2)
    else Plus(2, BlockLength(s[2..]))
  }

  function Plus(n: nat, r: Option<nat>): Option<nat> {
    if r.None? then None else Some(n + r.value)
  }

  predicate IsEol(c: char) { c == '\n' || c == '\r' }

  /** The length up to and including the end of a line comment, behind its opening. */
  function LineLength(s: string): (r: Option<nat>)
    ensures r.Some? ==> 1 <= r.value <= |s|
  {
    if s == "" then None
    else if IsEol(s[0]) then Some(1)
    else Plus(1, LineLength(s[1..]))
  }

  /** One comment or one space character at the start of `s`. */
  function UnitLength(s: string): (r: Option<nat>)
    ensures r.Some? ==> 1 <= r.value <= |s|
  {
    if s == "" then None
    else if IsSpace(s[0]) then Some(1)
    else if "/*" <= s then Plus(2, BlockLength(s[2..]))
    else if "--" <= s then Plus(2, LineLength(s[2..]))
    else None
  }

  /** All of them. */
  function GapLength(s: string): (n: nat)
    ensures n <= |s|
    decreases |s|
  {
    match UnitLength(s)
    case None => 0
    case Some(k) => k + GapLength(s[k..])
  }

  // ---------- names ----------

  function WordLength(s: string): (n: nat)
    ensures n <= |s|
    ensures forall i :: 0 <= i < n ==> IsWord(s[i])
    ensures n < |s| ==> !IsWord(s[n])
  {
    if s == "" || !IsWord(s[0]) then 0 else 1 + WordLength(s[1..])
  }

  function QuotesLength(s: string): (n: nat)
    ensures n <= |s|
    ensures forall i :: 0 <= i < n ==> s[i] == '\''
    ensures n < |s| ==> s[n] != '\''
  {
    if s == "" || s[0] != '\'' then 0 else 1 + QuotesLength(s[1..])
  }

  /** A word, a double-quoted name, or a single-quoted text with any number of closing quotes. */
  function IdLength(s: string): (r: Option<nat>)
    ensures r.Some? ==> 1 <= r.value <= |s|
  {
    if s == "" then None
    else if IsWord(s[0]) then Some(WordLength(s))
    else if s[0] == '"' then Plus(1, BehindQuote(s[1..], '"'))
    else if s[0] == '\'' then
      var k := BehindQuote(s[1..], '\'');
      if k.None? then None else Some(1 + k.value + QuotesLength(s[1 + k.value..]))
    else None
  }

  // ---------- patterns ----------

  datatype Item = Keyword(text: string) | Gap | Id

  /** The items with a gap between each two. */
  function Spaced(heads: seq<Item>, last: Item): seq<Item> {
    if heads == [] then [last] else [heads[0], Gap] + Spaced(heads[1..], last)
  }

  const SERVER_PLAIN :=
    [Keyword("CREATE"), Keyword("SERVER"), Id, Keyword("FOREIGN"), Keyword("DATA"), Keyword("WRAPPER")]
  const SERVER_TYPED :=
    [Keyword("CREATE"), Keyword("SERVER"), Id, Keyword("TYPE"), Id,
     Keyword("FOREIGN"), Keyword("DATA"), Keyword("WRAPPER")]
  const WRAPPER_HEADS :=
    [Keyword("CREATE"), Keyword("FOREIGN"), Keyword("DATA"), Keyword("WRAPPER"), Id, Keyword("TYPE")]

  /** The two readings of the server pattern; the one without TYPE is tried first. */
  const SERVER := [Spaced(SERVER_PLAIN, Id), Spaced(SERVER_TYPED, Id)]
  const WRAPPER := [Spaced(WRAPPER_HEADS, Id)]

  function ItemLength(item: Item, s: string): (r: Option<nat>)
    ensures r.Some? ==> r.value <= |s|
  {
    match item
    case Keyword(text) => if text <= s then Some(|text|) else None
    case Gap => if GapLength(s) > 0 then Some(GapLength(s)) else None
    case Id => IdLength(s)
  }

  /** The names captured when all items match one after the other at the start of `s`. */
  function MatchItems(items: seq<Item>, s: string): (r: Option<seq<string>>)
    ensures r.Some? ==> forall i :: 0 <= i < |r.value| ==> r.value[i] != "" && r.value[i] != "\""
    decreases items
  {
    if items == [] then Some([])
    else
      var n := ItemLength(items[0], s);
      if n.None? then None
      else
        var rest := MatchItems(items[1..], s[n.value..]);
        if rest.None? then None
        else if items[0].Id? then
          assert s[..n.value] != "\"" by {
            if s[0] == '"' {
              assert n.value >= 2;
            }
          }
          Some([s[..n.value]] + rest.value)
        else rest
  }

  /** The first reading that matches at the start of `s`. */
  function MatchHere(readings: seq<seq<Item>>, s: string): (r: Option<seq<string>>)
    ensures r.Some? ==> forall i :: 0 <= i < |r.value| ==> r.value[i] != "" && r.value[i] != "\""
  {
    if readings == [] then None
    else MatchItems(readings[0], s).OrElse(MatchHere(readings[1..], s))
  }

  /** The leftmost match. */
  function Search(readings: seq<seq<Item>>, s: string): (r: Option<seq<string>>)
    ensures r.Some? ==> forall i :: 0 <= i < |r.value| ==> r.value[i] != "" && r.value[i] != "\""
  {
    var here := MatchHere(readings, s);
    if here.Some? then here
    else if s == "" then None
    else Search(readings, s[1..])
  }

  // ---------- data sources ----------

  /** Slicing off the quotes fails on a lone quote; no captured name is one. */
  function StripQuotes(s: string): string
    requires s != "\""
  {
    if s != "" && s[0] == '"' && s[|s| - 1] == '"' then ToLower(s[1..|s| - 1]) else ToLower(s)
  }

  /** The data source of a match: its first name and its last one. */
  function Info(names: Option<seq<string>>): seq<DatasourceInfo>
    requires names.Some? ==> forall i :: 0 <= i < |names.value| ==> names.value[i] != "\""
  {
    if names.None? || names.value == [] then []
    else [DatasourceInfo(StripQuotes(names.value[0]), StripQuotes(names.value[|names.value| - 1]))]
  }

  /** What one statement declares, by a pattern for servers and one for wrappers. */
  function OfLine(server: seq<seq<Item>>, wrapper: seq<seq<Item>>, line: string): seq<DatasourceInfo> {
    Info(Search(server, ToUpper(line))) + Info(Search(wrapper, ToUpper(line)))
  }

  function OfLines(server: seq<seq<Item>>, wrapper: seq<seq<Item>>, lines: seq<string>): seq<DatasourceInfo> {
    if lines == [] then []
    else OfLines(server, wrapper, lines[..|lines| - 1]) + OfLine(server, wrapper, lines[|lines| - 1])
  }

  /** The data sources a DDL text declares, in order. */
  function Declared(ddl: string): seq<DatasourceInfo> {
    OfLines(SERVER, WRAPPER, Tokenize(ddl))
  }

  lemma LastLine(server: seq<seq<Item>>, wrapper: seq<seq<Item>>, lines: seq<string>, i: nat)
    requires i < |lines|
    ensures OfLines(server, wrapper, lines[..i + 1])
      == OfLines(server, wrapper, lines[..i]) + OfLine(server, wrapper, lines[i])
  {
    assert lines[..i + 1][..i] == lines[..i];
  }

  method MatchLines(serverRegEx: seq<seq<Item>>, wrapperRegEx: seq<seq<Item>>, lines: seq<string>)
    returns (sources: seq<DatasourceInfo>)
    ensures sources == OfLines(serverRegEx, wrapperRegEx, lines)
  {
    sources := [];
    var i := 0;
    while i < |lines|
      invariant 0 <= i <= |lines|
      invariant sources == OfLines(serverRegEx, wrapperRegEx, lines[..i])
    {
      LastLine(serverRegEx, wrapperRegEx, lines, i);
      var line := ToUpper(lines[i]);
      ghost var before := sources;
      var server := Search(serverRegEx, line);
      sources := sources + Info(server);
      var wrapper := Search(wrapperRegEx, line);
      sources := sources + Info(wrapper);
      assert sources == before + (Info(server) + Info(wrapper));
      i := i + 1;
    }
    assert lines[..i] == lines;
  }

  method ParseDataSourcesInfoFromDdl(ddl: string) returns (sources: seq<DatasourceInfo>)
    ensures sources == Declared(ddl)
  {
    var lines := Tokenize(ddl);
    sources := MatchLines(SERVER, WRAPPER, lines);
  }
}
