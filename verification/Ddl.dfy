/** Tokenize of pkg/util/vdbutil/parser.go: splitting a DDL text into statements, minding quotes. */
module Ddl {
  import opened Outcomes
  import opened Text

  predicate IsQuote(c: char) { c == '\'' || c == '"' }

  // ---------- the pattern \w('[^']*'|"[^"]*"|[^'";])*; as a language ----------

  /** The texts of the starred group: plain characters and closed quotations. */
  ghost predicate Body(t: string) {
    || t == ""
    || (!IsQuote(t[0]) && t[0] != ';' && Body(t[1..]))
    || exists k :: IsQuotation(t, k) && Body(t[k + 1..])
  }

  /** The first `k + 1` characters of `t` are a quotation: a quote, none of its kind inside, and again it. */
  predicate IsQuotation(t: string, k: int) {
    1 <= k < |t| && IsQuote(t[0]) && t[k] == t[0] && t[0] !in t[1..k]
  }

  /** A text the pattern matches as a whole. */
  ghost predicate Statement(t: string) {
    |t| >= 2 && IsWord(t[0]) && t[|t| - 1] == ';' && Body(t[1..|t| - 1])
  }

  // ---------- the scanner ----------

  /** The position behind the first `q`. */
  function BehindQuote(s: string, q: char): (r: Option<nat>)
    ensures r.Some? ==> 1 <= r.value <= |s| && s[r.value - 1] == q && q !in s[..r.value - 1]
    ensures r.None? ==> q !in s
  {
    if s == "" then None
    else if s[0] == q then Some(1)
    else
      var r := BehindQuote(s[1..], q);
      if r.None? then None
      else
        assert s[..r.value] == [s[0]] + s[1..][..r.value - 1];
        Some(r.value + 1)
  }

  /** The length of the plain character or quotation at the start of `s`. */
  function AfterFirst(s: string): (r: Option<nat>)
    ensures r.Some? ==> 1 <= r.value <= |s|
  {
    if s == "" || s[0] == ';' then None
    else if IsQuote(s[0]) then
      var k := BehindQuote(s[1..], s[0]);
      if k.None? then None else Some(1 + k.value)
    else Some(1)
  }

  /** The length of the group and the semicolon at the start of `s`. */
  function BodyLength(s: string): (r: Option<nat>)
    ensures r.Some? ==> 1 <= r.value <= |s|
    decreases |s|
  {
    if s != "" && s[0] == ';' then Some(1)
    else if AfterFirst(s).None? then None
    else
      var k := AfterFirst(s).value;
      var r := BodyLength(s[k..]);
      if r.None? then None else Some(k + r.value)
  }

  /** The length of the match at the start of `s`. */
  function MatchLength(s: string): (r: Option<nat>)
    ensures r.Some? ==> 2 <= r.value <= |s|
  {
    if s == "" || !IsWord(s[0]) then None
    else
      var r := BodyLength(s[1..]);
      if r.None? then None else Some(1 + r.value)
  }

  /** All matches from left to right that do not overlap. */
  function Tokenize(s: string): seq<string> {
    if s == "" then []
    else if MatchLength(s).Some? then
      [s[..MatchLength(s).value]] + Tokenize(s[MatchLength(s).value..])
    else Tokenize(s[1..])
  }

  // ---------- the scanner finds exactly the pattern's matches ----------

  lemma CutBoth(s: string, k: nat, n: nat)
    requires k <= n <= |s|
    ensures s[..n][k..] == s[k..][..n - k]
  {}

  lemma QuotationScanned(t: string, k: int, rest: string)
    requires IsQuotation(t, k)
    ensures AfterFirst(t + rest) == Some(k + 1)
  {
    var s := t + rest;
    var r := BehindQuote(s[1..], t[0]);
    assert s[1..][k - 1] == t[0];
    assert s[1..][..k - 1] == t[1..k];
    assert r.Some? && r.value == k;
  }

  lemma ScanStep(a: string, b: string, k: nat)
    requires 0 < k <= |a| && AfterFirst(a + b) == Some(k) && BodyLength(a[k..] + b).Some?
    ensures BodyLength(a + b) == Some(k + BodyLength(a[k..] + b).value)
  {
    assert (a + b)[k..] == a[k..] + b;
  }

  /** A text of the group, followed by a semicolon, is consumed whole. */
  lemma {:induction false} BodyIsScanned(t: string, rest: string)
    requires Body(t)
    ensures BodyLength(t + (";" + rest)) == Some(|t| + 1)
    decreases |t|
  {
    var s := t + (";" + rest);
    if t == "" {
      assert s[0] == ';';
    } else if !IsQuote(t[0]) && t[0] != ';' && Body(t[1..]) {
      BodyIsScanned(t[1..], rest);
      ScanStep(t, ";" + rest, 1);
    } else {
      var k :| IsQuotation(t, k) && Body(t[k + 1..]);
      BodyIsScanned(t[k + 1..], rest);
      QuotationScanned(t, k, ";" + rest);
      ScanStep(t, ";" + rest, k + 1);
    }
  }

  lemma ScannedQuotation(s: string, n: nat)
    requires n <= |s| && s != "" && IsQuote(s[0]) && AfterFirst(s).Some? && AfterFirst(s).value <= n
    ensures IsQuotation(s[..n], AfterFirst(s).value - 1)
  {
    var t, k := s[..n], BehindQuote(s[1..], s[0]).value;
    assert t[1..k] == s[1..][..k - 1];
    assert s[1..][k - 1] == s[k] == t[k];
  }

  /** What the scanner consumes is a text of the group and a semicolon. */
  lemma {:induction false} ScannedIsBody(s: string)
    requires BodyLength(s).Some?
    ensures
      var n := BodyLength(s).value;
      s[n - 1] == ';' && Body(s[..n - 1])
  {
    var n := BodyLength(s).value;
    var t := s[..n - 1];
    if s[0] == ';' {
      assert t == "";
    } else if IsQuote(s[0]) {
      var k := AfterFirst(s).value;
      ScannedIsBody(s[k..]);
      CutBoth(s, k, n - 1);
      ScannedQuotation(s, n - 1);
      assert IsQuotation(t, k - 1) && Body(t[k - 1 + 1..]);
    } else {
      ScannedIsBody(s[1..]);
      CutBoth(s, 1, n - 1);
    }
  }

  lemma StatementScanned(t: string, rest: string)
    requires Statement(t)
    ensures MatchLength(t + rest) == Some(|t|)
  {
    var body := t[1..|t| - 1];
    BodyIsScanned(body, rest);
    assert t == [t[0]] + body + ";";
    assert (t + rest)[1..] == body + (";" + rest);
  }

  lemma ScannedStatement(s: string)
    requires MatchLength(s).Some?
    ensures Statement(s[..MatchLength(s).value])
  {
    var n := MatchLength(s).value;
    ScannedIsBody(s[1..]);
    assert s[..n][1..n - 1] == s[1..][..n - 2];
  }

  /** At every position the scanner finds the pattern's match and there is no other one. */
  lemma MatchesExactly(s: string, n: nat)
    requires n <= |s|
    ensures MatchLength(s) == Some(n) <==> Statement(s[..n])
  {
    if Statement(s[..n]) {
      StatementScanned(s[..n], s[n..]);
      assert s == s[..n] + s[n..];
    }
    if MatchLength(s) == Some(n) {
      ScannedStatement(s);
    }
  }

  // ---------- joining and splitting ----------

  /** Separators and statements in turn, from the first separator on. */
  function Interleaved(separators: seq<string>, statements: seq<string>): string
    requires |separators| == |statements| + 1
  {
    if statements == [] then separators[0]
    else separators[0] + statements[0] + Interleaved(separators[1..], statements[1..])
  }

  predicate WordFree(s: string) {
    forall i :: 0 <= i < |s| ==> !IsWord(s[i])
  }

  lemma {:induction false} SkipSeparator(separator: string, rest: string)
    requires WordFree(separator)
    ensures Tokenize(separator + rest) == Tokenize(rest)
  {
    if separator == "" {
      assert separator + rest == rest;
    } else {
      assert (separator + rest)[1..] == separator[1..] + rest;
      SkipSeparator(separator[1..], rest);
    }
  }

  lemma TakeStatement(t: string, rest: string)
    requires Statement(t)
    ensures Tokenize(t + rest) == [t] + Tokenize(rest)
  {
    var s := t + rest;
    assert s[..|t|] == t && s[|t|..] == rest;
    MatchesExactly(s, |t|);
  }

  /** Splitting undoes joining: statements with any separators free of word characters between them. */
  lemma {:induction false} TokenizeInverts(separators: seq<string>, statements: seq<string>)
    requires |separators| == |statements| + 1
    requires forall i :: 0 <= i < |separators| ==> WordFree(separators[i])
    requires forall i :: 0 <= i < |statements| ==> Statement(statements[i])
    ensures Tokenize(Interleaved(separators, statements)) == statements
  {
    if statements == [] {
      SkipSeparator(separators[0], "");
      assert separators[0] + "" == separators[0];
    } else {
      var rest := Interleaved(separators[1..], statements[1..]);
      TokenizeInverts(separators[1..], statements[1..]);
      SkipSeparator(separators[0], statements[0] + rest);
      assert separators[0] + statements[0] + rest == separators[0] + (statements[0] + rest);
      TakeStatement(statements[0], rest);
    }
  }

  /** Every token is a statement. */
  lemma {:induction false} TokensAreStatements(s: string)
    ensures forall i :: 0 <= i < |Tokenize(s)| ==> Statement(Tokenize(s)[i])
  {
    if s != "" {
      var m := MatchLength(s);
      if m.Some? {
        MatchesExactly(s, m.value);
        TokensAreStatements(s[m.value..]);
      } else {
        TokensAreStatements(s[1..]);
      }
    }
  }

  lemma {:induction false} TokenizeConcat(statements: seq<string>)
    requires forall i :: 0 <= i < |statements| ==> Statement(statements[i])
    ensures Tokenize(Concat(statements)) == statements
  {
    if statements != [] {
      TokenizeConcat(statements[1..]);
      TakeStatement(statements[0], Concat(statements[1..]));
    }
  }

  /** Splitting is stable: the tokens of the joined tokens are the tokens. */
  lemma TokenizeStable(s: string)
    ensures Tokenize(Concat(Tokenize(s))) == Tokenize(s)
  {
    TokensAreStatements(s);
    TokenizeConcat(Tokenize(s));
  }

  // ---------- letter case and concatenation ----------

  lemma UpperIndex(s: string, n: nat)
    requires n <= |s|
    ensures ToUpper(s)[n..] == ToUpper(s[n..])
  {}

  lemma {:induction false} BehindQuoteUpper(s: string, q: char)
    requires IsQuote(q)
    ensures BehindQuote(ToUpper(s), q) == BehindQuote(s, q)
  {
    if s != "" {
      UpperIndex(s, 1);
      BehindQuoteUpper(s[1..], q);
    }
  }

  lemma AfterFirstUpper(s: string)
    ensures AfterFirst(ToUpper(s)) == AfterFirst(s)
  {
    if s != "" && IsQuote(s[0]) {
      UpperIndex(s, 1);
      BehindQuoteUpper(s[1..], s[0]);
    }
  }

  lemma {:induction false} BodyLengthUpper(s: string)
    ensures BodyLength(ToUpper(s)) == BodyLength(s)
    decreases |s|
  {
    var u := ToUpper(s);
    AfterFirstUpper(s);
    assert s != "" ==> (u[0] == ';' <==> s[0] == ';');
    if AfterFirst(s).Some? {
      var k := AfterFirst(s).value;
      UpperIndex(s, k);
      BodyLengthUpper(s[k..]);
      assert BodyLength(u[k..]) == BodyLength(s[k..]);
    }
  }

  /** Being a statement does not depend on letter case. */
  lemma StatementUpper(s: string)
    ensures Statement(ToUpper(s)) <==> Statement(s)
  {
    var u := ToUpper(s);
    assert s[..|s|] == s && u[..|u|] == u;
    MatchesExactly(s, |s|);
    MatchesExactly(u, |u|);
    if s != "" {
      UpperIndex(s, 1);
      BodyLengthUpper(s[1..]);
    }
  }

  lemma {:induction false} BodyConcat(a: string, b: string)
    requires Body(a) && Body(b)
    ensures Body(a + b)
    decreases |a|
  {
    if a == "" {
      assert a + b == b;
    } else if !IsQuote(a[0]) && a[0] != ';' && Body(a[1..]) {
      assert (a + b)[1..] == a[1..] + b;
      BodyConcat(a[1..], b);
    } else {
      var k :| IsQuotation(a, k) && Body(a[k + 1..]);
      assert (a + b)[k + 1..] == a[k + 1..] + b;
      assert (a + b)[1..k] == a[1..k];
      BodyConcat(a[k + 1..], b);
      assert IsQuotation(a + b, k);
    }
  }

  /** A text without quotes and semicolons. */
  predicate Unquoted(t: string) {
    forall i :: 0 <= i < |t| ==> !IsQuote(t[i]) && t[i] != ';'
  }

  lemma {:induction false} UnquotedIsBody(t: string)
    requires Unquoted(t)
    ensures Body(t)
  {
    if t != "" {
      UnquotedIsBody(t[1..]);
    }
  }

  lemma QuotedIsBody(text: string)
    requires '"' !in text
    ensures Body("\"" + text + "\"")
  {
    var t := "\"" + text + "\"";
    assert t[1..|t| - 1] == text;
    assert IsQuotation(t, |t| - 1);
    assert t[|t|..] == "";
  }
}
