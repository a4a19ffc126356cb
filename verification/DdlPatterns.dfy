/** The scanner of DataSources finds exactly the matches of the patterns of pkg/util/vdbutil/parser.go, read as
    sets of texts: without backtracking it misses none. */
module DdlPatterns {
  import opened Outcomes
  import opened Text
  import opened Ddl
  import opened DataSources

  // ---------- the patterns as languages ----------

  /** ([^*]|\*[^/])* */
  predicate InBlock(t: string) {
    || t == ""
    || (t[0] != '*' && InBlock(t[1..]))
    || (|t| >= 2 && t[0] == '*' && t[1] != '/' && InBlock(t[2..]))
  }

  predicate IsBlock(t: string) {
    |t| >= 4 && "/*" <= t && t[|t| - 2] == '*' && t[|t| - 1] == '/' && InBlock(t[2..|t| - 2])
  }

  predicate IsLine(t: string) {
    |t| >= 3 && "--" <= t && IsEol(t[|t| - 1]) && forall i :: 2 <= i < |t| - 1 ==> !IsEol(t[i])
  }

  predicate IsUnit(t: string) {
    (|t| == 1 && IsSpace(t[0])) || IsBlock(t) || IsLine(t)
  }

  /** One or more comments or space characters. */
  ghost predicate IsGap(t: string) {
    exists k :: 1 <= k <= |t| && IsUnit(t[..k]) && (k == |t| || IsGap(t[k..]))
  }

  predicate IsPlain(t: string) {
    t != "" && forall i :: 0 <= i < |t| ==> IsWord(t[i])
  }

  /** A quote `q`, none inside and then at least one at the end, for double quotes only one. */
  predicate IsQuoted(t: string, q: char, k: int) {
    && 1 <= k < |t| && t[0] == q && q !in t[1..k] && (forall i :: k <= i < |t| ==> t[i] == q)
    && (q == '"' ==> k == |t| - 1)
  }

  ghost predicate IsId(t: string) {
    IsPlain(t) || exists q, k :: IsQuote(q) && IsQuoted(t, q, k)
  }

  ghost predicate Accepts(item: Item, t: string) {
    match item
    case Keyword(text) => t == text
    case Gap => IsGap(t)
    case Id => IsId(t)
  }

  /** A text cut into one part for each item, at the start of `s`. */
  ghost predicate Splits(items: seq<Item>, parts: seq<string>, s: string) {
    && |parts| == |items| && Concat(parts) <= s
    && forall i :: 0 <= i < |items| ==> Accepts(items[i], parts[i])
  }

  /** The parts for names. */
  function Names(items: seq<Item>, parts: seq<string>): seq<string>
    requires |parts| == |items|
  {
    if items == [] then []
    else (if items[0].Id? then [parts[0]] else []) + Names(items[1..], parts[1..])
  }

  // ---------- comments and space ----------

  lemma {:induction false} BlockExact(s: string, n: nat)
    requires n <= |s|
    ensures BlockLength(s) == Some(n) <==> n >= 2 && s[n - 2] == '*' && s[n - 1] == '/' && InBlock(s[..n - 2])
    decreases |s|
  {
    if n >= 3 && s[0] != '*' {
      BlockExact(s[1..], n - 1);
      assert s[..n - 2][1..] == s[1..][..n - 3];
    } else if n >= 4 && s[1] != '/' {
      BlockExact(s[2..], n - 2);
      assert s[..n - 2][2..] == s[2..][..n - 4];
    }
  }

  lemma {:induction false} LineExact(s: string, n: nat)
    requires n <= |s|
    ensures LineLength(s) == Some(n) <==> n >= 1 && IsEol(s[n - 1]) && forall i :: 0 <= i < n - 1 ==> !IsEol(s[i])
  {
    if n >= 2 {
      LineExact(s[1..], n - 1);
      assert forall i :: 1 <= i < n - 1 ==> s[1..][i - 1] == s[i];
    }
  }

  lemma UnitExact(s: string, n: nat)
    requires n <= |s|
    ensures UnitLength(s) == Some(n) <==> IsUnit(s[..n])
  {
    if n >= 2 {
      var t := s[2..];
      BlockExact(t, n - 2);
      LineExact(t, n - 2);
      if n >= 4 {
        assert s[..n][2..n - 2] == t[..n - 4];
      }
      assert forall i :: 2 <= i < n ==> s[..n][i] == t[i - 2];
    }
  }

  /** The scanned gap is a gap, and every gap in the text is where the scanner has been. */
  lemma {:induction false} GapScanned(s: string)
    ensures GapLength(s) > 0 ==> IsGap(s[..GapLength(s)])
    ensures UnitLength(s[GapLength(s)..]).None?
    decreases |s|
  {
    if UnitLength(s).Some? {
      var k, n := UnitLength(s).value, GapLength(s);
      UnitExact(s, k);
      GapScanned(s[k..]);
      assert s[..n][..k] == s[..k];
      assert s[..n][k..] == s[k..][..n - k];
      assert s[n..] == s[k..][n - k..];
    }
  }

  lemma {:induction false} GapIsLongest(s: string, n: nat)
    requires n <= |s| && IsGap(s[..n])
    ensures 0 < n <= GapLength(s)
    ensures n < GapLength(s) ==> UnitLength(s[n..]).Some?
    decreases n
  {
    var t := s[..n];
    var k :| 1 <= k <= |t| && IsUnit(t[..k]) && (k == |t| || IsGap(t[k..]));
    assert t[..k] == s[..k];
    UnitExact(s, k);
    if k < n {
      assert t[k..] == s[k..][..n - k];
      GapIsLongest(s[k..], n - k);
      assert s[k..][n - k..] == s[n..];
    }
  }

  // ---------- names ----------

  lemma IdScanned(s: string)
    requires IdLength(s).Some?
    ensures IsId(s[..IdLength(s).value])
  {
    var n := IdLength(s).value;
    var t := s[..n];
    if IsWord(s[0]) {
      assert IsPlain(t);
    } else {
      var q := s[0];
      var k := BehindQuote(s[1..], q).value;
      assert t[1..k] == s[1..][..k - 1];
      assert s[1..][k - 1] == s[k] == t[k];
      if q == '\'' {
        assert forall i :: 1 + k <= i < n ==> s[i] == s[1 + k..][i - 1 - k];
      }
      assert IsQuoted(t, q, k);
    }
  }

  lemma {:induction false} QuoteFirst(s: string, q: char, k: nat)
    requires k < |s| && s[k] == q && q !in s[..k]
    ensures BehindQuote(s, q) == Some(k + 1)
  {
    if k > 0 {
      assert s[0] in s[..k];
      forall i | 0 <= i < k - 1
        ensures s[1..][i] != q
      {
        assert s[i + 1] in s[..k];
      }
      QuoteFirst(s[1..], q, k - 1);
    }
  }

  lemma Inner(s: string, n: nat, k: nat)
    requires 1 <= k <= n <= |s|
    ensures s[1..][..k - 1] == s[..n][1..k]
  {}

  lemma IdIsLongest(s: string, n: nat)
    requires n <= |s| && IsId(s[..n])
    ensures IdLength(s).Some? && 0 < n <= IdLength(s).value
    ensures n < IdLength(s).value ==> IsWord(s[n]) || s[n] == '\''
  {
    var t := s[..n];
    if IsPlain(t) {
      assert t[0] == s[0];
      assert forall i :: 0 <= i < n ==> s[i] == t[i];
    } else {
      var q, k :| IsQuote(q) && IsQuoted(t, q, k);
      Inner(s, n, k);
      assert s[1..][k - 1] == s[k] == t[k];
      QuoteFirst(s[1..], q, k - 1);
      if q == '\'' {
        var rest := s[1 + k..];
        assert forall i :: 0 <= i < n - (1 + k) ==> rest[i] == t[1 + k + i];
        assert n < IdLength(s).value ==> s[n] == rest[n - (1 + k)];
      }
    }
  }

  // ---------- whole patterns ----------

  predicate HeadItem(item: Item) {
    item.Id? || (item.Keyword? && IsPlain(item.text))
  }

  predicate HeadItems(heads: seq<Item>) {
    forall i :: 0 <= i < |heads| ==> HeadItem(heads[i])
  }

  lemma ScannedAccepted(item: Item, s: string)
    requires ItemLength(item, s).Some?
    ensures Accepts(item, s[..ItemLength(item, s).value])
  {
    match item
    case Keyword(text) =>
    case Gap => GapScanned(s);
    case Id => IdScanned(s);
  }

  /** What the scanner matches, the pattern does, with the same names. */
  lemma {:induction false} MatchedSplits(items: seq<Item>, s: string) returns (parts: seq<string>)
    requires MatchItems(items, s).Some?
    ensures Splits(items, parts, s) && Names(items, parts) == MatchItems(items, s).value
    decreases items
  {
    parts := [];
    if items != [] {
      var n := ItemLength(items[0], s).value;
      ScannedAccepted(items[0], s);
      var rest := MatchedSplits(items[1..], s[n..]);
      parts := [s[..n]] + rest;
      assert parts[1..] == rest;
      assert s == s[..n] + s[n..];
      forall i | 0 <= i < |items|
        ensures Accepts(items[i], parts[i])
      {
        if i > 0 {
          assert items[i] == items[1..][i - 1];
        }
      }
    }
  }

  /** A name or keyword has no gap at its start, a gap no name or keyword. */
  lemma Apart(item: Item, t: string, s: string)
    requires Accepts(item, t) && t <= s && HeadItem(item)
    ensures t != "" && (IsWord(s[0]) || IsQuote(s[0])) && UnitLength(s).None?
  {
    assert t != "" && s[0] == t[0];
  }

  lemma GapStart(t: string, s: string)
    requires IsGap(t) && t <= s
    ensures t != "" && !IsWord(s[0]) && !IsQuote(s[0])
  {
    var k :| 1 <= k <= |t| && IsUnit(t[..k]) && (k == |t| || IsGap(t[k..]));
    assert s[0] == t[0] == t[..k][0];
  }

  lemma Peel(a: string, b: string, s: string)
    requires a + b <= s
    ensures a <= s && b <= s[|a|..]
  {
    assert s[|a|..][..|b|] == (a + b)[|a|..];
  }

  /** Before a gap the scanner takes neither less nor more than the part. */
  lemma HeadTaken(item: Item, t: string, s: string)
    requires HeadItem(item) && Accepts(item, t) && t < s && !IsWord(s[|t|]) && s[|t|] != '\''
    ensures ItemLength(item, s) == Some(|t|)
  {
    assert s[..|t|] == t;
    if item.Id? {
      IdIsLongest(s, |t|);
    }
  }

  /** Before a name or keyword the scanner takes neither less nor more than the gap. */
  lemma GapTaken(n: nat, s: string)
    requires n <= |s| && IsGap(s[..n]) && UnitLength(s[n..]).None?
    ensures GapLength(s) == n > 0
  {
    GapIsLongest(s, n);
  }

  /** A head before a gap is taken as it is. */
  lemma HeadBeforeGap(item: Item, head: string, gap: string, rest: string, s: string)
    requires HeadItem(item) && Accepts(item, head) && IsGap(gap) && head + (gap + rest) <= s
    ensures head <= s && ItemLength(item, s) == Some(|head|) && gap + rest <= s[|head|..]
  {
    Peel(head, gap + rest, s);
    var t := s[|head|..];
    Peel(gap, rest, t);
    GapStart(gap, t);
    assert s[|head|] == t[0];
    HeadTaken(item, head, s);
  }

  /** A gap before a head is taken as it is. */
  lemma GapBeforeHead(gap: string, next: Item, first: string, rest: string, t: string)
    requires IsGap(gap) && HeadItem(next) && Accepts(next, first) && gap + (first + rest) <= t
    ensures gap <= t && GapLength(t) == |gap| > 0 && first + rest <= t[|gap|..]
  {
    Peel(gap, first + rest, t);
    var u := t[|gap|..];
    Peel(first, rest, u);
    Apart(next, first, u);
    assert t[..|gap|] == gap;
    GapTaken(|gap|, t);
  }

  /** The names are the same but for the last, which may be longer in `b`. */
  predicate SameButLonger(a: seq<string>, b: seq<string>) {
    && |a| == |b| > 0 && a[..|a| - 1] == b[..|b| - 1] && a[|a| - 1] <= b[|b| - 1]
  }

  /** What the pattern matches, the scanner does: it finds the same names, and the longest last one. */
  lemma {:induction false} SplitMatched(heads: seq<Item>, parts: seq<string>, s: string)
    requires HeadItems(heads) && Splits(Spaced(heads, Id), parts, s)
    ensures MatchItems(Spaced(heads, Id), s).Some?
    ensures SameButLonger(Names(Spaced(heads, Id), parts), MatchItems(Spaced(heads, Id), s).value)
    decreases heads
  {
    var items := Spaced(heads, Id);
    assert Accepts(items[0], parts[0]);
    if heads == [] {
      LastSplit(parts, s);
    } else {
      var more := Spaced(heads[1..], Id);
      assert items == [heads[0], Gap] + more && items[1..] == [Gap] + more && items[1..][1..] == more;
      var head, gap, rest := parts[0], parts[1], parts[2..];
      assert parts[1..][1..] == rest;
      assert Accepts(items[1], gap) && Accepts(items[2], rest[0]);
      assert Concat(parts) == head + (gap + Concat(rest));
      assert Concat(rest) == rest[0] + Concat(rest[1..]);
      assert more[0] == if heads[1..] == [] then Id else heads[1];
      HeadBeforeGap(heads[0], head, gap, Concat(rest), s);
      GapBeforeHead(gap, more[0], rest[0], Concat(rest[1..]), s[|head|..]);
      RestSplits(items, parts, more, rest);
      var u := s[|head|..][|gap|..];
      SplitMatched(heads[1..], rest, u);
      NamesStep(items, parts, more, rest);
      MatchStep(items, s, head, more, u);
      AddFront(if items[0].Id? then [head] else [], Names(more, rest), MatchItems(more, u).value);
    }
  }

  lemma RestSplits(items: seq<Item>, parts: seq<string>, more: seq<Item>, rest: seq<string>)
    requires |items| == |parts| >= 2 && more == items[2..] && rest == parts[2..]
    requires forall i :: 0 <= i < |items| ==> Accepts(items[i], parts[i])
    ensures forall i :: 0 <= i < |more| ==> Accepts(more[i], rest[i])
  {
    forall i | 0 <= i < |more|
      ensures Accepts(more[i], rest[i])
    {
      assert more[i] == items[i + 2] && rest[i] == parts[i + 2];
    }
  }

  lemma NamesStep(items: seq<Item>, parts: seq<string>, more: seq<Item>, rest: seq<string>)
    requires |items| == |parts| >= 2 && items[1].Gap? && more == items[1..][1..] && rest == parts[1..][1..]
    ensures Names(items, parts) == (if items[0].Id? then [parts[0]] else []) + Names(more, rest)
  {
    assert Names(items[1..], parts[1..]) == Names(more, rest);
  }

  lemma MatchStep(items: seq<Item>, s: string, head: string, more: seq<Item>, u: string)
    requires |items| >= 2 && items[1].Gap? && more == items[1..][1..] && head <= s
    requires ItemLength(items[0], s) == Some(|head|)
    requires ItemLength(Gap, s[|head|..]).Some? && u == s[|head|..][ItemLength(Gap, s[|head|..]).value..]
    requires MatchItems(more, u).Some?
    ensures MatchItems(items, s).Some?
    ensures MatchItems(items, s).value == (if items[0].Id? then [head] else []) + MatchItems(more, u).value
  {
    assert s[..|head|] == head;
    assert MatchItems(items[1..], s[|head|..]) == MatchItems(more, u);
  }

  lemma AddFront(x: seq<string>, a: seq<string>, b: seq<string>)
    requires SameButLonger(a, b)
    ensures SameButLonger(x + a, x + b)
  {
    assert (x + a)[..|x + a| - 1] == x + a[..|a| - 1];
    assert (x + b)[..|x + b| - 1] == x + b[..|b| - 1];
  }

  lemma LastSplit(parts: seq<string>, s: string)
    requires Splits([Id], parts, s)
    ensures MatchItems([Id], s).Some? && SameButLonger(Names([Id], parts), MatchItems([Id], s).value)
  {
    var t := parts[0];
    assert [Id][0] == Id && Accepts(Id, t);
    assert parts[1..] == [] && Concat(parts) == t + Concat([]) == t;
    assert s[..|t|] == t;
    IdIsLongest(s, |t|);
    assert Names([Id], parts) == [t] + Names([], []) == [t];
    assert [Id][1..] == [];
    var n := IdLength(s).value;
    assert MatchItems([], s[n..]) == Some([]);
    assert MatchItems([Id], s) == Some([s[..n]] + []);
    assert t <= s[..n];
  }

  /** The scanner matches at the start of a text if and only if the pattern does. */
  lemma MatchesAsPattern(heads: seq<Item>, s: string)
    requires HeadItems(heads)
    ensures MatchItems(Spaced(heads, Id), s).Some? <==> exists parts :: Splits(Spaced(heads, Id), parts, s)
  {
    var items := Spaced(heads, Id);
    if MatchItems(items, s).Some? {
      var parts := MatchedSplits(items, s);
    }
    if parts :| Splits(items, parts, s) {
      SplitMatched(heads, parts, s);
    }
  }

  // ---------- the two readings, and the leftmost match ----------

  /** No text matches both when behind the same items two keywords differ in their first characters. */
  lemma {:induction false} NotBoth(front: seq<Item>, a: seq<Item>, b: seq<Item>, s: string)
    requires a != [] && a[0].Keyword? && a[0].text != "" && b != [] && b[0].Keyword? && b[0].text != ""
    requires a[0].text[0] != b[0].text[0]
    ensures MatchItems(front + a, s).None? || MatchItems(front + b, s).None?
    decreases front
  {
    if front == [] {
      assert front + a == a && front + b == b;
      assert a[0].text <= s ==> s[0] == a[0].text[0];
      assert b[0].text <= s ==> s[0] == b[0].text[0];
    } else {
      assert (front + a)[1..] == front[1..] + a && (front + b)[1..] == front[1..] + b;
      var n := ItemLength(front[0], s);
      if n.Some? {
        NotBoth(front[1..], a, b, s[n.value..]);
      }
    }
  }

  lemma {:induction false} SpacedConcat(a: seq<Item>, b: seq<Item>)
    ensures |Spaced(a, Gap)| == 2 * |a| + 1
    ensures Spaced(a + b, Id) == Spaced(a, Gap)[..2 * |a|] + Spaced(b, Id)
  {
    if a == [] {
      assert a + b == b;
    } else {
      assert (a + b)[1..] == a[1..] + b;
      SpacedConcat(a[1..], b);
      assert Spaced(a, Gap)[..2 * |a|] == [a[0], Gap] + Spaced(a[1..], Gap)[..2 * |a| - 2];
    }
  }

  /** A text cannot have the server pattern's optional TYPE and be without it: which of the two readings is
      tried first makes no difference. */
  lemma ReadingsExclude(s: string)
    ensures MatchItems(SERVER[0], s).None? || MatchItems(SERVER[1], s).None?
  {
    var front, a, b := SERVER_PLAIN[..3], SERVER_PLAIN[3..], SERVER_TYPED[3..];
    assert front + a == SERVER_PLAIN && front + b == SERVER_TYPED;
    SpacedConcat(front, a);
    SpacedConcat(front, b);
    NotBoth(Spaced(front, Gap)[..6], Spaced(a, Id), Spaced(b, Id), s);
  }

  /** The search takes the leftmost position at which a reading matches, and fails only if none does. */
  lemma {:induction false} SearchIsLeftmost(readings: seq<seq<Item>>, s: string) returns (i: nat)
    ensures i <= |s|
    ensures forall j :: 0 <= j < i ==> MatchHere(readings, s[j..]).None?
    ensures Search(readings, s) == MatchHere(readings, s[i..])
    ensures Search(readings, s).None? ==> i == |s|
  {
    assert s[0..] == s;
    i := 0;
    if MatchHere(readings, s).None? && s != "" {
      i := SearchIsLeftmost(readings, s[1..]);
      forall j | 0 <= j <= i
        ensures j > 0 ==> s[j..] == s[1..][j - 1..]
      {}
      assert s[i + 1..] == s[1..][i..];
      i := i + 1;
    }
  }
}
