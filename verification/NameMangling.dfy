/** The name mangling of convert-ds-properties.go: camel case to lower case with dashes. */
module NameMangling {
  import opened Text

  // ---------- splitting at capitals ----------

  /** The first position from `from` on that holds a capital, or the length. */
  function NextUpper(s: string, from: nat): (i: nat)
    requires from <= |s|
    ensures from <= i <= |s|
    ensures i < |s| ==> IsUpper(s[i])
    ensures forall j :: from <= j < i ==> !IsUpper(s[j])
    decreases |s| - from
  {
    if from == |s| || IsUpper(s[from]) then from else NextUpper(s, from + 1)
  }

  /** A camel-case word: not empty, no capital behind its first character. */
  predicate IsHump(w: string) {
    w != "" && forall j :: 1 <= j < |w| ==> !IsUpper(w[j])
  }

  /** A split of `s` into camel-case words, every later one starting with a capital. */
  predicate IsCamelSplit(words: seq<string>, s: string) {
    && Concat(words) == s
    && (forall i :: 0 <= i < |words| ==> IsHump(words[i]))
    && (forall i :: 1 <= i < |words| ==> IsUpper(words[i][0]))
  }

  lemma MoveWord(words: seq<string>, s: string, l: nat)
    requires l <= |s|
    ensures Concat(words + [s[..l]]) + s[l..] == Concat(words) + s
  {
    ConcatSnoc(words, s[..l]);
    assert Concat(words) + s == (Concat(words) + s[..l]) + s[l..];
  }

  method TokenizeAtUpperCase(str: string) returns (words: seq<string>)
    ensures IsCamelSplit(words, str)
  {
    words := [];
    var s := str;
    while s != ""
      invariant Concat(words) + s == str
      invariant forall i :: 0 <= i < |words| ==> IsHump(words[i])
      invariant forall i :: 1 <= i < |words| ==> IsUpper(words[i][0])
      invariant words != [] && s != "" ==> IsUpper(s[0])
      decreases |s|
    {
      var l := NextUpper(s, 1);
      MoveWord(words, s, l);
      words := words + [s[..l]];
      s := s[l..];
    }
    assert Concat(words) + "" == Concat(words);
  }

  /** There is only one such split. */
  lemma {:induction false} CamelSplitUnique(a: seq<string>, b: seq<string>, s: string)
    requires IsCamelSplit(a, s) && IsCamelSplit(b, s)
    ensures a == b
  {
    if a == [] || b == [] {
      assert a == b;
    } else {
      FirstHump(a, s);
      FirstHump(b, s);
      var l := NextUpper(s, 1);
      assert forall i :: 0 <= i < |a[1..]| ==> a[1..][i] == a[i + 1];
      assert forall i :: 0 <= i < |b[1..]| ==> b[1..][i] == b[i + 1];
      CamelSplitUnique(a[1..], b[1..], s[l..]);
      assert a == [a[0]] + a[1..] && b == [b[0]] + b[1..];
    }
  }

  lemma FirstHump(words: seq<string>, s: string)
    requires IsCamelSplit(words, s) && words != []
    ensures s != "" && words[0] == s[..NextUpper(s, 1)]
    ensures Concat(words[1..]) == s[NextUpper(s, 1)..]
  {
    var w, rest := words[0], Concat(words[1..]);
    assert s == w + rest;
    assert forall j :: 1 <= j < |w| ==> s[j] == w[j];
    if |words| > 1 {
      assert words[1..][0] == words[1];
      assert rest[0] == words[1][0] == s[|w|];
    } else {
      assert rest == "";
    }
    assert NextUpper(s, 1) == |w|;
  }

  // ---------- sanitizeName ----------

  /** The rule by characters: a dash goes before a capital unless the character before it is the first,
      another capital, a period or a dash. */
  predicate DashBefore(v: string, i: nat)
    requires i < |v|
  {
    i >= 2 && IsUpper(v[i]) && !IsUpper(v[i - 1]) && v[i - 1] != '.' && v[i - 1] != '-'
  }

  /** The first `n` characters in lower case, with those dashes. */
  function Dashed(v: string, n: nat): string
    requires n <= |v|
  {
    if n == 0 then ""
    else Dashed(v, n - 1) + (if DashBefore(v, n - 1) then "-" else "") + [LowerChar(v[n - 1])]
  }

  function Sanitized(v: string): string { Dashed(v, |v|) }

  /** A word without capitals behind its first character is copied in lower case. */
  lemma {:induction false} DashedHump(v: string, p: nat, n: nat)
    requires p < p + n <= |v|
    requires forall j :: p < j < p + n ==> !IsUpper(v[j])
    ensures Dashed(v, p + n) == Dashed(v, p) + (if DashBefore(v, p) then "-" else "") + ToLower(v[p..p + n])
  {
    if n == 1 {
      LowerNext(v, p, 1);
      assert v[p..p] == "";
      assert ToLower("") + [LowerChar(v[p])] == [LowerChar(v[p])];
    } else {
      DashedHump(v, p, n - 1);
      LowerNext(v, p, n);
    }
  }

  lemma LowerNext(v: string, p: nat, n: nat)
    requires p < p + n <= |v|
    ensures ToLower(v[p..p + n]) == ToLower(v[p..p + n - 1]) + [LowerChar(v[p + n - 1])]
  {}

  /** Where the words before position `i` end. */
  function EndOf(words: seq<string>, i: nat): nat
    requires i <= |words|
  {
    |Concat(words[..i])|
  }

  lemma {:induction false} ConcatSplit(words: seq<string>, i: nat)
    requires i <= |words|
    ensures Concat(words) == Concat(words[..i]) + Concat(words[i..])
  {
    if i == 0 {
      assert words[..0] == [] && words[0..] == words;
    } else {
      assert words[..i] == [words[0]] + words[1..][..i - 1] && words[1..][i - 1..] == words[i..];
      ConcatSplit(words[1..], i - 1);
    }
  }

  /** Word `i` of a split of `v` is found in `v` behind the words before it. */
  lemma HumpAt(words: seq<string>, v: string, i: nat)
    requires IsCamelSplit(words, v) && i < |words|
    ensures EndOf(words, i + 1) == EndOf(words, i) + |words[i]| <= |v|
    ensures forall j :: 0 <= j < |words[i]| ==> v[EndOf(words, i) + j] == words[i][j]
  {
    ConcatSplit(words, i);
    assert words[i..] == [words[i]] + words[i + 1..];
    assert Concat(words[i..]) == words[i] + Concat(words[i + 1..]);
    assert words[..i + 1] == words[..i] + [words[i]];
    ConcatSnoc(words[..i], words[i]);
  }

  lemma HumpWithin(words: seq<string>, v: string, i: nat)
    requires IsCamelSplit(words, v) && i < |words|
    ensures words[i] != "" && EndOf(words, i) + |words[i]| <= |v|
    ensures v[EndOf(words, i)..EndOf(words, i) + |words[i]|] == words[i]
    ensures forall j :: EndOf(words, i) < j < EndOf(words, i) + |words[i]| ==> !IsUpper(v[j])
  {
    HumpAt(words, v, i);
    var p, w := EndOf(words, i), words[i];
    assert IsHump(w);
    forall j | p < j < p + |w| ensures !IsUpper(v[j]) {
      assert v[p + (j - p)] == w[j - p];
    }
  }

  /** The test on the previous word is the rule by characters. */
  lemma DashByPreviousWord(words: seq<string>, v: string, i: nat)
    requires IsCamelSplit(words, v) && 1 <= i < |words|
    ensures EndOf(words, i) < |v|
    ensures
      var prev := words[i - 1];
      DashBefore(v, EndOf(words, i)) <==> |prev| > 1 && prev[|prev| - 1] != '.' && prev[|prev| - 1] != '-'
  {
    HumpAt(words, v, i - 1);
    HumpAt(words, v, i);
    var p, prev := EndOf(words, i), words[i - 1];
    assert v[p] == words[i][0];
    assert v[p - 1] == prev[|prev| - 1];
    if i == 1 {
      assert words[..0] == [];
    }
  }

  method SanitizeName(v: string) returns (modified: string)
    ensures modified == Sanitized(v)
  {
    var tokens := TokenizeAtUpperCase(v);
    modified := "";
    var i := 0;
    assert tokens[..0] == [];
    while i < |tokens|
      invariant 0 <= i <= |tokens|
      invariant EndOf(tokens, i) <= |v| && modified == Dashed(v, EndOf(tokens, i))
    {
      var str := tokens[i];
      ghost var p := EndOf(tokens, i);
      HumpAt(tokens, v, i);
      HumpWithin(tokens, v, i);
      DashedHump(v, p, |str|);
      if i == 0 {
        modified := ToLower(str);
      } else {
        var prev := tokens[i - 1];
        DashByPreviousWord(tokens, v, i);
        if |prev| == 1 || (|prev| > 1 && prev[|prev| - 1] == '.') || (|prev| > 1 && prev[|prev| - 1] == '-') {
          modified := modified + ToLower(str);
        } else {
          modified := modified + "-" + ToLower(str);
        }
      }
      i := i + 1;
    }
    assert tokens[..i] == tokens;
  }

  // ---------- properties ----------

  function RemoveDash(s: string): string {
    if s == "" then ""
    else RemoveDash(s[..|s| - 1]) + (if s[|s| - 1] == '-' then "" else [s[|s| - 1]])
  }

  function EnvReady(v: string): string {
    seq(|v|, i requires 0 <= i < |v| => if v[i] == '.' || v[i] == '-' then '_' else UpperChar(v[i]))
  }

  /** The number of places where two dashes meet. */
  function DoubleDashes(s: string): nat {
    if |s| < 2 then 0
    else DoubleDashes(s[..|s| - 1]) + (if s[|s| - 2] == '-' && s[|s| - 1] == '-' then 1 else 0)
  }

  lemma RemoveDashSnoc(s: string, c: char)
    ensures RemoveDash(s + [c]) == RemoveDash(s) + (if c == '-' then "" else [c])
  {
    assert (s + [c])[..|s|] == s;
  }

  lemma DoubleDashesSnoc(s: string, c: char)
    ensures DoubleDashes(s + [c]) == DoubleDashes(s) + (if s != "" && s[|s| - 1] == '-' && c == '-' then 1 else 0)
  {
    assert (s + [c])[..|s|] == s;
  }

  lemma LowerSnoc(v: string, n: nat)
    requires 0 < n <= |v|
    ensures ToLower(v[..n]) == ToLower(v[..n - 1]) + [LowerChar(v[n - 1])]
  {}

  /** Apart from dashes the name is only put into lower case. */
  lemma {:induction false} DashedLetters(v: string, n: nat)
    requires n <= |v|
    ensures RemoveDash(Dashed(v, n)) == RemoveDash(ToLower(v[..n]))
  {
    if n > 0 {
      var d, c := Dashed(v, n - 1), LowerChar(v[n - 1]);
      DashedLetters(v, n - 1);
      LowerSnoc(v, n);
      RemoveDashSnoc(ToLower(v[..n - 1]), c);
      DashedSnoc(v, n);
      if DashBefore(v, n - 1) {
        RemoveDashSnoc(d, '-');
        RemoveDashSnoc(d + ['-'], c);
        assert RemoveDash(d) + "" == RemoveDash(d);
      } else {
        RemoveDashSnoc(d, c);
        assert d + [] + [c] == d + [c];
      }
    }
  }

  lemma DashedSnoc(v: string, n: nat)
    requires 0 < n <= |v|
    ensures Dashed(v, n) == Dashed(v, n - 1) + (if DashBefore(v, n - 1) then ['-'] else []) + [LowerChar(v[n - 1])]
  {}

  /** A dash between other characters meets no dash. */
  lemma DashesStep(d: string, low: string, c: char, dash: string)
    requires DoubleDashes(d) == DoubleDashes(low)
    requires (d == "" && low == "") || (d != "" && low != "" && d[|d| - 1] == low[|low| - 1])
    requires dash == "" || (dash == "-" && d != "" && d[|d| - 1] != '-' && c != '-')
    ensures DoubleDashes(d + dash + [c]) == DoubleDashes(low + [c])
  {
    DoubleDashesSnoc(low, c);
    if dash == "" {
      assert d + dash == d;
      DoubleDashesSnoc(d, c);
    } else {
      DoubleDashesSnoc(d, '-');
      DoubleDashesSnoc(d + dash, c);
    }
  }

  lemma {:induction false} DashedLast(v: string, n: nat)
    requires n <= |v|
    ensures n > 0 ==> Dashed(v, n) != "" && Dashed(v, n)[|Dashed(v, n)| - 1] == LowerChar(v[n - 1])
  {}

  /** No two dashes meet that did not before. */
  lemma {:induction false} DashedDashes(v: string, n: nat)
    requires n <= |v|
    ensures DoubleDashes(Dashed(v, n)) == DoubleDashes(ToLower(v[..n]))
  {
    if n > 0 {
      DashedDashes(v, n - 1);
      DashedLast(v, n - 1);
      LowerSnoc(v, n);
      DashedSnoc(v, n);
      DashesStep(Dashed(v, n - 1), ToLower(v[..n - 1]), LowerChar(v[n - 1]), if DashBefore(v, n - 1) then "-" else "");
    }
  }

  lemma {:induction false} DashedLower(v: string, n: nat)
    requires n <= |v|
    ensures forall i :: 0 <= i < |Dashed(v, n)| ==> !IsUpper(Dashed(v, n)[i])
  {
    if n > 0 {
      DashedLower(v, n - 1);
    }
  }

  lemma {:induction false} DashedLength(v: string, n: nat)
    requires n <= |v|
    ensures n > 0 ==> 2 * |Dashed(v, n)| <= 3 * n - 1
  {
    if n >= 2 {
      DashedLength(v, n - 1);
      if DashBefore(v, n - 1) {
        DashedLength(v, n - 2);
        assert !DashBefore(v, n - 2);
      }
    }
  }

  lemma {:induction false} NoCapitalsNoDashes(v: string, n: nat)
    requires n <= |v| && forall i :: 0 <= i < |v| ==> !IsUpper(v[i])
    ensures Dashed(v, n) == v[..n]
  {
    if n > 0 {
      NoCapitalsNoDashes(v, n - 1);
      assert v[..n - 1] + "" + [v[n - 1]] == v[..n];
    }
  }

  /** What sanitizeName promises: it is idempotent, only changes case and adds dashes, adds at most one
      dash for every two characters but the last, and makes no new double dash. */
  lemma SanitizedLaws(v: string)
    ensures Sanitized(Sanitized(v)) == Sanitized(v)
    ensures RemoveDash(Sanitized(v)) == RemoveDash(ToLower(v))
    ensures v != "" ==> |v| <= |Sanitized(v)| <= |v| + (|v| - 1) / 2
    ensures DoubleDashes(Sanitized(v)) == DoubleDashes(ToLower(v))
  {
    assert v[..|v|] == v;
    DashedLetters(v, |v|);
    DashedDashes(v, |v|);
    DashedLower(v, |v|);
    DashedLength(v, |v|);
    DashedGrows(v, |v|);
    var r := Sanitized(v);
    NoCapitalsNoDashes(r, |r|);
    assert r[..|r|] == r;
  }

  lemma {:induction false} DashedGrows(v: string, n: nat)
    requires n <= |v|
    ensures n <= |Dashed(v, n)|
  {
    if n > 0 {
      DashedGrows(v, n - 1);
    }
  }

  // ---------- the names by their words ----------

  lemma {:induction false} DashedOfFront(v: string, p: nat, n: nat)
    requires n <= p <= |v|
    ensures Dashed(v[..p], n) == Dashed(v, n)
  {
    if n > 0 {
      DashedOfFront(v, p, n - 1);
    }
  }

  /** One word is put into lower case. */
  lemma SanitizedFirst(w: string)
    requires IsHump(w)
    ensures Sanitized(w) == ToLower(w)
  {
    DashedHump(w, 0, |w|);
    assert w[0..0 + |w|] == w;
    assert "" + "" + ToLower(w) == ToLower(w);
  }

  /** Every further word is put into lower case behind a dash, which is missing when the previous word is one
      character or ends in a period or a dash. */
  lemma SanitizedNext(words: seq<string>, w: string)
    requires words != [] && IsCamelSplit(words + [w], Concat(words) + w)
    ensures
      var prev := words[|words| - 1];
      Sanitized(Concat(words) + w) ==
        Sanitized(Concat(words))
        + (if |prev| <= 1 || prev[|prev| - 1] == '.' || prev[|prev| - 1] == '-' then "" else "-")
        + ToLower(w)
  {
    var front, v, k := Concat(words), Concat(words) + w, |words|;
    var all := words + [w];
    assert all[k - 1] == words[k - 1] && all[k] == w && all[..k] == words;
    assert IsHump(all[k - 1]);
    HumpWithin(all, v, k);
    DashByPreviousWord(all, v, k);
    DashedHump(v, |front|, |w|);
    DashedOfFront(v, |front|, |front|);
    assert v[..|front|] == front && |front| + |w| == |v|;
  }

  /** Camel-case words that each have two characters or more, none of them a period or a dash. */
  predicate PlainHumps(words: seq<string>) {
    && (forall i :: 0 <= i < |words| ==>
          IsHump(words[i]) && |words[i]| >= 2 && '.' !in words[i] && '-' !in words[i])
    && (forall i :: 1 <= i < |words| ==> IsUpper(words[i][0]))
  }

  function LowerAll(words: seq<string>): seq<string> {
    seq(|words|, i requires 0 <= i < |words| => ToLower(words[i]))
  }

  /** Such words are joined with dashes, in lower case. */
  lemma {:induction false} HumpsJoined(words: seq<string>)
    requires PlainHumps(words)
    ensures Sanitized(Concat(words)) == Join(LowerAll(words), "-")
  {
    if |words| == 1 {
      assert Concat(words) == words[0] + "" == words[0];
      SanitizedFirst(words[0]);
      assert LowerAll(words) == [ToLower(words[0])];
    } else if |words| > 1 {
      var front, w := words[..|words| - 1], words[|words| - 1];
      assert words == front + [w];
      assert LowerAll(words) == LowerAll(front) + [ToLower(w)];
      HumpsJoined(front);
      ConcatSnoc(front, w);
      SanitizedNext(front, w);
      JoinSnoc(LowerAll(front), ToLower(w), "-");
    }
  }

  /** Dashes are dropped, and nothing else is. */
  lemma {:induction false} RemoveDashConcat(a: string, b: string)
    ensures RemoveDash(a + b) == RemoveDash(a) + RemoveDash(b)
  {
    if b != "" {
      var front, c := b[..|b| - 1], b[|b| - 1];
      RemoveDashConcat(a, front);
      assert a + b == (a + front) + [c] && b == front + [c];
      RemoveDashSnoc(a + front, c);
      RemoveDashSnoc(front, c);
    } else {
      assert a + b == a;
    }
  }

  lemma {:induction false} NothingDropped(a: string)
    requires '-' !in a
    ensures RemoveDash(a) == a
  {
    if a != "" {
      NothingDropped(a[..|a| - 1]);
    }
  }

  /** A dash in front of a word is dropped. */
  lemma DashDropped(a: string, w: string)
    requires '-' !in w
    ensures RemoveDash(a + "-" + w) == RemoveDash(a) + w
  {
    RemoveDashConcat(a + "-", w);
    RemoveDashSnoc(a, '-');
    NothingDropped(w);
  }
}
