/** Decimal numbers as strconv.Atoi and strconv.Itoa read and print them: 64-bit integers. */
module Numbers {
  import opened Outcomes
  import opened Text

  const MAX_INT: int := 0x7FFF_FFFF_FFFF_FFFF
  const MIN_INT: int := -0x8000_0000_0000_0000

  function Digit(n: nat): char
    requires n < 10
  {
    ('0' as int + n) as char
  }

  function PrintNat(n: nat): string {
    if n < 10 then [Digit(n)] else PrintNat(n / 10) + [Digit(n % 10)]
  }

  function Itoa(n: int): string {
    if n < 0 then "-" + PrintNat(-n) else PrintNat(n)
  }

  predicate AllDigits(s: string) {
    forall i :: 0 <= i < |s| ==> IsDigit(s[i])
  }

  function ValueOf(s: string): (n: int)
    requires AllDigits(s)
    ensures n >= 0
  {
    if s == "" then 0 else 10 * ValueOf(s[..|s| - 1]) + (s[|s| - 1] as int - '0' as int)
  }

  function Atoi(s: string): Option<int> {
    var signed := s != "" && (s[0] == '-' || s[0] == '+');
    var digits := if signed then s[1..] else s;
    if digits == "" || !AllDigits(digits) then None
    else
      var n: int := if s[0] == '-' then -ValueOf(digits) else ValueOf(digits);
      if MIN_INT <= n <= MAX_INT then Some(n) else None
  }

  /** Addition of 64-bit integers wraps around. */
  function Plus(a: int, b: int): int {
    (a + b - MIN_INT) % (MAX_INT - MIN_INT + 1) + MIN_INT
  }

  lemma {:induction false} PrintedValue(n: nat)
    ensures AllDigits(PrintNat(n)) && PrintNat(n) != "" && ValueOf(PrintNat(n)) == n
  {
    if n >= 10 {
      PrintedValue(n / 10);
      var p := PrintNat(n / 10);
      assert (p + [Digit(n % 10)])[..|p|] == p;
    } else {
      assert [Digit(n)][..0] == "";
    }
  }

  /** Reading a printed 64-bit integer gives it back. */
  lemma AtoiItoa(n: int)
    requires MIN_INT <= n <= MAX_INT
    ensures Atoi(Itoa(n)) == Some(n)
  {
    PrintedValue(if n < 0 then -n else n);
    if n < 0 {
      assert Itoa(n)[1..] == PrintNat(-n);
    } else {
      assert IsDigit(PrintNat(n)[0]);
    }
  }

  lemma PlusInRange(a: int, b: int)
    requires MIN_INT <= a + b <= MAX_INT
    ensures Plus(a, b) == a + b
  {}

  // ---------- other ways to write a number ----------

  predicate AllZeros(s: string) {
    forall i :: 0 <= i < |s| ==> s[i] == '0'
  }

  lemma {:induction false} ZerosBefore(zeros: string, digits: string)
    requires AllZeros(zeros) && AllDigits(digits)
    ensures AllDigits(zeros + digits) && ValueOf(zeros + digits) == ValueOf(digits)
    decreases |zeros| + |digits|
  {
    if digits != "" {
      var n := |digits| - 1;
      assert (zeros + digits)[..|zeros| + n] == zeros + digits[..n];
      ZerosBefore(zeros, digits[..n]);
    } else if zeros != "" {
      var n := |zeros| - 1;
      assert zeros + digits == zeros && zeros[..n] + "" == zeros[..n];
      ZerosBefore(zeros[..n], "");
    }
  }

  lemma AtoiDigits(digits: string)
    requires AllDigits(digits) && digits != "" && ValueOf(digits) <= MAX_INT
    ensures Atoi(digits) == Some(ValueOf(digits))
  {
    assert IsDigit(digits[0]);
  }

  lemma AtoiPlus(digits: string)
    requires AllDigits(digits) && digits != "" && ValueOf(digits) <= MAX_INT
    ensures Atoi("+" + digits) == Some(ValueOf(digits))
  {
    assert ("+" + digits)[1..] == digits;
  }

  /** A plus sign and leading zeros do not matter. */
  lemma AtoiPadded(plus: bool, zeros: string, n: nat)
    requires AllZeros(zeros) && n <= MAX_INT
    ensures Atoi(if plus then "+" + (zeros + PrintNat(n)) else zeros + PrintNat(n)) == Some(n)
  {
    PrintedValue(n);
    ZerosBefore(zeros, PrintNat(n));
    AtoiDigits(zeros + PrintNat(n));
    AtoiPlus(zeros + PrintNat(n));
  }

  /** A text without digits, or with anything but digits behind a sign at its start, is no number. */
  lemma AtoiRejects(s: string)
    requires s in ["", "+", "-"] || (exists i :: 1 <= i < |s| && !IsDigit(s[i]))
          || (!IsDigit(s[0]) && s[0] != '+' && s[0] != '-')
    ensures Atoi(s).None?
  {
    if i :| 1 <= i < |s| && !IsDigit(s[i]) {
      assert s[1..][i - 1] == s[i];
    }
  }
}
