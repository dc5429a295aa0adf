/** The parts of Go's string handling that the services rely on: byte-wise string order,
    strings.TrimSpace, strconv.Atoi and %d. */
module GoStrings {
  import opened Options

  /** Go's `<` on strings: the first differing character decides, a proper prefix is smaller. */
  predicate Less(a: string, b: string) {
    if b == "" then false
    else if a == "" then true
    else a[0] < b[0] || (a[0] == b[0] && Less(a[1..], b[1..]))
  }

  lemma {:induction false} LessIrreflexive(a: string)
    ensures !Less(a, a)
  {
    if a != "" {
      LessIrreflexive(a[1..]);
    }
  }

  lemma {:induction false} LessTotal(a: string, b: string)
    ensures a == b || Less(a, b) || Less(b, a)
  {
    if a != "" && b != "" && a[0] == b[0] {
      LessTotal(a[1..], b[1..]);
      assert a == [a[0]] + a[1..] && b == [b[0]] + b[1..];
    }
  }

  lemma {:induction false} LessTransitive(a: string, b: string, c: string)
    requires Less(a, b) && Less(b, c)
    ensures Less(a, c)
  {
    if a != "" && a[0] == b[0] == c[0] {
      LessTransitive(a[1..], b[1..], c[1..]);
    }
  }

  lemma LessAsymmetric(a: string, b: string)
    requires Less(a, b)
    ensures !Less(b, a) && a != b
  {
    if Less(b, a) {
      LessTransitive(a, b, a);
    }
    LessIrreflexive(a);
  }

  /** Strings of equal width compare chunk by chunk. */
  lemma {:induction false} LessByChunks(a: string, b: string, x: string, y: string)
    requires |a| == |b|
    ensures Less(a + x, b + y) <==> Less(a, b) || (a == b && Less(x, y))
  {
    if a == "" {
      assert a + x == x && b + y == y;
    } else {
      LessByChunks(a[1..], b[1..], x, y);
      assert (a + x)[1..] == a[1..] + x && (b + y)[1..] == b[1..] + y;
      assert a == [a[0]] + a[1..] && b == [b[0]] + b[1..];
    }
  }

  // ----- trimming -----

  /** unicode.IsSpace */
  predicate IsSpace(c: char) {
    var n := c as int;
    || 9 <= n <= 13 || n == 32 || n == 0x85 || n == 0xA0 || n == 0x1680
    || 0x2000 <= n <= 0x200A || n == 0x2028 || n == 0x2029 || n == 0x202F || n == 0x205F || n == 0x3000
  }

  function TrimLeft(s: string, cut: char -> bool): (r: string)
    ensures r != "" ==> !cut(r[0])
    ensures exists k | 0 <= k <= |s| :: r == s[k..]
  {
    if s == "" then assert s == s[0..]; s
    else if cut(s[0]) then
      var r := TrimLeft(s[1..], cut);
      var k :| 0 <= k <= |s[1..]| && r == s[1..][k..];
      assert r == s[k + 1..];
      r
    else assert s == s[0..]; s
  }

  function TrimRight(s: string, cut: char -> bool): (r: string)
    ensures r != "" ==> !cut(r[|r| - 1])
    ensures r <= s
  {
    if s == "" then s
    else if cut(s[|s| - 1]) then TrimRight(s[..|s| - 1], cut)
    else s
  }

  function Trim(s: string, cut: char -> bool): string {
    TrimRight(TrimLeft(s, cut), cut)
  }

  function TrimSpace(s: string): string {
    Trim(s, IsSpace)
  }

  /** A string that neither starts nor ends with a cut character is its own trim. */
  lemma TrimFixed(s: string, cut: char -> bool)
    requires s != "" ==> !cut(s[0]) && !cut(s[|s| - 1])
    ensures Trim(s, cut) == s
  {
  }

  lemma {:induction false} TrimLeftCuts(s: string, cut: char -> bool) returns (k: nat)
    ensures k <= |s| && TrimLeft(s, cut) == s[k..] && (forall i | 0 <= i < k :: cut(s[i])) && (k < |s| ==> !cut(s[k]))
  {
    if s != "" && cut(s[0]) {
      var k' := TrimLeftCuts(s[1..], cut);
      k := k' + 1;
      assert s[1..][k'..] == s[k..];
      assert forall i | 0 < i < k :: s[i] == s[1..][i - 1];
    } else {
      k := 0;
      assert s == s[0..];
    }
  }

  lemma {:induction false} TrimRightCuts(s: string, cut: char -> bool) returns (k: nat)
    ensures k <= |s| && TrimRight(s, cut) == s[..k] && (forall i | k <= i < |s| :: cut(s[i]))
    ensures k > 0 ==> !cut(s[k - 1])
  {
    if s != "" && cut(s[|s| - 1]) {
      k := TrimRightCuts(s[..|s| - 1], cut);
    } else {
      k := |s|;
      assert s == s[..|s|];
    }
  }

  lemma SliceOfSlice(s: string, a: nat, k: nat)
    requires a + k <= |s|
    ensures s[a..][..k] == s[a..a + k]
  {
  }

  /** What trimming leaves: the stretch between the cut characters at either end. */
  lemma TrimCuts(s: string, cut: char -> bool) returns (a: nat, b: nat)
    ensures a <= b <= |s| && Trim(s, cut) == s[a..b]
    ensures forall i | 0 <= i < |s| && !(a <= i < b) :: cut(s[i])
    ensures a < b ==> !cut(s[a]) && !cut(s[b - 1])
  {
    hide TrimLeft, TrimRight;
    a := TrimLeftCuts(s, cut);
    var left := s[a..];
    var k := TrimRightCuts(left, cut);
    b := a + k;
    SliceOfSlice(s, a, k);
    forall i | b <= i < |s|
      ensures cut(s[i])
    {
      assert s[i] == left[i - a];
    }
    if k > 0 {
      assert s[b - 1] == left[k - 1];
    }
  }

  lemma TrimSpaceTwice(s: string)
    ensures TrimSpace(TrimSpace(s)) == TrimSpace(s)
  {
    var a, b := TrimCuts(s, IsSpace);
    hide TrimLeft, TrimRight, IsSpace;
    var t := s[a..b];
    if t != "" {
      assert t[0] == s[a] && t[|t| - 1] == s[b - 1];
      TrimFixed(t, IsSpace);
    }
  }

  /** Nothing is left exactly when every character is a space. */
  lemma BlankIff(s: string)
    ensures TrimSpace(s) == "" <==> forall i | 0 <= i < |s| :: IsSpace(s[i])
  {
    var a, b := TrimCuts(s, IsSpace);
    if a < b {
      assert !IsSpace(s[a]);
    }
  }

  // ----- numbers -----

  predicate IsDigit(c: char) {
    '0' <= c <= '9'
  }

  function DigitValue(c: char): (d: nat)
    requires IsDigit(c)
    ensures d <= 9
  {
    c as int - '0' as int
  }

  function DigitChar(d: nat): (c: char)
    requires d <= 9
    ensures IsDigit(c) && DigitValue(c) == d
  {
    (d + '0' as int) as char
  }

  lemma DigitBack(c: char)
    requires IsDigit(c)
    ensures DigitChar(DigitValue(c)) == c
  {
    var d := DigitChar(DigitValue(c));
    assert d as int == c as int;
  }

  predicate AllDigits(s: string) {
    forall i | 0 <= i < |s| :: IsDigit(s[i])
  }

  /** The value of a run of decimal digits. */
  function DigitsValue(s: string): nat
    requires AllDigits(s)
  {
    if s == "" then 0 else 10 * DigitsValue(s[..|s| - 1]) + DigitValue(s[|s| - 1])
  }

  /** %d on a nonnegative number. */
  function Decimal(n: nat): (s: string)
    ensures s != "" && AllDigits(s)
  {
    if n < 10 then [DigitChar(n)] else Decimal(n / 10) + [DigitChar(n % 10)]
  }

  lemma {:induction false} DecimalReadsBack(n: nat)
    ensures DigitsValue(Decimal(n)) == n
  {
    var s := Decimal(n);
    if n < 10 {
      assert s[..0] == "";
    } else {
      DecimalReadsBack(n / 10);
      assert s[..|s| - 1] == Decimal(n / 10);
    }
  }

  /** %d on any number. */
  function Itoa(n: int): string {
    if n >= 0 then Decimal(n) else "-" + Decimal(-n)
  }

  const INT64_MAX := 0x7FFF_FFFF_FFFF_FFFF

  /** strconv.Atoi: an optional sign, then at least one digit and nothing else, in the range of int64. */
  function Atoi(s: string): Option<int> {
    var negative := s != "" && s[0] == '-';
    var digits := if s != "" && (s[0] == '-' || s[0] == '+') then s[1..] else s;
    if digits == "" || !AllDigits(digits) then None
    else
      var v: int := DigitsValue(digits);
      if negative then (if v <= INT64_MAX + 1 then Some(-v) else None)
      else if v <= INT64_MAX then Some(v) else None
  }

  /** The decimal text of a number reads back as the number, unless it is out of range. */
  lemma AtoiReadsBack(n: int)
    ensures Atoi(Itoa(n)) == if -INT64_MAX - 1 <= n <= INT64_MAX then Some(n) else None
  {
    if n >= 0 {
      DecimalReadsBack(n);
    } else {
      DecimalReadsBack(-n);
      assert Itoa(n)[1..] == Decimal(-n);
    }
  }
}
