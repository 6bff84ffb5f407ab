/** Normalized three-component versions with 32-bit components and numeric order. */
module VersionIds {
  import opened Wrappers

  const U32 := 0x1_0000_0000
  const U64 := 0x1_0000_0000_0000_0000
  const U96 := 0x1_0000_0000_0000_0000_0000_0000

  type u32 = n: nat | n < U32

  datatype VersionId = VersionId(major: u32, minor: u32, patch: u32)

  // ---- Numeric reading ----

  /** A version read as one number in base 2^32. */
  function Num(v: VersionId): (n: nat)
    ensures n < U96
  {
    v.major * U64 + v.minor * U32 + v.patch
  }

  function Compare(a: VersionId, b: VersionId): int {
    if a.major != b.major then a.major - b.major
    else if a.minor != b.minor then a.minor - b.minor
    else a.patch - b.patch
  }

  /** Component-wise order is numeric order, and no two versions share a number. */
  lemma CompareIsNumeric(a: VersionId, b: VersionId)
    ensures Compare(a, b) < 0 <==> Num(a) < Num(b)
    ensures Compare(a, b) == 0 <==> Num(a) == Num(b)
    ensures Num(a) == Num(b) ==> a == b
  {
  }

  /** The next version, carrying into minor and major; none above the largest. */
  function Successor(v: VersionId): Option<VersionId> {
    if v.patch + 1 < U32 then Some(v.(patch := v.patch + 1))
    else if v.minor + 1 < U32 then Some(VersionId(v.major, v.minor + 1, 0))
    else if v.major + 1 < U32 then Some(VersionId(v.major + 1, 0, 0))
    else None
  }

  lemma SuccessorAddsOne(v: VersionId)
    ensures Successor(v).Some? <==> Num(v) + 1 < U96
    ensures Successor(v).Some? ==> Num(Successor(v).value) == Num(v) + 1
  {
  }

  /** The version that a number below 2^96 reads as. */
  function FromNum(n: nat): VersionId {
    VersionId(n / U64 % U32, n / U32 % U32, n % U32)
  }

  lemma NumFromNum(n: nat)
    requires n < U96
    ensures Num(FromNum(n)) == n
  {
    assert n / U32 / U32 == n / U64;
  }

  // ---- Printing and parsing ----

  predicate IsDigit(c: char) {
    '0' <= c <= '9'
  }

  predicate AllDigits(s: string) {
    forall i :: 0 <= i < |s| ==> IsDigit(s[i])
  }

  function Decimal(n: nat): (s: string)
    ensures s != [] && AllDigits(s)
  {
    if n < 10 then [('0' as int + n) as char]
    else Decimal(n / 10) + [('0' as int + n % 10) as char]
  }

  function Value(s: string): nat
    requires AllDigits(s)
  {
    if s == [] then 0 else 10 * Value(s[..|s| - 1]) + (s[|s| - 1] as int - '0' as int)
  }

  lemma {:induction false} ValueOfDecimal(n: nat)
    ensures Value(Decimal(n)) == n
  {
    if n >= 10 {
      ValueOfDecimal(n / 10);
      var s := Decimal(n);
      assert s[..|s| - 1] == Decimal(n / 10);
    }
  }

  /** How many leading characters are digits. */
  function DigitRun(s: string): (n: nat)
    ensures n <= |s| && AllDigits(s[..n]) && (n < |s| ==> !IsDigit(s[n]))
  {
    if s == [] || !IsDigit(s[0]) then 0
    else
      var n := 1 + DigitRun(s[1..]);
      assert s[..n] == [s[0]] + s[1..][..n - 1];
      n
  }

  lemma {:induction false} DigitRunIs(digits: string, rest: string)
    requires AllDigits(digits) && (rest != [] ==> !IsDigit(rest[0]))
    ensures DigitRun(digits + rest) == |digits|
  {
    if digits != [] {
      assert (digits + rest)[1..] == digits[1..] + rest;
      DigitRunIs(digits[1..], rest);
    } else {
      assert digits + rest == rest;
    }
  }

  function Component(digits: string): Option<u32>
    requires AllDigits(digits)
  {
    if digits != [] && Value(digits) < U32 then Some(Value(digits)) else None
  }

  /** A component, the rest of the text after a separating dot, or neither. */
  function Dotted(s: string): Option<(u32, string)> {
    var n := DigitRun(s);
    if n == |s| || s[n] != '.' || Component(s[..n]).None? then None
    else Some((Component(s[..n]).value, s[n + 1..]))
  }

  function Parse(s: string): Option<VersionId> {
    var body := if s != [] && s[0] == 'v' then s[1..] else s;
    match Dotted(body)
    case None => None
    case Some((major, tail)) =>
      match Dotted(tail)
      case None => None
      case Some((minor, last)) =>
        if AllDigits(last) && Component(last).Some? then Some(VersionId(major, minor, Component(last).value)) else None
  }

  function Print(v: VersionId): string {
    Decimal(v.major) + "." + Decimal(v.minor) + "." + Decimal(v.patch)
  }

  lemma DottedDecimal(n: u32, rest: string)
    ensures Dotted(Decimal(n) + "." + rest) == Some((n, rest))
  {
    var s := Decimal(n) + "." + rest;
    assert s == Decimal(n) + ("." + rest);
    DigitRunIs(Decimal(n), "." + rest);
    assert s[..|Decimal(n)|] == Decimal(n);
    assert s[|Decimal(n)| + 1..] == rest;
    ValueOfDecimal(n);
  }

  /** Parsing undoes printing, so printing is injective and normalized text is stable. */
  lemma ParsePrint(v: VersionId)
    ensures Parse(Print(v)) == Some(v)
  {
    var last := Decimal(v.patch);
    var tail := Decimal(v.minor) + "." + last;
    assert Print(v) == Decimal(v.major) + "." + tail;
    assert Print(v)[0] == Decimal(v.major)[0];
    DottedDecimal(v.major, tail);
    DottedDecimal(v.minor, last);
    ValueOfDecimal(v.patch);
  }

  lemma PrintInjective(a: VersionId, b: VersionId)
    requires Print(a) == Print(b)
    ensures a == b
  {
    ParsePrint(a);
    ParsePrint(b);
  }
}
