/** Decimal numbers in text, as std::stoul, std::stoi and std::to_string read and write them. */
module Numbers {

  import opened Messages

  const INT_MAX := 0x7FFF_FFFF

  predicate IsDigit(c: char) {
    '0' <= c <= '9'
  }

  predicate AllDigits(s: string) {
    forall i :: 0 <= i < |s| ==> IsDigit(s[i])
  }

  predicate IsSpace(c: char) {
    c == ' ' || c == '\t' || c == '\n' || c == '\r' || c as int == 11 || c as int == 12
  }

  function SkipSpace(s: string): string {
    if s != "" && IsSpace(s[0]) then SkipSpace(s[1..]) else s
  }

  function LeadingDigits(s: string): (k: nat)
    ensures k <= |s| && AllDigits(s[..k])
  {
    if s != "" && IsDigit(s[0]) then
      assert forall i :: 0 < i < |s| ==> s[i] == s[1..][i - 1];
      1 + LeadingDigits(s[1..])
    else 0
  }

  /** The number that the first k digits denote. */
  function Number(s: string, k: nat): nat
    requires k <= |s| && AllDigits(s[..k])
  {
    if k == 0 then 0 else
      assert s[..k][k - 1] == s[k - 1] && s[..k][..k - 1] == s[..k - 1];
      10 * Number(s, k - 1) + (s[k - 1] as int - '0' as int)
  }

  function Decimal(n: nat): (s: string)
    ensures s != "" && AllDigits(s)
  {
    if n < 10 then [Digit(n)] else Decimal(n / 10) + [Digit(n % 10)]
  }

  function Digit(n: nat): (c: char)
    requires n < 10
    ensures IsDigit(c) && c as int - '0' as int == n
  {
    ('0' as int + n) as char
  }

  lemma {:induction false} NumberOfDecimal(n: nat)
    ensures Decimal(n)[..|Decimal(n)|] == Decimal(n) && Number(Decimal(n), |Decimal(n)|) == n
  {
    assert Decimal(n)[..|Decimal(n)|] == Decimal(n);
    if n >= 10 {
      var s := Decimal(n / 10);
      NumberOfDecimal(n / 10);
      NumberOfPrefix(s, [Digit(n % 10)], |s|);
    }
  }

  lemma {:induction false} NumberOfPrefix(s: string, t: string, k: nat)
    requires k <= |s| && AllDigits(s[..k])
    ensures (s + t)[..k] == s[..k] && Number(s + t, k) == Number(s, k)
  {
    assert (s + t)[..k] == s[..k];
    if k > 0 {
      NumberOfPrefix(s, t, k - 1);
    }
  }

  lemma {:induction false} DigitsLead(s: string)
    requires AllDigits(s)
    ensures LeadingDigits(s) == |s|
  {
    if s != "" {
      DigitsLead(s[1..]);
    }
  }


  lemma DecimalIsInjective(m: nat, n: nat)
    requires Decimal(m) == Decimal(n)
    ensures m == n
  {
    NumberOfDecimal(m);
    NumberOfDecimal(n);
  }

  function IntText(n: int): string {
    if n < 0 then "-" + Decimal(-n) else Decimal(n)
  }

  /** std::stoi: leading blanks and a sign are accepted, and so is anything after the digits. */
  function Stoi(s: string): Option<int> {
    var t := SkipSpace(s);
    var signed := t != "" && (t[0] == '+' || t[0] == '-');
    var digits := if signed then t[1..] else t;
    var k := LeadingDigits(digits);
    var magnitude: int := Number(digits, k);
    var n: int := if signed && t[0] == '-' then -magnitude else magnitude;
    if k == 0 || n > INT_MAX || n < -INT_MAX - 1 then None else Some(n)
  }

  lemma StoiOfDecimal(n: nat)
    requires n <= INT_MAX
    ensures Stoi(Decimal(n)) == Some(n)
  {
    var s := Decimal(n);
    assert IsDigit(s[0]);
    DigitsLead(s);
    NumberOfDecimal(n);
  }
}
