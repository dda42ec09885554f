/** Small result types and byte-string helpers shared by the models. */
module Common {

  datatype Option<+T> = None | Some(value: T)

  datatype Result<+T, +E> = Ok(value: T) | Err(error: E)

  predicate HasPrefix(s: string, prefix: string) {
    |prefix| <= |s| && s[..|prefix|] == prefix
  }

  predicate HasSuffix(s: string, suffix: string) {
    |suffix| <= |s| && s[|s| - |suffix|..] == suffix
  }

  function TrimSuffix(s: string, suffix: string): string {
    if HasSuffix(s, suffix) then s[..|s| - |suffix|] else s
  }

  function Min(a: int, b: int): int {
    if a <= b then a else b
  }

  /** The position of the first character of `s` satisfying `stop`, or the length of `s`. */
  function IndexWhere(s: string, stop: char -> bool): (i: nat)
    ensures i <= |s|
    ensures forall k | 0 <= k < i :: !stop(s[k])
    ensures i < |s| ==> stop(s[i])
  {
    if s == "" || stop(s[0]) then 0 else 1 + IndexWhere(s[1..], stop)
  }

  /** The position of the last `c` in `s`, or -1. */
  function LastIndexOf(s: string, c: char): (i: int)
    ensures -1 <= i < |s|
    ensures i >= 0 ==> s[i] == c
    ensures forall k | i < k < |s| :: s[k] != c
  {
    if s == "" then -1
    else if s[|s| - 1] == c then |s| - 1
    else LastIndexOf(s[..|s| - 1], c)
  }

  function Lower(c: char): char {
    if 'A' <= c <= 'Z' then (c as int + 32) as char else c
  }

  /** strings.ToLower on ASCII. */
  function ToLower(s: string): (r: string)
    ensures |r| == |s|
    ensures forall i | 0 <= i < |s| :: r[i] == Lower(s[i])
  {
    seq(|s|, i requires 0 <= i < |s| => Lower(s[i]))
  }

  /** strings.EqualFold on ASCII. */
  predicate EqualFold(a: string, b: string) {
    |a| == |b| && forall i | 0 <= i < |a| :: Lower(a[i]) == Lower(b[i])
  }
}

/** Decimal numerals as strconv prints and reads them. */
module Decimal {
  import opened Common

  function DigitChar(d: nat): char
    requires d < 10
  {
    (d + '0' as int) as char
  }

  predicate IsDigit(c: char) {
    '0' <= c <= '9'
  }

  /** strconv.Itoa of a non-negative number. */
  function Itoa(n: nat): (s: string)
    ensures s != "" && forall i | 0 <= i < |s| :: IsDigit(s[i])
  {
    if n < 10 then [DigitChar(n)] else Itoa(n / 10) + [DigitChar(n % 10)]
  }

  /** The value of a run of digits, None when another character occurs. */
  function DigitsValue(s: string): Option<nat> {
    if s == "" then Some(0)
    else
      var last := s[|s| - 1];
      match DigitsValue(s[..|s| - 1])
      case None => None
      case Some(high) => if IsDigit(last) then Some(10 * high + (last as int - '0' as int)) else None
  }

  const INT_LIMIT := 0x8000_0000_0000_0000

  /** strconv.Atoi: optional sign, at least one digit, in the range of a 64-bit int. */
  function Atoi(s: string): Option<int> {
    var negative := s != "" && s[0] == '-';
    var digits := if s != "" && (s[0] == '-' || s[0] == '+') then s[1..] else s;
    if digits == "" then None
    else match DigitsValue(digits)
      case None => None
      case Some(n) =>
        var magnitude: int := n;
        var signed := if negative then -magnitude else magnitude;
        if -INT_LIMIT <= signed < INT_LIMIT then Some(signed) else None
  }

  lemma {:induction false} DigitsValueItoa(n: nat)
    ensures DigitsValue(Itoa(n)) == Some(n)
  {
    if n < 10 {
      assert [DigitChar(n)][..0] == "";
      assert DigitsValue("") == Some(0);
    } else {
      DigitsValueItoa(n / 10);
      assert (Itoa(n / 10) + [DigitChar(n % 10)])[..|Itoa(n / 10)|] == Itoa(n / 10);
    }
  }

  /** Printing then reading gives the number back. */
  lemma AtoiItoa(n: nat)
    requires n < INT_LIMIT
    ensures Atoi(Itoa(n)) == Some(n)
  {
    DigitsValueItoa(n);
    assert IsDigit(Itoa(n)[0]);
  }

  lemma ItoaInjective(m: nat, n: nat)
    requires Itoa(m) == Itoa(n)
    ensures m == n
  {
    DigitsValueItoa(m);
    DigitsValueItoa(n);
  }
}
