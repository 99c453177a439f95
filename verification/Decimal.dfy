/** Decimal text of signed 64-bit integers: what fmt's "%d" writes and what
    strconv.ParseInt(s, 10, 64) accepts. */
module Decimal {
  import opened Uuid

  const MIN_INT64: int := -0x8000_0000_0000_0000
  const MAX_INT64: int := 0x7FFF_FFFF_FFFF_FFFF

  predicate IsDigit(c: char) {
    '0' <= c <= '9'
  }

  predicate AllDigits(s: string) {
    forall i | 0 <= i < |s| :: IsDigit(s[i])
  }

  /** The number a digit string denotes. */
  function Value(s: string): nat
    requires AllDigits(s)
  {
    if s == "" then 0 else 10 * Value(s[..|s| - 1]) + (s[|s| - 1] - '0') as nat
  }

  function Digit(d: nat): (c: char)
    requires d < 10
    ensures IsDigit(c) && (c - '0') as nat == d
  {
    '0' + d as char
  }

  function FormatNat(n: nat): (s: string)
    ensures s != "" && AllDigits(s)
  {
    if n < 10 then [Digit(n)] else FormatNat(n / 10) + [Digit(n % 10)]
  }

  function FormatInt(n: int): string {
    if n < 0 then "-" + FormatNat(-n) else FormatNat(n)
  }

  /** One optional sign, then at least one digit and nothing else, within 64 bits. */
  function ParseInt64(s: string): Option<int> {
    var negative := s != "" && s[0] == '-';
    var digits := if s != "" && (s[0] == '-' || s[0] == '+') then s[1..] else s;
    if digits == "" || !AllDigits(digits) then None
    else
      var magnitude: int := Value(digits);
      var n := if negative then -magnitude else magnitude;
      if MIN_INT64 <= n <= MAX_INT64 then Some(n) else None
  }

  lemma {:induction false} ValueOfFormat(n: nat)
    ensures Value(FormatNat(n)) == n
  {
    if n < 10 {
      assert [Digit(n)][..0] == "";
    } else {
      var head, last := FormatNat(n / 10), [Digit(n % 10)];
      ValueOfFormat(n / 10);
      assert (head + last)[..|head + last| - 1] == head;
    }
  }

  /** The size text the controller prints is accepted by the node's parser and denotes the same
      number, for every 64-bit size. */
  lemma SizeRoundTrip(n: int)
    requires MIN_INT64 <= n <= MAX_INT64
    ensures ParseInt64(FormatInt(n)) == Some(n)
  {
    var s := FormatNat(if n < 0 then -n else n);
    ValueOfFormat(if n < 0 then -n else n);
    assert IsDigit(s[0]);
    assert n < 0 ==> FormatInt(n)[1..] == s;
  }

  function Zeros(k: nat): (s: string)
    ensures |s| == k && AllDigits(s)
  {
    seq(k, _ => '0')
  }

  /** A digit string is its number's text after some zeros. */
  lemma {:induction false} DigitsOfFormat(s: string) returns (k: nat)
    requires s != "" && AllDigits(s)
    ensures s == Zeros(k) + FormatNat(Value(s))
    decreases |s|
  {
    var head, last := s[..|s| - 1], s[|s| - 1];
    assert IsDigit(last);
    assert Digit((last - '0') as nat) == last;
    k := 0;
    if head == "" {
      assert Value(head) == 0 && s == [last];
    } else {
      k := DigitsOfFormat(head);
      assert s == head + [last];
      if Value(head) == 0 {
        k := k + 1;
        assert FormatNat(0) == "0" && Zeros(k - 1) + "0" == Zeros(k);
      }
    }
  }

  /** The text without its sign. */
  function Unsigned(s: string): string {
    if s != "" && (s[0] == '-' || s[0] == '+') then s[1..] else s
  }

  /** The parser accepts a number's own text up to a plus sign, a minus sign before zero, and leading
      zeros, and nothing else: the number lies within 64 bits, has the sign that is written, and its
      digits are those of the text after some zeros. */
  lemma {:induction false} ParseIsDenotation(s: string)
    ensures var r := ParseInt64(s); r.Some? ==>
      && MIN_INT64 <= r.value <= MAX_INT64
      && (if s != "" && s[0] == '-' then r.value <= 0 else r.value >= 0)
      && exists k: nat :: Unsigned(s) == Zeros(k) + FormatNat(if r.value < 0 then -r.value else r.value)
  {
    if ParseInt64(s).Some? {
      var k := DigitsOfFormat(Unsigned(s));
    }
  }

  function Signed(sign: string, n: nat): int {
    if sign == "-" then 0 - n else n
  }

  /** And conversely every such text within 64 bits is accepted and denotes that number. */
  lemma {:induction false} DenotationParses(sign: string, k: nat, n: nat)
    requires sign == "" || sign == "+" || sign == "-"
    requires MIN_INT64 <= Signed(sign, n) <= MAX_INT64
    ensures ParseInt64(sign + Zeros(k) + FormatNat(n)) == Some(Signed(sign, n))
  {
    var digits := Zeros(k) + FormatNat(n);
    ValueAfterZeros(k, FormatNat(n));
    ValueOfFormat(n);
    assert sign + Zeros(k) + FormatNat(n) == sign + digits;
    SignedParses(sign, digits);
  }

  lemma {:induction false} SignedParses(sign: string, digits: string)
    requires sign == "" || sign == "+" || sign == "-"
    requires digits != "" && AllDigits(digits) && MIN_INT64 <= Signed(sign, Value(digits)) <= MAX_INT64
    ensures ParseInt64(sign + digits) == Some(Signed(sign, Value(digits)))
  {
    hide Value; hide FormatNat;
    var s := sign + digits;
    assert IsDigit(digits[0]);
    if sign == "" { assert s == digits; } else { assert s[0] == sign[0] && s[1..] == digits; }
  }

  lemma {:induction false} ValueAfterZeros(k: nat, s: string)
    requires AllDigits(s)
    ensures AllDigits(Zeros(k) + s) && Value(Zeros(k) + s) == Value(s)
    decreases k + |s|
  {
    var t := Zeros(k) + s;
    if s != "" {
      assert t[..|t| - 1] == Zeros(k) + s[..|s| - 1];
      ValueAfterZeros(k, s[..|s| - 1]);
    } else if k > 0 {
      assert t == Zeros(k) && t[..k - 1] == Zeros(k - 1) + "";
      ValueAfterZeros(k - 1, "");
    }
  }
}
