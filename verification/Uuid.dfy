/** The text forms of a UUID that the driver's parser accepts: 36 characters with dashes, the
    same after "urn:uuid:" or between two bracket characters, and 32 hexadecimal digits. */
module Uuid {
  datatype Option<+T> = None | Some(value: T)

  type Uuid = seq<nat>

  function HexDigit(c: char): Option<nat> {
    if '0' <= c <= '9' then Some((c - '0') as nat)
    else if 'a' <= c <= 'f' then Some((c - 'a') as nat + 10)
    else if 'A' <= c <= 'F' then Some((c - 'A') as nat + 10)
    else None
  }

  /** The bytes written by the pairs of hexadecimal digits of s. */
  function HexBytes(s: string): Option<Uuid> {
    if s == "" then Some([])
    else if |s| == 1 then None
    else
      match (HexDigit(s[0]), HexDigit(s[1]), HexBytes(s[2..]))
      case (Some(hi), Some(lo), Some(rest)) => Some([16 * hi + lo] + rest)
      case _ => None
  }

  function Lower(c: char): char {
    if 'A' <= c <= 'Z' then c - 'A' + 'a' else c
  }

  function LowerAll(s: string): (r: string)
    ensures |r| == |s|
  {
    if s == "" then "" else [Lower(s[0])] + LowerAll(s[1..])
  }

  function Undashed(s: string): Option<Uuid>
    requires |s| >= 36
  {
    if s[8] == '-' && s[13] == '-' && s[18] == '-' && s[23] == '-' then
      HexBytes(s[..8] + s[9..13] + s[14..18] + s[19..23] + s[24..36])
    else
      None
  }

  function Parse(s: string): Option<Uuid> {
    if |s| == 36 then Undashed(s)
    else if |s| == 45 then if LowerAll(s[..9]) == "urn:uuid:" then Undashed(s[9..]) else None
    else if |s| == 38 then Undashed(s[1..])
    else if |s| == 32 then HexBytes(s)
    else None
  }

  // What the parser accepts

  predicate IsUuid(u: Uuid) {
    |u| == 16 && forall i | 0 <= i < |u| :: u[i] < 256
  }

  function HexChar(n: nat): char
    requires n < 16
  {
    "0123456789abcdef"[n]
  }

  /** The bytes as pairs of lower-case hexadecimal digits. */
  function HexText(u: Uuid): (s: string)
    requires forall i | 0 <= i < |u| :: u[i] < 256
    ensures |s| == 2 * |u|
  {
    if u == [] then "" else [HexChar(u[0] / 16), HexChar(u[0] % 16)] + HexText(u[1..])
  }

  function Dashed(digits: string): (s: string)
    requires |digits| == 32
    ensures |s| == 36
  {
    digits[..8] + "-" + digits[8..12] + "-" + digits[12..16] + "-" + digits[16..20] + "-" + digits[20..]
  }

  /** The canonical text of a UUID. */
  function Text(u: Uuid): string
    requires IsUuid(u)
  {
    Dashed(HexText(u))
  }

  lemma {:induction false} LowerAt(s: string, i: nat)
    requires i < |s|
    ensures LowerAll(s)[i] == Lower(s[i])
  {
    if i > 0 {
      LowerAt(s[1..], i - 1);
    }
  }

  lemma {:induction false} LowersEach(s: string)
    ensures forall i | 0 <= i < |s| :: LowerAll(s)[i] == Lower(s[i])
  {
    forall i | 0 <= i < |s| ensures LowerAll(s)[i] == Lower(s[i]) {
      LowerAt(s, i);
    }
  }

  lemma {:induction false} LowerAppends(s: string, t: string)
    ensures LowerAll(s + t) == LowerAll(s) + LowerAll(t)
  {
    if s == "" {
      assert s + t == t;
    } else {
      assert (s + t)[1..] == s[1..] + t;
      LowerAppends(s[1..], t);
    }
  }

  lemma HexDigitExactly(c: char, n: nat)
    ensures HexDigit(c) == Some(n) <==> n < 16 && Lower(c) == HexChar(n)
  {
  }

  predicate Bytes(u: Uuid) {
    forall i | 0 <= i < |u| :: u[i] < 256
  }

  lemma {:induction false} LowerPair(s: string)
    requires |s| >= 2
    ensures LowerAll(s) == [Lower(s[0]), Lower(s[1])] + LowerAll(s[2..])
  {
    assert s[1..][1..] == s[2..];
  }

  lemma {:induction false} HexBytesAre(s: string)
    ensures var u := HexBytes(s); u.Some? ==> Bytes(u.value) && LowerAll(s) == HexText(u.value)
    decreases |s|
  {
    if |s| >= 2 && HexBytes(s).Some? {
      var u, hi, lo := HexBytes(s).value, HexDigit(s[0]).value, HexDigit(s[1]).value;
      HexBytesAre(s[2..]);
      HexDigitExactly(s[0], hi);
      HexDigitExactly(s[1], lo);
      assert u[1..] == HexBytes(s[2..]).value && u[0] / 16 == hi && u[0] % 16 == lo;
      LowerPair(s);
      hide HexDigit; hide Lower; hide HexChar; hide LowerAll;
    }
  }

  lemma {:induction false} HexTextParses(s: string, u: Uuid)
    requires Bytes(u) && LowerAll(s) == HexText(u)
    ensures HexBytes(s) == Some(u)
    decreases |u|
  {
    hide Lower; hide HexChar; hide HexDigit;
    if u != [] {
      LowerPair(s);
      var text := HexText(u);
      assert text[0] == HexChar(u[0] / 16) && text[1] == HexChar(u[0] % 16) && text[2..] == HexText(u[1..]);
      assert LowerAll(s)[2..] == LowerAll(s[2..]);
      HexTextParses(s[2..], u[1..]);
      HexDigitExactly(s[0], u[0] / 16);
      HexDigitExactly(s[1], u[0] % 16);
      assert [16 * (u[0] / 16) + u[0] % 16] + u[1..] == u;
    }
  }

  lemma {:induction false} HexBytesLength(s: string)
    ensures HexBytes(s).Some? ==> |s| == 2 * |HexBytes(s).value|
  {
    HexBytesAre(s);
  }

  /** The 32 digits of a dashed text. */
  function Digits(s: string): string
    requires |s| >= 36
  {
    s[..8] + s[9..13] + s[14..18] + s[19..23] + s[24..36]
  }

  lemma UndashedExactly(s: string, u: Uuid)
    requires |s| >= 36
    ensures Undashed(s) == Some(u) <==> IsUuid(u) && LowerAll(s[..36]) == Text(u)
  {
    HexBytesAre(Digits(s));
    HexBytesLength(Digits(s));
    LowersEach(s[..36]);
    LowersEach(Digits(s));
    if IsUuid(u) && LowerAll(s[..36]) == Text(u) {
      DashesStand(s, HexText(u));
      HexTextParses(Digits(s), u);
    }
    if Undashed(s) == Some(u) {
      DashesPut(s, HexText(u));
    }
  }

  /** Where a digit stands in a dashed text. */
  function Place(i: nat): nat
    requires i < 32
  {
    if i < 8 then i else if i < 12 then i + 1 else if i < 16 then i + 2 else if i < 20 then i + 3 else i + 4
  }

  predicate IsDash(j: nat) {
    j == 8 || j == 13 || j == 18 || j == 23
  }

  lemma DashedAt(digits: string)
    requires |digits| == 32
    ensures forall i | 0 <= i < 32 :: Dashed(digits)[Place(i)] == digits[i]
    ensures Dashed(digits)[8] == Dashed(digits)[13] == Dashed(digits)[18] == Dashed(digits)[23] == '-'
  {
  }

  lemma DigitsAt(s: string)
    requires |s| >= 36
    ensures |Digits(s)| == 32 && forall i | 0 <= i < 32 :: Digits(s)[i] == s[Place(i)]
  {
  }

  lemma Placed(j: nat) returns (i: nat)
    requires j < 36 && !IsDash(j)
    ensures i < 32 && Place(i) == j
  {
    i := if j < 8 then j else if j < 13 then j - 1 else if j < 18 then j - 2 else if j < 23 then j - 3 else j - 4;
  }

  lemma DashesStand(s: string, digits: string)
    requires |s| >= 36 && |digits| == 32 && LowerAll(s[..36]) == Dashed(digits)
    ensures s[8] == '-' && s[13] == '-' && s[18] == '-' && s[23] == '-' && LowerAll(Digits(s)) == digits
  {
    LowersEach(s[..36]);
    LowersEach(Digits(s));
    DashedAt(digits);
    DigitsAt(s);
    hide Dashed; hide Digits; hide LowerAll;
    forall i | 0 <= i < 32 ensures LowerAll(Digits(s))[i] == digits[i] {
      assert s[..36][Place(i)] == s[Place(i)];
    }
  }

  lemma DashesPut(s: string, digits: string)
    requires |s| >= 36 && |digits| == 32 && LowerAll(Digits(s)) == digits
    requires s[8] == '-' && s[13] == '-' && s[18] == '-' && s[23] == '-'
    ensures LowerAll(s[..36]) == Dashed(digits)
  {
    LowersEach(s[..36]);
    LowersEach(Digits(s));
    DashedAt(digits);
    DigitsAt(s);
    hide Dashed; hide Digits; hide LowerAll;
    forall j | 0 <= j < 36 ensures LowerAll(s[..36])[j] == Dashed(digits)[j] {
      if !IsDash(j) { var i := Placed(j); }
    }
  }

  /** Which texts denote a UUID: in upper or lower case, its canonical text, the same after "urn:uuid:" or
      between any two characters, and its digits without the dashes - and nothing else.  So printing and
      parsing gives the UUID again in each of these forms. */
  lemma {:induction false} ParseExactly(s: string, u: Uuid)
    ensures Parse(s) == Some(u) <==>
      IsUuid(u) &&
      (|| LowerAll(s) == Text(u)
       || LowerAll(s) == "urn:uuid:" + Text(u)
       || (|s| == 38 && LowerAll(s[1..37]) == Text(u))
       || LowerAll(s) == HexText(u))
  {
    hide Undashed; hide HexBytes; hide LowerAll; hide HexText; hide Dashed;
    if |s| == 36 {
      UndashedExactly(s, u);
      assert s[..36] == s;
    } else if |s| == 45 {
      UndashedExactly(s[9..], u);
      assert s[9..][..36] == s[9..] && s == s[..9] + s[9..];
      LowerAppends(s[..9], s[9..]);
      assert LowerAll(s)[..9] == LowerAll(s[..9]) && LowerAll(s)[9..] == LowerAll(s[9..]);
      if IsUuid(u) {
        var text := "urn:uuid:" + Text(u);
        assert text[..9] == "urn:uuid:" && text[9..] == Text(u);
      }
    } else if |s| == 38 {
      UndashedExactly(s[1..], u);
      assert s[1..][..36] == s[1..37];
    } else {
      HexBytesAre(s);
      HexBytesLength(s);
      if IsUuid(u) && LowerAll(s) == HexText(u) { HexTextParses(s, u); }
    }
  }
}
