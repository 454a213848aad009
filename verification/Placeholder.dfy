/** Rendering of secret placeholders: an opener, the decimal digits of the index, a closer. */
module Placeholder {
   newtype U64 = x: int | 0 <= x < 0x1_0000_0000_0000_0000

  const MAX_TOKEN_INDEX: U64 := 10_000_000_000_000

  const OPENER: string := "\U{27e6}SECRET_"
  const CLOSER: char := '\U{27e7}'

  function DigitChar(d: nat): char
    requires d < 10
  {
    match d
    case 0 => '0' case 1 => '1' case 2 => '2' case 3 => '3' case 4 => '4'
    case 5 => '5' case 6 => '6' case 7 => '7' case 8 => '8' case _ => '9'
  }

  ghost function Pow10(k: nat): (p: nat)
    ensures p >= 1
  {
    if k == 0 then 1 else 10 * Pow10(k - 1)
  }

  /** Decimal digits, most significant first. */
  ghost function RenderDigits(n: nat): (s: string)
    ensures s != []
  {
    if n < 10 then [DigitChar(n)] else RenderDigits(n / 10) + [DigitChar(n % 10)]
  }

  ghost function RdLen(n: nat): nat {
    if n < 10 then 1 else 1 + RdLen(n / 10)
  }

  ghost function RenderToken(n: nat): string {
    OPENER + RenderDigits(n) + [CLOSER]
  }

  // ----- Digit count -----

  lemma {:induction false} RenderLength(n: nat)
    ensures |RenderDigits(n)| == RdLen(n)
  {
    if n >= 10 {
      RenderLength(n / 10);
    }
  }

  /** The digit count of a positive number brackets it between two powers of ten. */
  lemma {:induction false} LengthBrackets(n: nat)
    requires n > 0
    ensures Pow10(RdLen(n) - 1) <= n < Pow10(RdLen(n))
  {
    if n >= 10 {
      LengthBrackets(n / 10);
    }
  }

  lemma {:induction false} Pow10Monotone(i: nat, j: nat)
    requires i <= j
    ensures Pow10(i) <= Pow10(j)
  {
    if i < j {
      Pow10Monotone(i, j - 1);
    }
  }

  /** Below ten to the thirteenth there are at most thirteen digits. */
  lemma LengthBounded(n: nat)
    requires 0 < n < MAX_TOKEN_INDEX as nat
    ensures RdLen(n) <= 13
  {
    LengthBrackets(n);
    if RdLen(n) > 13 {
      Pow10Monotone(13, RdLen(n) - 1);
      PowersBelow19(13);
    }
  }

  lemma {:induction false} PowersBelow19(k: nat)
    ensures Pow10(13) == 10_000_000_000_000
    ensures k < 19 ==> Pow10(k) <= 1_000_000_000_000_000_000
  {
    assert Pow10(5) == 100_000;
    assert Pow10(10) == 10_000_000_000;
    assert Pow10(13) == 10_000_000_000_000;
    assert Pow10(18) == 1_000_000_000_000_000_000;
    if k < 19 {
      Pow10Monotone(k, 18);
    }
  }

  // ----- Ranks -----

  lemma DivideTwice(n: nat, p: nat)
    requires p > 0
    ensures n / 10 / p == n / (10 * p)
  {
    var q, r := n / (10 * p), n % (10 * p);
    assert n == 10 * p * q + r;
    var m := n / 10;
    assert m == p * q + r / 10 by {
      assert 10 * p * q == 10 * (p * q);
    }
    assert r / 10 < p;
    QuotientUnique(m, p, q, r / 10);
  }

  lemma AtLeastOnce(p: nat, e: nat)
    requires e >= 1
    ensures p * e >= p
  {
    assert p * e == p * (e - 1) + p;
  }

  lemma QuotientUnique(m: nat, p: nat, q: nat, r: nat)
    requires p > 0 && m == p * q + r && r < p
    ensures m / p == q
  {
    var k, s := m / p, m % p;
    assert m == p * k + s;
    if q > k {
      assert p * (q - k) == p * q - p * k;
      AtLeastOnce(p, q - k);
    } else if k > q {
      assert p * (k - q) == p * k - p * q;
      AtLeastOnce(p, k - q);
    }
  }

  /** The character at position `i` is the digit whose rank is its distance from the end. */
  lemma {:induction false} DigitRank(n: nat, i: nat)
    requires i < RdLen(n)
    ensures |RenderDigits(n)| == RdLen(n)
    ensures RenderDigits(n)[i] == DigitChar(n / Pow10(RdLen(n) - 1 - i) % 10)
  {
    hide DigitChar;
    RenderLength(n);
    if n >= 10 {
      RenderLength(n / 10);
      var rank := RdLen(n) - 1 - i;
      if rank > 0 {
        DigitRank(n / 10, i);
        DivideTwice(n, Pow10(rank - 1));
        assert n / Pow10(rank) == n / 10 / Pow10(rank - 1);
      } else {
        assert Pow10(rank) == 1 && n / 1 == n;
      }
    }
  }

  // ----- The code -----

  /** The character whose decimal value is `d`. */
  method PlaceDigit(d: nat) returns (c: char)
    requires d < 10
    ensures '0' <= c <= '9' && (c - '0') as nat == d
  {
    match d {
      case 0 => c := '0'; case 1 => c := '1'; case 2 => c := '2'; case 3 => c := '3'; case 4 => c := '4';
      case 5 => c := '5'; case 6 => c := '6'; case 7 => c := '7'; case 8 => c := '8'; case _ => c := '9';
    }
  }

  /** Ten to the `k`; every product on the way fits 64 bits. */
  method Tenth(k: nat) returns (p: U64)
    requires k < 19
    ensures p as nat == Pow10(k)
  {
    p := 1;
    for l := 0 to k
      invariant p as nat == Pow10(l)
    {
      PowersBelow19(l + 1);
      p := p * 10;
    }
  }

  method RdLenExec(n: U64) returns (k: nat)
    requires 0 < n
    ensures k == RdLen(n as nat)
  {
    var m := n;
    k := 0;
    while m >= 10
      invariant k + RdLen(m as nat) == RdLen(n as nat)
    {
      m := m / 10;
      k := k + 1;
    }
    k := k + 1;
  }

  method DigitOfRank(n: U64, rank: nat) returns (c: char)
    requires rank < 19
    ensures c == DigitChar(n as nat / Pow10(rank) % 10)
  {
    hide DigitChar, Pow10;
    var pow := Tenth(rank);
    var digit := (n / pow) % 10;
    assert digit as nat == n as nat / pow as nat % 10;
    c := PlaceDigit(digit as nat);
    DigitRoundTrip(digit as nat);
  }

  /** The token of every index the renderer accepts, digit by digit from the left. */
  method MakePlaceholder(n: U64) returns (token: string)
    requires 0 < n < 10_000_000_000_000
    ensures token == RenderToken(n as nat)
    ensures token == "\U{27e6}SECRET_" + RenderDigits(n as nat) + "\U{27e7}"
  {
    hide DigitChar, Pow10, RenderDigits, RdLen;
    LengthBounded(n as nat);
    RenderLength(n as nat);
    var total := RdLenExec(n);
    ghost var digits := RenderDigits(n as nat);
    var opener := OPENER;
    token := opener;
    assert opener + digits[..0] == opener;
    for j := 0 to total
      invariant token == opener + digits[..j]
    {
      DigitRank(n as nat, j);
      var c := DigitOfRank(n, total - 1 - j);
      assert digits[..j + 1] == digits[..j] + [digits[j]];
      token := token + [c];
    }
    assert digits[..total] == digits;
    token := token + [CLOSER];
  }

  // ----- Reading back -----

  function DigitValue(c: char): nat {
    if '0' <= c <= '9' then (c - '0') as nat else 0
  }

  function Decode(s: string): nat {
    if s == [] then 0 else 10 * Decode(s[..|s| - 1]) + DigitValue(s[|s| - 1])
  }

  lemma DigitRoundTrip(d: nat)
    requires d < 10
    ensures '0' <= DigitChar(d) <= '9' && DigitValue(DigitChar(d)) == d
  {
  }

  /** Reading the digits as a decimal number gives the index back, and nothing but digits is rendered. */
  lemma {:induction false} DecodeRender(n: nat)
    ensures Decode(RenderDigits(n)) == n
    ensures forall c | c in RenderDigits(n) :: '0' <= c <= '9'
  {
    if n < 10 {
      DigitRoundTrip(n);
      assert RenderDigits(n)[..0] == [];
    } else {
      DecodeRender(n / 10);
      DigitRoundTrip(n % 10);
      var s := RenderDigits(n);
      assert s[..|s| - 1] == RenderDigits(n / 10);
    }
  }

  /** No token begins another token: one placeholder is never mistaken for the start of a different one. */
  lemma TokensPrefixFree(n: nat, m: nat)
    requires RenderToken(n) <= RenderToken(m)
    ensures n == m
  {
    var a, b := RenderDigits(n), RenderDigits(m);
    DecodeRender(n);
    DecodeRender(m);
    var s, t := RenderToken(n), RenderToken(m);
    assert s == OPENER + (a + [CLOSER]) && t == OPENER + (b + [CLOSER]);
    assert forall k | 0 <= k < |a + [CLOSER]| :: s[|OPENER| + k] == (a + [CLOSER])[k];
    assert forall k | 0 <= k < |b + [CLOSER]| :: t[|OPENER| + k] == (b + [CLOSER])[k];
    assert a + [CLOSER] <= b + [CLOSER];
    ClosedDigitsAgree(a, b);
  }

  lemma ClosedDigitsAgree(a: string, b: string)
    requires a + [CLOSER] <= b + [CLOSER]
    requires (forall c | c in a :: '0' <= c <= '9') && (forall c | c in b :: '0' <= c <= '9')
    ensures a == b
  {
    assert (b + [CLOSER])[|a|] == (a + [CLOSER])[|a|] == CLOSER;
    forall k | 0 <= k < |b| ensures (b + [CLOSER])[k] != CLOSER {
      assert b[k] in b;
    }
    assert |a| == |b|;
    forall k | 0 <= k < |a| ensures a[k] == b[k] {
      assert (a + [CLOSER])[k] == (b + [CLOSER])[k];
    }
  }
}
