/** Identifiers: ten characters of time, sixteen of randomness, in Crockford's base 32. */
module Ulid {
  const CROCKFORD := "0123456789ABCDEFGHJKMNPQRSTVWXYZ"

  function Pow32(n: nat): (r: nat)
    ensures r > 0
  {
    if n == 0 then 1 else 32 * Pow32(n - 1)
  }

  /** The last `length` base-32 digits of a time. */
  function Encoded(ms: nat, length: nat): (s: string)
    ensures |s| == length && forall i :: 0 <= i < length ==> s[i] in CROCKFORD
  {
    if length == 0 then "" else Encoded(ms / 32, length - 1) + [CROCKFORD[ms % 32]]
  }

  method EncodeTime(ms: nat, length: nat) returns (out: string)
    ensures out == Encoded(ms, length)
  {
    var value := ms;
    out := "";
    for i := 0 to length
      invariant Encoded(ms, length) == Encoded(value, length - i) + out
    {
      assert Encoded(value, length - i) == Encoded(value / 32, length - i - 1) + [CROCKFORD[value % 32]];
      out := [CROCKFORD[value % 32]] + out;
      value := value / 32;
    }
  }

  /** Where a character first occurs. */
  function Position(c: char, s: string): (d: nat)
    ensures c in s ==> d < |s| && s[d] == c
  {
    if s == "" || s[0] == c then 0 else 1 + Position(c, s[1..])
  }

  function Digit(c: char): nat { Position(c, CROCKFORD) }

  lemma DigitsRise(d: nat, e: nat)
    requires d < e < 32
    ensures CROCKFORD[d] < CROCKFORD[e]
  {
  }

  lemma DigitOf(d: nat)
    requires d < 32
    ensures Digit(CROCKFORD[d]) == d
  {
    var e := Digit(CROCKFORD[d]);
    hide Position;
    if e < d {
      DigitsRise(e, d);
    } else if d < e {
      DigitsRise(d, e);
    }
  }

  function Decoded(s: string): nat {
    if s == "" then 0 else 32 * Decoded(s[..|s| - 1]) + Digit(s[|s| - 1])
  }

  /** Decoding gives the time back, as far as the length reaches. */
  lemma {:induction false} DecodesBack(ms: nat, length: nat)
    requires ms < Pow32(length)
    ensures Decoded(Encoded(ms, length)) == ms
  {
    if length > 0 {
      var s := Encoded(ms, length);
      assert s[..|s| - 1] == Encoded(ms / 32, length - 1);
      DecodesBack(ms / 32, length - 1);
      DigitOf(ms % 32);
    }
  }

  predicate Before(a: string, b: string) {
    b != "" && (a == "" || a[0] < b[0] || (a[0] == b[0] && Before(a[1..], b[1..])))
  }

  lemma {:induction false} BeforeByPrefix(a: string, b: string, c: char, d: char)
    requires |a| == |b| && (Before(a, b) || (a == b && c < d))
    ensures Before(a + [c], b + [d])
  {
    if a != "" {
      assert (a + [c])[1..] == a[1..] + [c] && (b + [d])[1..] == b[1..] + [d];
      if a[0] == b[0] {
        BeforeByPrefix(a[1..], b[1..], c, d);
      }
    }
  }

  lemma DigitsOf(ms: nat, length: nat)
    requires length > 0
    ensures Encoded(ms, length) == Encoded(ms / 32, length - 1) + [CROCKFORD[ms % 32]]
    ensures ms < Pow32(length) ==> ms / 32 < Pow32(length - 1)
  {
  }

  /** Later times sort later. */
  lemma {:induction false} KeepsOrder(ms: nat, later: nat, length: nat)
    requires ms < later < Pow32(length)
    ensures Before(Encoded(ms, length), Encoded(later, length))
  {
    if length > 0 {
      DigitsOf(ms, length);
      DigitsOf(later, length);
      hide Encoded, Pow32, Before;
      if ms / 32 < later / 32 {
        KeepsOrder(ms / 32, later / 32, length - 1);
      } else {
        assert ms / 32 == later / 32;
        DigitsRise(ms % 32, later % 32);
      }
      BeforeByPrefix(Encoded(ms / 32, length - 1), Encoded(later / 32, length - 1),
                     CROCKFORD[ms % 32], CROCKFORD[later % 32]);
    }
  }

  // ---- The validator ----

  function Upper(c: char): char {
    if 'a' <= c <= 'z' then ((c as int) - 32) as char else c
  }

  predicate IsCrockfordChar(c: char) {
    c as int < 128 && Upper(c) !in {'O', 'I', 'L'} && Upper(c) in CROCKFORD
  }

  predicate ParseUlid(s: string) {
    |s| == 26 && (forall i :: 0 <= i < |s| ==> IsCrockfordChar(s[i])) && '0' <= Upper(s[0]) <= '7'
  }

  lemma {:induction false} FirstDigit(ms: nat, length: nat)
    requires length > 0 && ms < Pow32(length)
    ensures ms / Pow32(length - 1) < 32 && Encoded(ms, length)[0] == CROCKFORD[ms / Pow32(length - 1)]
  {
    DigitsOf(ms, length);
    if length == 1 {
      assert Pow32(0) == 1 && Encoded(ms / 32, 0) == "";
    } else {
      FirstDigit(ms / 32, length - 1);
      DivideTwice(ms, Pow32(length - 2));
      assert Pow32(length - 1) == 32 * Pow32(length - 2);
      hide Encoded, Pow32;
    }
  }

  lemma DivideTwice(n: nat, d: nat)
    requires d > 0
    ensures n / 32 / d == n / (32 * d)
  {
    var q, r := n / 32 / d, n / 32 % d;
    assert n / 32 == d * q + r;
    assert n == (32 * d) * q + (32 * r + n % 32);
    QuotientIs(n, 32 * d, q, 32 * r + n % 32);
  }

  lemma MultiplyLeq(d: nat, a: nat, b: nat)
    requires a <= b
    ensures d * a <= d * b && d * (a + 1) == d * a + d
  {
  }

  lemma QuotientIs(n: nat, d: nat, q: nat, r: nat)
    requires d > 0 && r < d && n == d * q + r
    ensures n / d == q
  {
    var p := n / d;
    assert d * p <= n < d * p + d;
    if p < q {
      MultiplyLeq(d, p + 1, q);
      MultiplyLeq(d, p, q);
    } else if q < p {
      MultiplyLeq(d, q + 1, p);
      MultiplyLeq(d, q, p);
    }
  }

  lemma Powers()
    ensures Pow32(9) == 0x2000_0000_0000 && Pow32(10) == 0x4_0000_0000_0000
  {
    assert Pow32(1) == 32 && Pow32(2) == 32 * 32 && Pow32(3) == 0x8000;
    assert Pow32(6) == 0x4000_0000;
  }

  lemma CrockfordIsValid(c: char)
    requires c in CROCKFORD
    ensures IsCrockfordChar(c) && Upper(c) == c
  {
  }

  lemma FirstDigitIsSmall(d: nat)
    requires d < 32
    ensures '0' <= CROCKFORD[d] <= '7' <==> d < 8
  {
  }

  /** Of all times that fit ten characters, the validator accepts exactly those of 48 bits. */
  lemma AcceptedIff48Bits(ms: nat, random: string)
    requires ms < Pow32(10) && |random| == 16 && forall i :: 0 <= i < 16 ==> random[i] in CROCKFORD
    ensures ParseUlid(Encoded(ms, 10) + random) <==> ms < 0x1_0000_0000_0000
  {
    var s := Encoded(ms, 10) + random;
    forall i | 0 <= i < 26 ensures IsCrockfordChar(s[i]) && Upper(s[i]) == s[i] {
      CrockfordIsValid(s[i]);
    }
    Powers();
    FirstDigit(ms, 10);
    FirstDigitIsSmall(ms / Pow32(9));
  }

  predicate Base32(c: char) {
    '0' <= c <= '9' || ('A' <= c <= 'Z' && c !in {'I', 'L', 'O', 'U'})
    || ('a' <= c <= 'z' && c !in {'i', 'l', 'o', 'u'})
  }

  /** In general: 26 digits and letters of either case other than I, L, O and U, the first of them at most 7. */
  lemma ParsesIff(s: string)
    ensures ParseUlid(s) <==> |s| == 26 && (forall i :: 0 <= i < 26 ==> Base32(s[i])) && '0' <= s[0] <= '7'
  {
    if |s| == 26 {
      forall i | 0 <= i < 26 ensures IsCrockfordChar(s[i]) <==> Base32(s[i]) {
        CharIff(s[i]);
      }
      UpperIff(s[0]);
      hide IsCrockfordChar, Base32, Upper;
    }
  }

  lemma CharIff(c: char)
    ensures IsCrockfordChar(c) <==> Base32(c)
  {
    InAlphabet(Upper(c));
  }

  lemma InAlphabet(c: char)
    ensures c in CROCKFORD <==> '0' <= c <= '9' || ('A' <= c <= 'Z' && c != 'I' && c != 'L' && c != 'O' && c != 'U')
  {
  }

  lemma UpperIff(c: char)
    ensures '0' <= Upper(c) <= '7' <==> '0' <= c <= '7'
  {
  }
}
