/**
 * Ids and session tokens: `<now>_<random>` and `session_<id>_<now>`, where `<now>` is the
 * clock in decimal and `<random>` the base-36 digits drawn from the random generator.
 */
module SessionToken {
  import opened Types

  const TOKEN_PREFIX: string := "session_"

  predicate IsDigit(c: char) { '0' <= c <= '9' }

  /** Base 10 digits of a natural number, most significant first, no leading zero. */
  function Decimal(n: nat): (s: string)
    ensures |s| >= 1
    ensures forall i | 0 <= i < |s| :: IsDigit(s[i])
    decreases n
  {
    if n < 10 then [('0' as int + n) as char] else Decimal(n / 10) + [('0' as int + n % 10) as char]
  }

  /** The value of a string of decimal digits. */
  function DecimalValue(s: string): nat
    requires forall i | 0 <= i < |s| :: IsDigit(s[i])
  {
    if |s| == 0 then 0
    else
      assert IsDigit(s[|s| - 1]);
      10 * DecimalValue(s[..|s| - 1]) + (s[|s| - 1] as int - '0' as int)
  }

  lemma {:induction false} DecimalRoundTrip(n: nat)
    ensures DecimalValue(Decimal(n)) == n
    decreases n
  {
    if n >= 10 {
      var s := Decimal(n);
      DecimalRoundTrip(n / 10);
      assert s[..|s| - 1] == Decimal(n / 10);
    }
  }

  /** The decimal rendering of a clock reading loses nothing. */
  lemma DecimalInjective(a: nat, b: nat)
    ensures Decimal(a) == Decimal(b) <==> a == b
  {
    DecimalRoundTrip(a);
    DecimalRoundTrip(b);
  }

  /** `generateUniqueId`: the clock, an underscore, the random digits. */
  function GenerateUniqueId(nonce: Nonce): string {
    Decimal(nonce.now) + "_" + nonce.random
  }

  /** An id is the clock digits, an underscore, then the random digits, each recoverable by position. */
  lemma UniqueIdLayout(nonce: Nonce)
    ensures var id, d := GenerateUniqueId(nonce), Decimal(nonce.now);
      |id| == |d| + 1 + |nonce.random| && id[..|d|] == d && id[|d|] == '_' && id[|d| + 1..] == nonce.random
  {
  }

  /** `generateSessionToken`: the prefix, a fresh id, an underscore, a second clock reading. */
  function GenerateSessionToken(nonce: Nonce, later: nat): (token: string)
    ensures |token| > |TOKEN_PREFIX| && token[..|TOKEN_PREFIX|] == TOKEN_PREFIX
  {
    TOKEN_PREFIX + GenerateUniqueId(nonce) + "_" + Decimal(later)
  }

  /** Base-36 digits, which is what the random part of an id consists of. */
  predicate IsBase36(s: string) {
    forall i | 0 <= i < |s| :: IsDigit(s[i]) || 'a' <= s[i] <= 'z'
  }

  /** A string cut at its first underscore gives back both of its pieces. */
  lemma SplitAtFirstUnderscore(x: string, y: string, x': string, y': string)
    requires '_' !in x && '_' !in x'
    requires x + "_" + y == x' + "_" + y'
    ensures x == x' && y == y'
  {
    var s := x + "_" + y;
    assert s[|x|] == '_' && s[|x'|] == '_';
    assert forall i | 0 <= i < |x| :: s[i] == x[i];
    assert forall i | 0 <= i < |x'| :: s[i] == x'[i];
    assert |x| == |x'|;
    assert x == s[..|x|] == x';
    assert y == s[|x| + 1..] == y';
  }

  lemma NoUnderscoreInDigits(s: string)
    requires IsBase36(s)
    ensures '_' !in s
  {
  }

  /** With base-36 random digits, two ids are equal exactly when their clock readings and digits are. */
  lemma UniqueIdDeterminesInputs(n1: Nonce, n2: Nonce)
    requires IsBase36(n1.random) && IsBase36(n2.random)
    ensures GenerateUniqueId(n1) == GenerateUniqueId(n2) <==> n1 == n2
  {
    if GenerateUniqueId(n1) == GenerateUniqueId(n2) {
      var d1, d2 := Decimal(n1.now), Decimal(n2.now);
      NoUnderscoreInDigits(d1);
      NoUnderscoreInDigits(d2);
      SplitAtFirstUnderscore(d1, n1.random, d2, n2.random);
      DecimalInjective(n1.now, n2.now);
    }
  }

  /**
   * Equal tokens come from equal clock readings and equal random digits: a token can be taken
   * apart again, so two tokens differ whenever what they were made from differs.
   */
  lemma TokenDeterminesInputs(n1: Nonce, later1: nat, n2: Nonce, later2: nat)
    requires IsBase36(n1.random) && IsBase36(n2.random)
    requires GenerateSessionToken(n1, later1) == GenerateSessionToken(n2, later2)
    ensures n1 == n2 && later1 == later2
  {
    var d1, d2 := Decimal(n1.now), Decimal(n2.now);
    var e1, e2 := Decimal(later1), Decimal(later2);
    var t1 := GenerateSessionToken(n1, later1);
    assert t1 == TOKEN_PREFIX + (d1 + "_" + (n1.random + "_" + e1));
    assert GenerateSessionToken(n2, later2) == TOKEN_PREFIX + (d2 + "_" + (n2.random + "_" + e2));
    var tail1 := t1[|TOKEN_PREFIX|..];
    assert tail1 == d1 + "_" + (n1.random + "_" + e1);
    assert tail1 == d2 + "_" + (n2.random + "_" + e2);
    NoUnderscoreInDigits(d1);
    NoUnderscoreInDigits(d2);
    SplitAtFirstUnderscore(d1, n1.random + "_" + e1, d2, n2.random + "_" + e2);
    NoUnderscoreInDigits(n1.random);
    NoUnderscoreInDigits(n2.random);
    SplitAtFirstUnderscore(n1.random, e1, n2.random, e2);
    DecimalInjective(n1.now, n2.now);
    DecimalInjective(later1, later2);
  }
}
