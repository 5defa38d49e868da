/**
 * The deterministic 32-bit rolling password hash: h := ToInt32(31 * h + code) over the
 * characters, from 0, rendered with `Number.prototype.toString(16)`.
 */
module PasswordHash {
  import opened Types

  const TWO_32: int := 0x1_0000_0000
  const TWO_31: int := 0x8000_0000

  predicate IsInt32(x: int) { -TWO_31 <= x < TWO_31 }

  /** ECMAScript ToInt32: the signed 32-bit integer congruent to `x` modulo 2^32. */
  function ToInt32(x: int): (r: int)
    ensures IsInt32(r)
    ensures (x - r) % TWO_32 == 0
  {
    var m := x % TWO_32;
    if m < TWO_31 then m else m - TWO_32
  }

  lemma ToInt32OfInt32(x: int)
    requires IsInt32(x)
    ensures ToInt32(x) == x
  {
  }

  /** Numbers congruent modulo 2^32 have the same ToInt32. */
  lemma ToInt32Congruent(x: int, y: int)
    requires (x - y) % TWO_32 == 0
    ensures ToInt32(x) == ToInt32(y)
  {
    var k := (x - y) / TWO_32;
    assert x == y + k * TWO_32;
    assert x % TWO_32 == y % TWO_32;
  }

  /** The hash of a password, as a left fold of h := ToInt32(31 * h + code). */
  function RollingHash(s: string): (h: int)
    ensures IsInt32(h)
  {
    if |s| == 0 then 0 else ToInt32(31 * RollingHash(s[..|s| - 1]) + s[|s| - 1] as int)
  }

  /** One pass of the source loop as written: `(hash << 5) - hash + char`, then `hash & hash`. */
  function ShiftStep(hash: int, c: char): int {
    ToInt32(ToInt32(hash * 32) - hash + c as int)
  }

  /** The shift-and-subtract step computes ToInt32(31 * hash + code). */
  lemma ShiftStepIsRolling(hash: int, c: char)
    ensures ShiftStep(hash, c) == ToInt32(31 * hash + c as int)
  {
    var shifted := ToInt32(hash * 32);
    var k := (hash * 32 - shifted) / TWO_32;
    assert hash * 32 - shifted == k * TWO_32;
    assert (shifted - hash + c as int) - (31 * hash + c as int) == -(k * TWO_32);
    ToInt32Congruent(shifted - hash + c as int, 31 * hash + c as int);
  }

  /** The unbounded polynomial sum of c_i * 31^(n-1-i), in Horner form. */
  function Polynomial(s: string): int {
    if |s| == 0 then 0 else 31 * Polynomial(s[..|s| - 1]) + s[|s| - 1] as int
  }

  /** Wrapping after every step gives the same hash as wrapping the whole polynomial once. */
  lemma {:induction false} RollingHashIsPolynomial(s: string)
    ensures RollingHash(s) == ToInt32(Polynomial(s))
  {
    if |s| > 0 {
      var p := s[..|s| - 1];
      var c := s[|s| - 1] as int;
      RollingHashIsPolynomial(p);
      var h, q := RollingHash(p), Polynomial(p);
      ScaledMultiple(q - h);
      assert (31 * q + c) - (31 * h + c) == 31 * (q - h);
      ToInt32Congruent(31 * q + c, 31 * h + c);
    }
  }

  lemma ScaledMultiple(d: int)
    requires d % TWO_32 == 0
    ensures (31 * d) % TWO_32 == 0
  {
    var k := d / TWO_32;
    assert d == k * TWO_32;
    assert 31 * d == (31 * k) * TWO_32;
  }

  /** Extending a password by one character takes one more step of the fold. */
  lemma RollingHashSnoc(s: string, c: char)
    ensures RollingHash(s + [c]) == ToInt32(31 * RollingHash(s) + c as int)
  {
    assert (s + [c])[..|s|] == s;
  }

  /** Two numbers closer together than 2^32 keep apart under ToInt32. */
  lemma ToInt32Separates(x: int, y: int)
    requires 0 < x - y < TWO_32
    ensures ToInt32(x) != ToInt32(y)
  {
    var rx, ry := ToInt32(x), ToInt32(y);
    var m := (x - rx) / TWO_32 - (y - ry) / TWO_32;
    assert (x - y) - (rx - ry) == m * TWO_32;
    if m == 0 {
      assert rx - ry == x - y;
    } else {
      assert m * TWO_32 >= TWO_32;
    }
  }

  /** Passwords that differ only in their last character never share a hash. */
  lemma LastCharacterSeparates(s: string, a: char, b: char)
    requires a != b
    ensures RollingHash(s + [a]) != RollingHash(s + [b])
  {
    RollingHashSnoc(s, a);
    RollingHashSnoc(s, b);
    var h := RollingHash(s);
    if a as int > b as int {
      ToInt32Separates(31 * h + a as int, 31 * h + b as int);
    } else {
      ToInt32Separates(31 * h + b as int, 31 * h + a as int);
    }
  }

  /** Changing the last character of a password changes its hash. */
  lemma LastCharacterChangesRollingHash(password: string, c: char)
    requires |password| > 0 && password[|password| - 1] != c
    ensures RollingHash(password) != RollingHash(password[..|password| - 1] + [c])
  {
    var n := |password| - 1;
    assert password == password[..n] + [password[n]];
    LastCharacterSeparates(password[..n], password[n], c);
  }

  /** Changing the last character of a password changes its rendered hash. */
  lemma LastCharacterChangesHash(password: string, c: char)
    requires |password| > 0 && password[|password| - 1] != c
    ensures HexString(RollingHash(password)) != HexString(RollingHash(password[..|password| - 1] + [c]))
  {
    LastCharacterChangesRollingHash(password, c);
    HexStringInjective(RollingHash(password), RollingHash(password[..|password| - 1] + [c]));
  }

  /** The hash is not injective: "Aa" and "BB" collide, so either one unlocks the other's account. */
  lemma HashCollision()
    ensures "Aa" != "BB" && HexString(RollingHash("Aa")) == HexString(RollingHash("BB"))
  {
    assert RollingHash("A") == 65 && RollingHash("B") == 66;
    assert RollingHash("Aa") == 2112 == RollingHash("BB");
  }

  /** ToInt32 of a number given with its quotient and remainder modulo 2^32. */
  lemma ToInt32Of(x: int, q: int, r: int)
    requires IsInt32(r) && x == q * TWO_32 + r
    ensures ToInt32(x) == r
  {
    assert (x - r) % TWO_32 == 0 by { assert x - r == q * TWO_32; }
    ToInt32Congruent(x, r);
    ToInt32OfInt32(r);
  }

  /** The first five characters of the registered test password. */
  lemma HashAfterPassw(prefix: string)
    requires RollingHash(prefix) == 0
    ensures RollingHash(prefix + "Passw") == 76885606
  {
    var s0 := prefix;
    var s1 := s0 + ['P'];
    assert RollingHash(s1) == 80 by {
      RollingHashSnoc(s0, 'P');
      ToInt32Of(31 * 0 + 'P' as int, 0, 80);
    }
    var s2 := s1 + ['a'];
    assert RollingHash(s2) == 2577 by {
      RollingHashSnoc(s1, 'a');
      ToInt32Of(31 * 80 + 'a' as int, 0, 2577);
    }
    var s3 := s2 + ['s'];
    assert RollingHash(s3) == 80002 by {
      RollingHashSnoc(s2, 's');
      ToInt32Of(31 * 2577 + 's' as int, 0, 80002);
    }
    var s4 := s3 + ['s'];
    assert RollingHash(s4) == 2480177 by {
      RollingHashSnoc(s3, 's');
      ToInt32Of(31 * 80002 + 's' as int, 0, 2480177);
    }
    var s5 := s4 + ['w'];
    assert RollingHash(s5) == 76885606 by {
      RollingHashSnoc(s4, 'w');
      ToInt32Of(31 * 2480177 + 'w' as int, 0, 76885606);
    }
    assert s5 == prefix + "Passw";
  }

  /** The last five characters of the registered test password, after "Passw". */
  lemma HashAfterOrd1(prefix: string)
    requires RollingHash(prefix) == 76885606
    ensures RollingHash(prefix + "ord1!") == -1009294837
  {
    var s0 := prefix;
    var s1 := s0 + ['o'];
    assert RollingHash(s1) == -1911513399 by {
      RollingHashSnoc(s0, 'o');
      ToInt32Of(31 * 76885606 + 'o' as int, 1, -1911513399);
    }
    var s2 := s1 + ['r'];
    assert RollingHash(s2) == 872626889 by {
      RollingHashSnoc(s1, 'r');
      ToInt32Of(31 * -1911513399 + 'r' as int, -14, 872626889);
    }
    var s3 := s2 + ['d'];
    assert RollingHash(s3) == 1281629883 by {
      RollingHashSnoc(s2, 'd');
      ToInt32Of(31 * 872626889 + 'd' as int, 6, 1281629883);
    }
    var s4 := s3 + ['1'];
    assert RollingHash(s4) == 1075820758 by {
      RollingHashSnoc(s3, '1');
      ToInt32Of(31 * 1281629883 + '1' as int, 9, 1075820758);
    }
    var s5 := s4 + ['!'];
    assert RollingHash(s5) == -1009294837 by {
      RollingHashSnoc(s4, '!');
      ToInt32Of(31 * 1075820758 + '!' as int, 8, -1009294837);
    }
    assert s5 == prefix + "ord1!";
  }

  /** The first five characters of the wrong test password. */
  lemma HashAfterWrong(prefix: string)
    requires RollingHash(prefix) == 0
    ensures RollingHash(prefix + "Wrong") == 83852685
  {
    var s0 := prefix;
    var s1 := s0 + ['W'];
    assert RollingHash(s1) == 87 by {
      RollingHashSnoc(s0, 'W');
      ToInt32Of(31 * 0 + 'W' as int, 0, 87);
    }
    var s2 := s1 + ['r'];
    assert RollingHash(s2) == 2811 by {
      RollingHashSnoc(s1, 'r');
      ToInt32Of(31 * 87 + 'r' as int, 0, 2811);
    }
    var s3 := s2 + ['o'];
    assert RollingHash(s3) == 87252 by {
      RollingHashSnoc(s2, 'o');
      ToInt32Of(31 * 2811 + 'o' as int, 0, 87252);
    }
    var s4 := s3 + ['n'];
    assert RollingHash(s4) == 2704922 by {
      RollingHashSnoc(s3, 'n');
      ToInt32Of(31 * 87252 + 'n' as int, 0, 2704922);
    }
    var s5 := s4 + ['g'];
    assert RollingHash(s5) == 83852685 by {
      RollingHashSnoc(s4, 'g');
      ToInt32Of(31 * 2704922 + 'g' as int, 0, 83852685);
    }
    assert s5 == prefix + "Wrong";
  }

  /** The next five characters of the wrong test password, after "Wrong". */
  lemma HashAfterWrongPassw(prefix: string)
    requires RollingHash(prefix) == 83852685
    ensures RollingHash(prefix + "Passw") == -2057887495
  {
    var s0 := prefix;
    var s1 := s0 + ['P'];
    assert RollingHash(s1) == -1695533981 by {
      RollingHashSnoc(s0, 'P');
      ToInt32Of(31 * 83852685 + 'P' as int, 1, -1695533981);
    }
    var s2 := s1 + ['a'];
    assert RollingHash(s2) == -1021945762 by {
      RollingHashSnoc(s1, 'a');
      ToInt32Of(31 * -1695533981 + 'a' as int, -12, -1021945762);
    }
    var s3 := s2 + ['s'];
    assert RollingHash(s3) == -1615547435 by {
      RollingHashSnoc(s2, 's');
      ToInt32Of(31 * -1021945762 + 's' as int, -7, -1615547435);
    }
    var s4 := s3 + ['s'];
    assert RollingHash(s4) == 1457637182 by {
      RollingHashSnoc(s3, 's');
      ToInt32Of(31 * -1615547435 + 's' as int, -12, 1457637182);
    }
    var s5 := s4 + ['w'];
    assert RollingHash(s5) == -2057887495 by {
      RollingHashSnoc(s4, 'w');
      ToInt32Of(31 * 1457637182 + 'w' as int, 11, -2057887495);
    }
    assert s5 == prefix + "Passw";
  }

  /** The last five characters of the wrong test password, after "WrongPassw". */
  lemma HashAfterWrongOrd1(prefix: string)
    requires RollingHash(prefix) == -2057887495
    ensures RollingHash(prefix + "ord1!") == -2091576488
  {
    var s0 := prefix;
    var s1 := s0 + ['o'];
    assert RollingHash(s1) == 629997206 by {
      RollingHashSnoc(s0, 'o');
      ToInt32Of(31 * -2057887495 + 'o' as int, -15, 629997206);
    }
    var s2 := s1 + ['r'];
    assert RollingHash(s2) == -1944922980 by {
      RollingHashSnoc(s1, 'r');
      ToInt32Of(31 * 629997206 + 'r' as int, 5, -1944922980);
    }
    var s3 := s2 + ['d'];
    assert RollingHash(s3) == -163070136 by {
      RollingHashSnoc(s2, 'd');
      ToInt32Of(31 * -1944922980 + 'd' as int, -14, -163070136);
    }
    var s4 := s3 + ['1'];
    assert RollingHash(s4) == -760206871 by {
      RollingHashSnoc(s3, '1');
      ToInt32Of(31 * -163070136 + '1' as int, -1, -760206871);
    }
    var s5 := s4 + ['!'];
    assert RollingHash(s5) == -2091576488 by {
      RollingHashSnoc(s4, '!');
      ToInt32Of(31 * -760206871 + '!' as int, -5, -2091576488);
    }
    assert s5 == prefix + "ord1!";
  }

  /** The hash of the password the login tests register with. */
  lemma TestPasswordHash()
    ensures RollingHash("Password1!") == -1009294837
  {
    HashAfterPassw([]);
    assert [] + "Passw" == "Passw";
    HashAfterOrd1("Passw");
    assert "Passw" + "ord1!" == "Password1!";
  }

  /** The hash of the wrong password the login tests try. */
  lemma WrongTestPasswordHash()
    ensures RollingHash("WrongPassword1!") == -2091576488
  {
    HashAfterWrong([]);
    assert [] + "Wrong" == "Wrong";
    HashAfterWrongPassw("Wrong");
    assert "Wrong" + "Passw" == "WrongPassw";
    HashAfterWrongOrd1("WrongPassw");
    assert "WrongPassw" + "ord1!" == "WrongPassword1!";
  }

  /** The wrong password of the login tests does not match the registered one. */
  lemma TestPasswordsDiffer()
    ensures HexString(RollingHash("WrongPassword1!")) != HexString(RollingHash("Password1!"))
  {
    TestPasswordHash();
    WrongTestPasswordHash();
    HexStringInjective(RollingHash("WrongPassword1!"), RollingHash("Password1!"));
  }

  /** The base 16 digit for 0..15: '0'..'9', then 'a'..'f'. */
  function HexDigit(d: int): char
    requires 0 <= d < 16
  {
    if d < 10 then ('0' as int + d) as char else ('a' as int + d - 10) as char
  }

  predicate IsHexDigit(c: char) { '0' <= c <= '9' || 'a' <= c <= 'f' }

  predicate AllHexDigits(s: string) {
    forall i | 0 <= i < |s| :: IsHexDigit(s[i])
  }

  function HexDigitValue(c: char): int
    requires IsHexDigit(c)
  {
    if '0' <= c <= '9' then c as int - '0' as int else c as int - 'a' as int + 10
  }

  /** Base 16 digits of a natural number, most significant first, no leading zero. */
  function HexDigits(n: nat): (s: string)
    ensures |s| >= 1 && AllHexDigits(s)
    decreases n
  {
    if n < 16 then [HexDigit(n)] else HexDigits(n / 16) + [HexDigit(n % 16)]
  }

  /** `Number.prototype.toString(16)` on an integer: a '-' before the digits of a negative. */
  function HexString(x: int): (s: string)
    ensures |s| >= 1
  {
    if x < 0 then "-" + HexDigits(-x) else HexDigits(x)
  }

  /** The value of a string of base 16 digits. */
  function HexValue(s: string): nat
    requires AllHexDigits(s)
  {
    if |s| == 0 then 0 else 16 * HexValue(s[..|s| - 1]) + HexDigitValue(s[|s| - 1])
  }

  /** Reads back what `HexString` writes; `None` for anything else. */
  function ParseHexString(s: string): Option<int> {
    if |s| >= 2 && s[0] == '-' && AllHexDigits(s[1..]) then
      var v: int := HexValue(s[1..]);
      Some(-v)
    else if |s| >= 1 && AllHexDigits(s) then
      Some(HexValue(s))
    else
      None
  }

  lemma HexDigitRoundTrip(d: int)
    requires 0 <= d < 16
    ensures HexDigitValue(HexDigit(d)) == d
  {
  }

  lemma {:induction false} HexDigitsRoundTrip(n: nat)
    ensures HexValue(HexDigits(n)) == n
    decreases n
  {
    if n >= 16 {
      var s := HexDigits(n);
      HexDigitsRoundTrip(n / 16);
      assert s[..|s| - 1] == HexDigits(n / 16);
      HexDigitRoundTrip(n % 16);
    } else {
      HexDigitRoundTrip(n);
    }
  }

  lemma {:induction false} ParseNonNegative(x: int)
    requires x >= 0
    ensures ParseHexString(HexString(x)) == Some(x)
  {
    var s := HexString(x);
    assert s == HexDigits(x) && IsHexDigit(s[0]);
    HexDigitsRoundTrip(x);
  }

  lemma ParseMinus(digits: string)
    requires |digits| >= 1 && AllHexDigits(digits)
    ensures ParseHexString("-" + digits) == Some(-(HexValue(digits) as int))
  {
    assert ("-" + digits)[1..] == digits;
  }

  lemma {:induction false} ParseNegative(x: int)
    requires x < 0
    ensures ParseHexString(HexString(x)) == Some(x)
  {
    var n: nat := -x;
    var d := HexDigits(n);
    HexDigitsRoundTrip(n);
    assert HexValue(d) == n;
    ParseMinus(d);
    assert ParseHexString("-" + d) == Some(x);
    assert HexString(x) == "-" + d;
  }

  /** The rendering of a hash can be read back, so it loses nothing. */
  lemma {:induction false} HexStringRoundTrip(x: int)
    ensures ParseHexString(HexString(x)) == Some(x)
  {
    if x < 0 {
      ParseNegative(x);
    } else {
      ParseNonNegative(x);
    }
  }

  /** Two hash strings are equal exactly when the hashes are. */
  lemma HexStringInjective(x: int, y: int)
    ensures HexString(x) == HexString(y) <==> x == y
  {
    HexStringRoundTrip(x);
    HexStringRoundTrip(y);
  }

  /** The empty password hashes to "0". */
  lemma EmptyPasswordHash()
    ensures HexString(RollingHash("")) == "0"
  {
  }
}
