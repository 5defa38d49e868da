/** Password-strength rules: a strict check, a score capped at 5 and a label per score. */
module Validation {

  /** The four character classes of `passwordStrengthRegex`. */
  datatype CharClass = Lowercase | Uppercase | Number | Special

  /** The bracket class `[!@#$%^&*(),.?":{}|<>]`, one comparison per member. */
  predicate IsSpecialCharacter(c: char) {
    c == '!' || c == '@' || c == '#' || c == '$' || c == '%' || c == '^' || c == '&' || c == '*'
    || c == '(' || c == ')' || c == ',' || c == '.' || c == '?' || c == '"' || c == ':' || c == '{'
    || c == '}' || c == '|' || c == '<' || c == '>'
  }

  predicate InClass(c: char, cls: CharClass) {
    match cls
    case Lowercase => 'a' <= c <= 'z'
    case Uppercase => 'A' <= c <= 'Z'
    case Number => '0' <= c <= '9'
    case Special => IsSpecialCharacter(c)
  }

  /** `passwordStrengthRegex[cls].test(s)`, scanning from the left. */
  predicate Test(cls: CharClass, s: string) {
    TestFrom(cls, s, 0)
  }

  /** The scan from position `i` on. */
  predicate TestFrom(cls: CharClass, s: string, i: nat)
    requires i <= |s|
    decreases |s| - i
  {
    i < |s| && (InClass(s[i], cls) || TestFrom(cls, s, i + 1))
  }

  /** Some character of `s` belongs to the class. */
  ghost predicate Contains(s: string, cls: CharClass) {
    exists i | 0 <= i < |s| :: InClass(s[i], cls)
  }

  /** The scan from `i` finds a character of the class exactly when one sits at `i` or later. */
  lemma {:induction false} TestFromIsContains(cls: CharClass, s: string, i: nat)
    requires i <= |s|
    ensures TestFrom(cls, s, i) <==> exists j | i <= j < |s| :: InClass(s[j], cls)
    decreases |s| - i
  {
    if i < |s| {
      TestFromIsContains(cls, s, i + 1);
    }
  }

  /** The scan finds a character of the class exactly when there is one. */
  lemma TestIsContains(cls: CharClass, s: string)
    ensures Test(cls, s) <==> Contains(s, cls)
  {
    TestFromIsContains(cls, s, 0);
  }

  lemma ClassesAreFour(s: string)
    ensures (forall cls: CharClass :: Contains(s, cls)) <==>
      Contains(s, Lowercase) && Contains(s, Uppercase) && Contains(s, Number) && Contains(s, Special)
  {
    if Contains(s, Lowercase) && Contains(s, Uppercase) && Contains(s, Number) && Contains(s, Special) {
      forall cls: CharClass ensures Contains(s, cls) {
        match cls
        case Lowercase =>
        case Uppercase =>
        case Number =>
        case Special =>
      }
    }
  }

  /** `validatePasswordStrength`: at least eight characters and one of each class. */
  function ValidatePasswordStrength(password: string): (strong: bool)
    ensures strong <==> |password| >= 8 && forall cls: CharClass :: Contains(password, cls)
  {
    TestIsContains(Lowercase, password);
    TestIsContains(Uppercase, password);
    TestIsContains(Number, password);
    TestIsContains(Special, password);
    ClassesAreFour(password);
    |password| >= 8
    && Test(Lowercase, password)
    && Test(Uppercase, password)
    && Test(Number, password)
    && Test(Special, password)
  }

  /** The six criteria that each add one point to the score. */
  datatype Criterion = MinLength | LongLength | HasLowercase | HasUppercase | HasNumber | HasSpecial

  /** Every criterion, in the order the source tests them. */
  const CRITERIA: seq<Criterion> :=
    [MinLength, LongLength, HasLowercase, HasUppercase, HasNumber, HasSpecial]

  predicate Meets(password: string, c: Criterion) {
    match c
    case MinLength => |password| >= 8
    case LongLength => |password| >= 12
    case HasLowercase => Test(Lowercase, password)
    case HasUppercase => Test(Uppercase, password)
    case HasNumber => Test(Number, password)
    case HasSpecial => Test(Special, password)
  }

  /** One point for a criterion that holds. */
  function Point(b: bool): nat {
    if b then 1 else 0
  }

  /** How many of the listed criteria the password meets. */
  function CountMet(password: string, cs: seq<Criterion>): (n: nat)
    ensures n <= |cs|
  {
    if cs == [] then 0
    else Point(Meets(password, cs[0])) + CountMet(password, cs[1..])
  }

  /** The reference score: the number of criteria met, capped at 5. */
  function ScoreOf(password: string): nat {
    var n := CountMet(password, CRITERIA);
    if n < 5 then n else 5
  }

  /** Counting the criteria one by one, unrolled over the six of them. */
  lemma CountMetUnrolled(password: string)
    ensures CountMet(password, CRITERIA)
      == Point(|password| >= 8) + Point(|password| >= 12)
         + Point(Test(Lowercase, password)) + Point(Test(Uppercase, password))
         + Point(Test(Number, password)) + Point(Test(Special, password))
  {
    var p := password;
    assert CountMet(p, [HasSpecial]) == Point(Meets(p, HasSpecial));
    assert CountMet(p, [HasNumber, HasSpecial])
      == Point(Meets(p, HasNumber)) + CountMet(p, [HasSpecial]);
    assert CountMet(p, [HasUppercase, HasNumber, HasSpecial])
      == Point(Meets(p, HasUppercase)) + CountMet(p, [HasNumber, HasSpecial]);
    assert CountMet(p, [HasLowercase, HasUppercase, HasNumber, HasSpecial])
      == Point(Meets(p, HasLowercase)) + CountMet(p, [HasUppercase, HasNumber, HasSpecial]);
    assert CountMet(p, [LongLength, HasLowercase, HasUppercase, HasNumber, HasSpecial])
      == Point(Meets(p, LongLength)) + CountMet(p, [HasLowercase, HasUppercase, HasNumber, HasSpecial]);
    assert CountMet(p, CRITERIA)
      == Point(Meets(p, MinLength)) + CountMet(p, [LongLength, HasLowercase, HasUppercase, HasNumber, HasSpecial]);
  }

  /** `getPasswordStrengthScore`: one increment per criterion met, then `Math.min(score, 5)`. */
  method GetPasswordStrengthScore(password: string) returns (score: int)
    ensures 0 <= score <= 5
    ensures score == ScoreOf(password)
  {
    score := 0;
    if |password| >= 8 { score := score + 1; }
    if |password| >= 12 { score := score + 1; }
    if Test(Lowercase, password) { score := score + 1; }
    if Test(Uppercase, password) { score := score + 1; }
    if Test(Number, password) { score := score + 1; }
    if Test(Special, password) { score := score + 1; }
    CountMetUnrolled(password);
    score := if score < 5 then score else 5;
  }

  /** A password the strict check accepts meets at least five criteria, so it scores 5. */
  lemma StrongPasswordScoresFive(password: string)
    requires ValidatePasswordStrength(password)
    ensures ScoreOf(password) == 5
  {
    CountMetUnrolled(password);
  }

  /** A password shorter than eight characters fails the strict check and scores at most 4. */
  lemma ShortPasswordIsWeak(password: string)
    requires |password| < 8
    ensures !ValidatePasswordStrength(password)
    ensures ScoreOf(password) <= 4
  {
    CountMetUnrolled(password);
  }

  /** A class test over two pieces of a string tests each piece. */
  lemma TestAppend(cls: CharClass, a: string, b: string)
    ensures Test(cls, a + b) <==> Test(cls, a) || Test(cls, b)
  {
    TestIsContains(cls, a + b);
    TestIsContains(cls, a);
    TestIsContains(cls, b);
    if Contains(a + b, cls) {
      var i :| 0 <= i < |a + b| && InClass((a + b)[i], cls);
      if i >= |a| {
        assert (a + b)[i] == b[i - |a|];
      }
    }
    if Contains(a, cls) {
      var i :| 0 <= i < |a| && InClass(a[i], cls);
      assert (a + b)[i] == a[i];
    }
    if Contains(b, cls) {
      var i :| 0 <= i < |b| && InClass(b[i], cls);
      assert (a + b)[|a| + i] == b[i];
    }
  }

  // Class facts about the sample passwords, one scan per lemma.
  lemma OnlyLowercaseIn_password()
    ensures Test(Lowercase, "password") && !Test(Uppercase, "password")
    ensures !Test(Number, "password") && !Test(Special, "password")
  {}
  lemma NoNumberIn_Password() ensures !Test(Number, "Password") {}
  lemma NoSpecialIn_Password() ensures !Test(Special, "Password") {}
  lemma NoSpecialIn_Password1() ensures !Test(Special, "Password1") {}
  lemma NoLowercaseIn_PASSWORD1() ensures !Test(Lowercase, "PASSWORD1!") {}
  lemma NoUppercaseIn_password1() ensures !Test(Uppercase, "password1!") {}
  lemma NoNumberIn_PasswordBang() ensures !Test(Number, "Password!") {}
  lemma NoSpecialIn_pass1() ensures !Test(Special, "pass1") {}
  lemma EveryClassIn_Password1() ensures forall cls :: Test(cls, "Password1!") {
    forall cls ensures Test(cls, "Password1!") {
      match cls
      case Lowercase =>
      case Uppercase =>
      case Number =>
      case Special =>
    }
  }

  /** The scores the test suite expects of its sample passwords. */
  lemma PinnedScores()
    ensures ScoreOf("password") == 2
    ensures ScoreOf("Password") == 3
    ensures ScoreOf("Password1") == 4
    ensures ScoreOf("Password1!") == 5
  {
    ScoreOf_password();
    ScoreOf_Password();
    ScoreOf_Password1();
    EveryClassIn_Password1();
    StrongPasswordScoresFive("Password1!");
  }

  lemma ScoreOf_password() ensures ScoreOf("password") == 2 {
    OnlyLowercaseIn_password();
    CountMetUnrolled("password");
  }

  lemma ScoreOf_Password() ensures ScoreOf("Password") == 3 {
    NoNumberIn_Password();
    NoSpecialIn_Password();
    CountMetUnrolled("Password");
  }

  lemma ScoreOf_Password1() ensures ScoreOf("Password1") == 4 {
    NoSpecialIn_Password1();
    assert Test(Number, "Password1");
    CountMetUnrolled("Password1");
  }

  /** The verdicts the test suite expects: each missing requirement alone makes a password weak. */
  lemma PinnedVerdicts()
    ensures ValidatePasswordStrength("Password1!")
    ensures !ValidatePasswordStrength("Pass1!")
    ensures !ValidatePasswordStrength("PASSWORD1!")
    ensures !ValidatePasswordStrength("password1!")
    ensures !ValidatePasswordStrength("Password!")
    ensures !ValidatePasswordStrength("Password1")
  {
    EveryClassIn_Password1();
    NoLowercaseIn_PASSWORD1();
    NoUppercaseIn_password1();
    NoNumberIn_PasswordBang();
    NoSpecialIn_Password1();
  }

  lemma EveryClassIn_MyPssw0rd() ensures forall cls :: Test(cls, "MyP@ssw0rd") {
    forall cls ensures Test(cls, "MyP@ssw0rd") {
      match cls
      case Lowercase =>
      case Uppercase =>
      case Number =>
      case Special =>
    }
  }
  lemma EveryClassIn_Str0ngPass() ensures forall cls :: Test(cls, "Str0ng!Pass") {
    forall cls ensures Test(cls, "Str0ng!Pass") {
      match cls
      case Lowercase =>
      case Uppercase =>
      case Number =>
      case Special =>
    }
  }
  lemma EveryClassIn_MyStr0ng() ensures forall cls :: Test(cls, "MyStr0ng!") {
    forall cls ensures Test(cls, "MyStr0ng!") {
      match cls
      case Lowercase =>
      case Uppercase =>
      case Number =>
      case Special =>
    }
  }
  lemma EveryClassIn_MyStr0ngPassword() ensures forall cls :: Test(cls, "MyStr0ng!Password") {
    EveryClassIn_MyStr0ng();
    assert "MyStr0ng!Password" == "MyStr0ng!" + "Password";
    forall cls ensures Test(cls, "MyStr0ng!Password") {
      TestAppend(cls, "MyStr0ng!", "Password");
    }
  }
  lemma OnlyLowercaseIn_pass()
    ensures !Test(Uppercase, "pass") && !Test(Number, "pass") && !Test(Special, "pass")
  {}
  lemma OnlyDigitsIn_12345()
    ensures !Test(Lowercase, "12345") && !Test(Uppercase, "12345") && !Test(Special, "12345")
  {}

  /** The remaining verdicts of the test suite. */
  lemma MorePinnedVerdicts()
    ensures !ValidatePasswordStrength("12345") && !ValidatePasswordStrength("password")
    ensures !ValidatePasswordStrength("Password")
    ensures ValidatePasswordStrength("MyP@ssw0rd") && ValidatePasswordStrength("Str0ng!Pass")
  {
    OnlyLowercaseIn_password();
    NoNumberIn_Password();
    EveryClassIn_MyPssw0rd();
    EveryClassIn_Str0ngPass();
  }

  /** The remaining scores of the test suite. */
  lemma MorePinnedScores()
    ensures ScoreOf("pass") <= 1 && ScoreOf("12345") <= 1
    ensures ScoreOf("MyStr0ng!Password") == 5
  {
    OnlyLowercaseIn_pass();
    CountMetUnrolled("pass");
    OnlyDigitsIn_12345();
    CountMetUnrolled("12345");
    EveryClassIn_MyStr0ngPassword();
    CountMetUnrolled("MyStr0ng!Password");
  }

  lemma ClassesOf_Passwordpass1()
    ensures Test(Lowercase, "Passwordpass1") && Test(Uppercase, "Passwordpass1")
    ensures Test(Number, "Passwordpass1") && !Test(Special, "Passwordpass1")
  {
    assert "Passwordpass1" == "Password" + "pass1";
    assert Test(Uppercase, "Password") && Test(Lowercase, "pass1");
    TestAppend(Uppercase, "Password", "pass1");
    TestAppend(Lowercase, "Password", "pass1");
    NoSpecialIn_Password();
    NoSpecialIn_pass1();
    TestAppend(Special, "Password", "pass1");
    assert Test(Number, "pass1");
    TestAppend(Number, "Password", "pass1");
  }

  /** Scoring 5 does not make a password strong: a long password without a special character. */
  lemma TopScoreIsNotStrength()
    ensures ScoreOf("Passwordpass1") == 5
    ensures !ValidatePasswordStrength("Passwordpass1")
  {
    ClassesOf_Passwordpass1();
    CountMetUnrolled("Passwordpass1");
  }

  /** `getPasswordStrengthLabel`: total, and one label for each step of the scale. */
  function GetPasswordStrengthLabel(score: int): (name: string)
    ensures name in {"Very Weak", "Weak", "Fair", "Good", "Strong"}
    ensures name == "Very Weak" <==> score <= 1
    ensures score == 2 ==> name == "Weak"
    ensures score == 3 ==> name == "Fair"
    ensures score == 4 ==> name == "Good"
    ensures name == "Strong" <==> score >= 5
  {
    if score <= 1 then "Very Weak"
    else if score == 2 then "Weak"
    else if score == 3 then "Fair"
    else if score == 4 then "Good"
    else "Strong"
  }

  /** Distinct scores on the scale 1..5 get distinct labels. */
  lemma LabelsSeparateScores(a: int, b: int)
    requires 1 <= a <= 5 && 1 <= b <= 5 && a != b
    ensures GetPasswordStrengthLabel(a) != GetPasswordStrengthLabel(b)
  {
  }
}
