/**
 * The directory key of an email address: `email.toLowerCase().trim()`,
 * restricted to ASCII letters and ASCII whitespace.
 */
module EmailKey {

  predicate IsUpper(c: char) { 'A' <= c <= 'Z' }

  predicate IsLower(c: char) { 'a' <= c <= 'z' }

  /** Tab, line feed, vertical tab, form feed, carriage return and space. */
  predicate IsSpace(c: char) { c == ' ' || '\t' <= c <= '\r' }

  function LowerChar(c: char): char {
    if IsUpper(c) then (c as int + 32) as char else c
  }

  function UpperChar(c: char): char {
    if IsLower(c) then (c as int - 32) as char else c
  }

  /** Two characters that differ at most by case. */
  predicate SameLetter(a: char, b: char) { LowerChar(a) == LowerChar(b) }

  /** `toLowerCase`: same length, the same letters, and no upper-case letter left. */
  function ToLower(s: string): (r: string)
    ensures |r| == |s|
    ensures forall i | 0 <= i < |s| :: SameLetter(r[i], s[i]) && !IsUpper(r[i])
  {
    seq(|s|, i requires 0 <= i < |s| => LowerChar(s[i]))
  }

  function ToUpper(s: string): (r: string)
    ensures |r| == |s|
  {
    seq(|s|, i requires 0 <= i < |s| => UpperChar(s[i]))
  }

  /** Drops the leading whitespace: the result is the suffix that starts at the first non-space. */
  function TrimStart(s: string): (r: string)
    ensures |r| <= |s| && r == s[|s| - |r|..]
    ensures forall i | 0 <= i < |s| - |r| :: IsSpace(s[i])
    ensures r != [] ==> !IsSpace(r[0])
  {
    if |s| > 0 && IsSpace(s[0]) then TrimStart(s[1..]) else s
  }

  /** Drops the trailing whitespace: the result is the prefix that ends at the last non-space. */
  function TrimEnd(s: string): (r: string)
    ensures |r| <= |s| && r == s[..|r|]
    ensures forall i | |r| <= i < |s| :: IsSpace(s[i])
    ensures r != [] ==> !IsSpace(r[|r| - 1])
  {
    if |s| > 0 && IsSpace(s[|s| - 1]) then TrimEnd(s[..|s| - 1]) else s
  }

  /** `trim`: whitespace removed from both ends. */
  function Trim(s: string): string {
    TrimEnd(TrimStart(s))
  }

  /** The directory key of an email: lower-cased, then trimmed. */
  function Normalize(email: string): string {
    Trim(ToLower(email))
  }

  /** A key that normalisation leaves alone: no upper-case letter and no surrounding whitespace. */
  predicate IsNormal(key: string) {
    (forall i | 0 <= i < |key| :: !IsUpper(key[i]))
    && (key != [] ==> !IsSpace(key[0]) && !IsSpace(key[|key| - 1]))
  }

  lemma LowerFixesLowered(s: string)
    requires forall i | 0 <= i < |s| :: !IsUpper(s[i])
    ensures ToLower(s) == s
  {
  }

  /** Trimming keeps exactly a contiguous piece of the input. */
  lemma TrimIsSlice(s: string)
    ensures exists i, j | 0 <= i <= j <= |s| :: Trim(s) == s[i..j]
  {
    var t := TrimStart(s);
    var i := |s| - |t|;
    var r := TrimEnd(t);
    assert r == t[..|r|] == s[i..i + |r|];
  }

  /** A string with no upper-case letter. */
  predicate NoUpper(s: string) {
    forall i | 0 <= i < |s| :: !IsUpper(s[i])
  }

  lemma NoUpperInSuffix(s: string, k: nat)
    requires NoUpper(s) && k <= |s|
    ensures NoUpper(s[k..])
  {
    forall i | 0 <= i < |s| - k ensures !IsUpper(s[k..][i]) {
      assert s[k..][i] == s[k + i];
    }
  }

  lemma NoUpperInPrefix(s: string, k: nat)
    requires NoUpper(s) && k <= |s|
    ensures NoUpper(s[..k])
  {
    forall i | 0 <= i < k ensures !IsUpper(s[..k][i]) {
      assert s[..k][i] == s[i];
    }
  }

  /** Trimming a string with no upper-case letter gives a normal key. */
  lemma {:induction false} TrimOfLowered(l: string)
    requires NoUpper(l)
    ensures IsNormal(Trim(l))
  {
    var t := TrimStart(l);
    NoUpperInSuffix(l, |l| - |t|);
    var r := TrimEnd(t);
    NoUpperInPrefix(t, |r|);
    assert Trim(l) == r;
    if r != [] {
      assert r[0] == t[0];
    }
  }

  /** Every key produced by `Normalize` is normal. */
  lemma {:induction false} NormalizeIsNormal(email: string)
    ensures IsNormal(Normalize(email))
  {
    TrimOfLowered(ToLower(email));
  }

  /** A normal key is its own normal form; normalising twice is normalising once. */
  lemma {:induction false} NormalizeNormal(key: string)
    requires IsNormal(key)
    ensures Normalize(key) == key
  {
    LowerFixesLowered(key);
    assert TrimStart(key) == key;
    assert TrimEnd(key) == key;
  }

  lemma NormalizeIdempotent(email: string)
    ensures Normalize(Normalize(email)) == Normalize(email)
    ensures ToLower(Normalize(email)) == Normalize(email)
  {
    NormalizeIsNormal(email);
    NormalizeNormal(Normalize(email));
    LowerFixesLowered(Normalize(email));
  }

  /** The key ignores case: an upper-cased email maps to the same key. */
  lemma NormalizeIgnoresCase(email: string)
    ensures Normalize(ToUpper(email)) == Normalize(email)
  {
    assert ToLower(ToUpper(email)) == ToLower(email) by {
      forall i | 0 <= i < |email| ensures ToLower(ToUpper(email))[i] == ToLower(email)[i] {
        assert LowerChar(UpperChar(email[i])) == LowerChar(email[i]);
      }
    }
  }

  /** The key ignores surrounding whitespace. */
  lemma NormalizeIgnoresPadding(email: string)
    ensures Normalize(" " + email + " ") == Normalize(email)
  {
    var l := ToLower(email);
    assert ToLower(" " + email + " ") == " " + l + " ";
    assert (" " + l + " ")[1..] == l + " ";
    TrimStartOfPadded(l);
    TrimEndOfPadded(l);
  }

  lemma TrimStartOfPadded(s: string)
    ensures TrimStart(" " + s + " ") == TrimStart(s + " ")
  {
    assert (" " + s + " ")[1..] == s + " ";
  }

  lemma {:induction false} TrimEndOfPadded(s: string)
    ensures TrimEnd(TrimStart(s + " ")) == TrimEnd(TrimStart(s))
  {
    if |s| > 0 && IsSpace(s[0]) {
      assert (s + " ")[1..] == s[1..] + " ";
      TrimEndOfPadded(s[1..]);
    } else if |s| > 0 {
      assert TrimStart(s + " ") == s + " ";
      assert (s + " ")[..|s|] == s;
    }
  }
}
