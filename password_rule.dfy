/** The password strength rule that the password forms share. */
module PasswordRule {
  const MinLength := 8
  const Specials := "!@#$%^&*"

  /** The four single-character classes the rule tests for. */
  datatype CharClass = Upper | Lower | Digit | Special

  /** `[A-Z]`, `[a-z]`, `\d` and `[!@#$%^&*]`. */
  predicate InClass(ch: char, cls: CharClass)
  {
    match cls
    case Upper => 'A' <= ch <= 'Z'
    case Lower => 'a' <= ch <= 'z'
    case Digit => '0' <= ch <= '9'
    case Special => ch in Specials
  }

  /** `/[cls]/.test(p)`: a left-to-right search for a character of the class. */
  predicate Test(p: string, cls: CharClass)
  {
    p != [] && (InClass(p[0], cls) || Test(p[1..], cls))
  }

  /** The search succeeds exactly when some character of `p` is in the class. */
  lemma {:induction false} TestIff(p: string, cls: CharClass)
    ensures Test(p, cls) <==> exists i :: 0 <= i < |p| && InClass(p[i], cls)
  {
    if p != [] {
      TestIff(p[1..], cls);
      if !InClass(p[0], cls) && exists i :: 0 <= i < |p| && InClass(p[i], cls) {
        var i :| 0 <= i < |p| && InClass(p[i], cls);
        assert p[1..][i - 1] == p[i];
      }
    }
  }

  /** `validatePassword(p)`. */
  predicate ValidatePassword(p: string)
  {
    |p| >= MinLength && Test(p, Upper) && Test(p, Lower) && Test(p, Digit) && Test(p, Special)
  }

  ghost predicate HasCharOf(p: string, cls: CharClass)
  {
    exists i :: 0 <= i < |p| && InClass(p[i], cls)
  }

  /** A password is accepted iff it has at least 8 characters, an upper-case letter, a lower-case letter, a digit and a special character. */
  lemma ValidatePasswordIff(p: string)
    ensures ValidatePassword(p) <==>
      |p| >= 8 && HasCharOf(p, Upper) && HasCharOf(p, Lower) && HasCharOf(p, Digit) && HasCharOf(p, Special)
  {
    TestIff(p, Upper);
    TestIff(p, Lower);
    TestIff(p, Digit);
    TestIff(p, Special);
  }

  /** Length alone never suffices: a password of lower-case letters only is rejected. */
  lemma {:induction false} LowerCaseOnlyRejected(p: string)
    requires forall i :: 0 <= i < |p| ==> 'a' <= p[i] <= 'z'
    ensures !ValidatePassword(p)
  {
    TestIff(p, Upper);
  }
}
