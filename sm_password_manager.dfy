// SecurityManager.PasswordManager.validatePasswordStrength
// (security/SecurityManager.java). The last rule's pattern leaves a '[' inside
// its character class unescaped; Java reads that as a nested class, so the
// outer class is never closed and compiling the pattern throws. The as-written
// check is modelled with that exception, beside the corrected check with the
// evidently intended character set.
module SmPasswordManager {
  import opened Wrappers
  import opened JavaStrings
  import opened ResultModel
  import opened Patterns

  const LengthMessage := "Password must be at least 8 chars"
  const UpperMessage := "Must contain uppercase"
  const LowerMessage := "Must contain lowercase"
  const DigitMessage := "Must contain digit"
  const SpecialMessage := "Must contain special char"

  /** What `String.matches` throws for the unclosed character class. */
  const UnclosedClass := "PatternSyntaxException: Unclosed character class"

  /** The intended special characters: the listed punctuation, backslash excluded. */
  predicate IsIntendedSpecial(c: char) { c in "!@#$%^&*()_+-=[]{};':\"|,.<>/?" }

  /** The four rules that run before the special-character rule. */
  predicate PassesFirstFourRules(p: string)
  {
    JavaLength(p) >= 8 && MatchesSomewhere(p, IsUpper) && MatchesSomewhere(p, IsLower) && MatchesSomewhere(p, IsDigit)
  }

  /** As written: the fifth check compiles a malformed pattern and throws. */
  function ValidatePasswordStrengthAsWritten(password: Option<string>): (r: Outcome<Result<bool, string>>)
    ensures r.Threw? <==> password.Some? && PassesFirstFourRules(password.value)
    ensures r.Returned? ==> r.value.Err?
  {
    match password
    case None => Returned(Err("Password cannot be null"))
    case Some(p) =>
      if JavaLength(p) < 8 then Returned(Err(LengthMessage))
      else if !MatchesSomewhere(p, IsUpper) then Returned(Err(UpperMessage))
      else if !MatchesSomewhere(p, IsLower) then Returned(Err(LowerMessage))
      else if !MatchesSomewhere(p, IsDigit) then Returned(Err(DigitMessage))
      else Threw(UnclosedClass)
  }

  /** As written, no password is ever accepted: the strongest ones make the check throw. */
  lemma AsWrittenAcceptsNothing(password: Option<string>)
    ensures ValidatePasswordStrengthAsWritten(password) != Returned(Ok(true))
  {
  }

  /**
   * A password of eight or more BMP characters with an upper-case letter, a
   * lower-case letter and a digit and no line terminator (such as
   * "Abcdefg1!") makes the as-written check throw.
   */
  lemma AsWrittenThrowsOnStrongPassword(p: string, i: nat, j: nat, k: nat)
    requires |p| >= 8 && forall n :: 0 <= n < |p| ==> p[n] as int < 0x10000 && !IsLineTerminator(p[n])
    requires i < |p| && j < |p| && k < |p| && IsUpper(p[i]) && IsLower(p[j]) && IsDigit(p[k])
    ensures ValidatePasswordStrengthAsWritten(Some(p)).Threw?
  {
  }

  /** Corrected: the fifth rule uses the intended character set. */
  function ValidatePasswordStrength(password: Option<string>): (r: Result<bool, string>)
    ensures r.Ok? ==> r.value
    ensures password.None? ==> r == Err("Password cannot be null")
    ensures r.Ok? <==> password.Some? && PassesFirstFourRules(password.value)
                       && MatchesSomewhere(password.value, IsIntendedSpecial)
  {
    match password
    case None => Err("Password cannot be null")
    case Some(p) =>
      if JavaLength(p) < 8 then Err(LengthMessage)
      else if !MatchesSomewhere(p, IsUpper) then Err(UpperMessage)
      else if !MatchesSomewhere(p, IsLower) then Err(LowerMessage)
      else if !MatchesSomewhere(p, IsDigit) then Err(DigitMessage)
      else if !MatchesSomewhere(p, IsIntendedSpecial) then Err(SpecialMessage)
      else Ok(true)
  }

  /** Every rule the password breaks, in policy order. */
  function BrokenRules(p: string): seq<string>
  {
    (if JavaLength(p) < 8 then [LengthMessage] else [])
    + (if !MatchesSomewhere(p, IsUpper) then [UpperMessage] else [])
    + (if !MatchesSomewhere(p, IsLower) then [LowerMessage] else [])
    + (if !MatchesSomewhere(p, IsDigit) then [DigitMessage] else [])
    + (if !MatchesSomewhere(p, IsIntendedSpecial) then [SpecialMessage] else [])
  }

  /** The corrected check reports the first broken rule, and accepts when none is broken. */
  lemma ReportsFirstBrokenRule(p: string)
    ensures BrokenRules(p) == [] ==> ValidatePasswordStrength(Some(p)) == Ok(true)
    ensures BrokenRules(p) != [] ==> ValidatePasswordStrength(Some(p)) == Err(BrokenRules(p)[0])
  {
  }

  /** Wherever the as-written check returns, the corrected check returns the same. */
  lemma CorrectionAgreesWhereAsWrittenReturns(password: Option<string>)
    ensures ValidatePasswordStrengthAsWritten(password).Returned? ==>
              ValidatePasswordStrengthAsWritten(password).value == ValidatePasswordStrength(password)
  {
  }

  /** The corrected check accepts such a password once it also holds an intended special character. */
  lemma CorrectedAcceptsStrongPassword(p: string, i: nat, j: nat, k: nat, m: nat)
    requires |p| >= 8 && forall n :: 0 <= n < |p| ==> p[n] as int < 0x10000 && !IsLineTerminator(p[n])
    requires i < |p| && j < |p| && k < |p| && m < |p|
    requires IsUpper(p[i]) && IsLower(p[j]) && IsDigit(p[k]) && IsIntendedSpecial(p[m])
    ensures ValidatePasswordStrength(Some(p)) == Ok(true)
    ensures ValidatePasswordStrengthAsWritten(Some(p)).Threw?
  {
  }
}
