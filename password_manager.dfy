// Password utilities (security/PasswordManager.java): the strength policy,
// the hex rendering of a digest, and the null guards around hashing. SHA-256
// itself is an abstract function of the password and the salt.
module PasswordManager {
  import opened Wrappers
  import opened JavaStrings
  import opened ResultModel
  import opened Patterns

  /** A Java `byte`: signed, eight bits. */
  newtype Byte = x: int | -128 <= x < 128

  // ---------------------------------------------------------------------------
  // validatePasswordStrength

  const LengthMessage := "Password must be at least 8 characters long"
  const UpperMessage := "Password must contain at least one uppercase letter"
  const LowerMessage := "Password must contain at least one lowercase letter"
  const DigitMessage := "Password must contain at least one digit"
  const SpecialMessage := "Password must contain at least one special character"

  /** The escaped special-character class: punctuation including the backslash. */
  predicate IsSpecial(c: char) { c in "!@#$%^&*()_+-=[]{};':\"\\|,.<>/?" }

  /** Each character-class rule is `matches(".*[X].*")`: one such character and no line terminator. */
  predicate HasUpper(p: string) { MatchesSomewhere(p, IsUpper) }
  predicate HasLower(p: string) { MatchesSomewhere(p, IsLower) }
  predicate HasDigit(p: string) { MatchesSomewhere(p, IsDigit) }
  predicate HasSpecial(p: string) { MatchesSomewhere(p, IsSpecial) }

  /** `validatePasswordStrength`: the checks run in order and the first failure is reported. */
  function ValidatePasswordStrength(password: Option<string>): (r: Result<bool, string>)
    ensures r.Ok? ==> r.value
    ensures password.None? ==> r == Err("Password cannot be null")
    ensures r.Ok? <==> password.Some? && JavaLength(password.value) >= 8 && HasUpper(password.value)
                       && HasLower(password.value) && HasDigit(password.value) && HasSpecial(password.value)
  {
    match password
    case None => Err("Password cannot be null")
    case Some(p) =>
      if JavaLength(p) < 8 then Err(LengthMessage)
      else if !HasUpper(p) then Err(UpperMessage)
      else if !HasLower(p) then Err(LowerMessage)
      else if !HasDigit(p) then Err(DigitMessage)
      else if !HasSpecial(p) then Err(SpecialMessage)
      else Ok(true)
  }

  /** Every rule the password breaks, in policy order. */
  function BrokenRules(p: string): seq<string>
  {
    (if JavaLength(p) < 8 then [LengthMessage] else [])
    + (if !HasUpper(p) then [UpperMessage] else [])
    + (if !HasLower(p) then [LowerMessage] else [])
    + (if !HasDigit(p) then [DigitMessage] else [])
    + (if !HasSpecial(p) then [SpecialMessage] else [])
  }

  /** When several rules fail, the one reported is the first broken rule; none broken means Ok. */
  lemma ReportsFirstBrokenRule(p: string)
    ensures BrokenRules(p) == [] ==> ValidatePasswordStrength(Some(p)) == Ok(true)
    ensures BrokenRules(p) != [] ==> ValidatePasswordStrength(Some(p)) == Err(BrokenRules(p)[0])
  {
  }

  /**
   * `.` does not match a line terminator, so a password holding one fails the
   * upper-case rule even when it has an upper-case letter.
   */
  lemma LineTerminatorFailsUpperRule(a: string, b: string)
    requires JavaLength(a + "\n" + b) >= 8
    ensures ValidatePasswordStrength(Some(a + "\n" + b)) == Err(UpperMessage)
  {
    var p := a + "\n" + b;
    assert p[|a|] == '\n';
  }

  // ---------------------------------------------------------------------------
  // bytesToHex

  function HexDigit(n: int): (c: char)
    requires 0 <= n < 16
    ensures IsLowerHex(c)
  {
    if n < 10 then ('0' as int + n) as char else ('a' as int + n - 10) as char
  }

  predicate IsLowerHex(c: char) { ('0' <= c <= '9') || ('a' <= c <= 'f') }

  /** `String.format("%02x", b)`: the byte read as unsigned, two lower-case digits. */
  function ByteToHex(b: Byte): (r: string)
    ensures |r| == 2 && IsLowerHex(r[0]) && IsLowerHex(r[1])
  {
    var u := (b as int + 256) % 256;
    [HexDigit(u / 16), HexDigit(u % 16)]
  }

  /** `bytesToHex`: the concatenation of the bytes' two-digit renderings. */
  function BytesToHex(bytes: seq<Byte>): (r: string)
    ensures |r| == 2 * |bytes|
    ensures All(r, IsLowerHex)
  {
    if bytes == [] then [] else ByteToHex(bytes[0]) + BytesToHex(bytes[1..])
  }

  function HexValue(c: char): (n: int)
    requires IsLowerHex(c)
    ensures 0 <= n < 16
  {
    if c <= '9' then c as int - '0' as int else c as int - 'a' as int + 10
  }

  /** Reads two hex digits back as a signed byte: the partner of `ByteToHex`. */
  function HexToByte(hi: char, lo: char): Byte
    requires IsLowerHex(hi) && IsLowerHex(lo)
  {
    var u := HexValue(hi) * 16 + HexValue(lo);
    (if u >= 128 then u - 256 else u) as Byte
  }

  function HexToBytes(s: string): seq<Byte>
    requires |s| % 2 == 0 && All(s, IsLowerHex)
  {
    if s == [] then [] else [HexToByte(s[0], s[1])] + HexToBytes(s[2..])
  }

  lemma ByteRoundTrip(b: Byte)
    ensures HexToByte(ByteToHex(b)[0], ByteToHex(b)[1]) == b
  {
    var u := (b as int + 256) % 256;
    assert u == if b < 0 then b as int + 256 else b as int;
    var hi, lo := u / 16, u % 16;
    assert u == hi * 16 + lo;
    DigitValue(hi);
    DigitValue(lo);
  }

  /** A digit reads back as the number it renders. */
  lemma DigitValue(n: int)
    requires 0 <= n < 16
    ensures HexValue(HexDigit(n)) == n
  {
  }

  /** The hex text loses nothing: it reads back to the same bytes. */
  lemma {:induction false} BytesToHexRoundTrip(bytes: seq<Byte>)
    ensures HexToBytes(BytesToHex(bytes)) == bytes
  {
    if bytes != [] {
      var r := BytesToHex(bytes);
      ByteRoundTrip(bytes[0]);
      assert r[2..] == BytesToHex(bytes[1..]);
      BytesToHexRoundTrip(bytes[1..]);
    }
  }

  // ---------------------------------------------------------------------------
  // hashPassword and verifyPassword

  /**
   * `hashPassword`: a null password or salt is an error; otherwise the hex of
   * the digest (`sha256` stands for the SHA-256 of the password then the salt).
   */
  function HashPassword(password: Option<string>, salt: Option<string>, sha256: (string, string) -> seq<Byte>)
    : (r: Result<string, string>)
    ensures r.Err? <==> password.None? || salt.None?
    ensures r.Err? ==> r.error == "Password and salt cannot be null"
    ensures r.Ok? ==> |r.value| == 2 * |sha256(password.value, salt.value)| && All(r.value, IsLowerHex)
                      && HexToBytes(r.value) == sha256(password.value, salt.value)
  {
    if password.None? || salt.None? then Err("Password and salt cannot be null")
    else
      BytesToHexRoundTrip(sha256(password.value, salt.value));
      Ok(BytesToHex(sha256(password.value, salt.value)))
  }

  /** `verifyPassword`: the hash error is passed on; a null expected hash never matches. */
  function VerifyPassword(password: Option<string>, salt: Option<string>, expectedHash: Option<string>,
                          sha256: (string, string) -> seq<Byte>): (r: Result<bool, string>)
    ensures r.Err? <==> HashPassword(password, salt, sha256).Err?
    ensures r.Err? ==> r.error == "Password and salt cannot be null"
    ensures r.Ok? ==>
              (r.value <==> (expectedHash.Some? &&
                             EqualsIgnoreCase(HashPassword(password, salt, sha256).value, expectedHash.value)))
  {
    var h := HashPassword(password, salt, sha256);
    if h.Err? then Err(h.error)
    else Ok(expectedHash.Some? && EqualsIgnoreCase(h.value, expectedHash.value))
  }

  /** A stored hash written in upper case still verifies. */
  lemma {:induction false} VerifyIgnoresHashCase(password: string, salt: string, sha256: (string, string) -> seq<Byte>)
    ensures var stored := ToUpper(BytesToHex(sha256(password, salt)));
      VerifyPassword(Some(password), Some(salt), Some(stored), sha256) == Ok(true)
  {
    var h := BytesToHex(sha256(password, salt));
    assert forall i :: 0 <= i < |h| ==> UpperChar(UpperChar(h[i])) == UpperChar(h[i]);
    assert ToUpper(ToUpper(h)) == ToUpper(h);
  }
}
