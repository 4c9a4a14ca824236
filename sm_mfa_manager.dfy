// SecurityManager.MFAManager (security/SecurityManager.java): one-time
// six-digit codes held in memory per user id, valid for five minutes and
// usable once. The random draw is a parameter; the audit entries and the
// console message are not modelled.
module SmMfaManager {
  import opened Wrappers
  import opened JavaStrings
  import opened ResultModel

  const ExpirySeconds: int := 5 * 60

  datatype MfaInfo = MfaInfo(code: string, expires: int, used: bool)

  type Codes = map<int, MfaInfo>

  /** `String.valueOf(100000 + draw)` for a draw of `nextInt(900000)`. */
  function CodeFor(draw: int): (code: string)
    requires 0 <= draw < 900000
    ensures |code| == 6 && All(code, IsDigit)
    ensures 100000 <= DigitsValue(code) <= 999999
  {
    NatToStringLength(100000 + draw, 5);
    NatToString(100000 + draw)
  }

  /** `generateMFACode`: the new code replaces whatever the user had before. */
  function Generate(codes: Codes, userId: Option<int>, username: Option<string>, draw: int, now: int)
    : (Result<string, string>, Codes)
    requires 0 <= draw < 900000
  {
    if userId.None? || username.None? then (Err("UserId and username required"), codes)
    else
      var code := CodeFor(draw);
      (Ok(code), codes[userId.value := MfaInfo(code, now + ExpirySeconds, false)])
  }

  /** The stored code accepts `code` at `now`: unused, not past its expiry, and equal. */
  predicate Accepts(info: MfaInfo, code: string, now: int)
  {
    !info.used && now <= info.expires && info.code == code
  }

  /** `validateMFACode`: a matching, unused, unexpired code succeeds once and is then marked used. */
  function Validate(codes: Codes, userId: Option<int>, code: Option<string>, now: int)
    : (Result<bool, string>, Codes)
  {
    if userId.None? || code.None? then (Err("UserId and code required"), codes)
    else if userId.value !in codes then (Ok(false), codes)
    else
      var info := codes[userId.value];
      if info.used || now > info.expires || info.code != code.value then (Ok(false), codes)
      else (Ok(true), codes[userId.value := info.(used := true)])
  }

  // ---------------------------------------------------------------------------
  // Properties

  /** Generated codes are six decimal digits between 100000 and 999999, stored unused for five minutes. */
  lemma GeneratedCodeIsStored(codes: Codes, userId: int, username: string, draw: int, now: int)
    requires 0 <= draw < 900000
    ensures var (r, c) := Generate(codes, Some(userId), Some(username), draw, now);
      r.Ok? && |r.value| == 6 && 100000 <= DigitsValue(r.value) <= 999999
      && userId in c && c[userId] == MfaInfo(r.value, now + ExpirySeconds, false)
      && (forall u :: u != userId ==> (u in c <==> u in codes) && (u in c ==> c[u] == codes[u]))
  {
  }

  /** Validation succeeds exactly when a stored code accepts the offered one. */
  lemma ValidateSucceedsIffAccepted(codes: Codes, userId: int, code: string, now: int)
    ensures Validate(codes, Some(userId), Some(code), now).0 == Ok(userId in codes && Accepts(codes[userId], code, now))
  {
  }

  /** A failed or refused validation changes nothing. */
  lemma FailedValidationChangesNothing(codes: Codes, userId: Option<int>, code: Option<string>, now: int)
    requires Validate(codes, userId, code, now).0 != Ok(true)
    ensures Validate(codes, userId, code, now).1 == codes
  {
  }

  /** A code succeeds at most once: after a success the same code is refused at any later time. */
  lemma {:induction false} CodeIsSingleUse(codes: Codes, userId: int, code: string, now: int, later: int)
    requires Validate(codes, Some(userId), Some(code), now).0 == Ok(true)
    ensures var after := Validate(codes, Some(userId), Some(code), now).1;
      Validate(after, Some(userId), Some(code), later).0 == Ok(false)
  {
    var after := Validate(codes, Some(userId), Some(code), now).1;
    assert after[userId].used;
  }

  /** A newer code replaces the older one: the older code no longer validates. */
  lemma {:induction false} NewCodeReplacesOld(codes: Codes, userId: int, username: string, d1: int, d2: int, t1: int, t2: int, now: int)
    requires 0 <= d1 < 900000 && 0 <= d2 < 900000 && d1 != d2
    ensures var (r1, c1) := Generate(codes, Some(userId), Some(username), d1, t1);
      var (r2, c2) := Generate(c1, Some(userId), Some(username), d2, t2);
      Validate(c2, Some(userId), Some(r1.value), now).0 == Ok(false)
  {
    var c1 := CodeFor(d1);
    var c2 := CodeFor(d2);
    assert DigitsValue(c1) != DigitsValue(c2);
  }

  /** The static code table, as an object. */
  class MfaManager {
    var codes: Codes

    constructor()
      ensures codes == map[]
    {
      codes := map[];
    }

    method GenerateMfaCode(userId: Option<int>, username: Option<string>, draw: int, now: int)
      returns (r: Result<string, string>)
      requires 0 <= draw < 900000
      modifies this
      ensures (r, codes) == Generate(old(codes), userId, username, draw, now)
    {
      if userId.None? || username.None? {
        return Err("UserId and username required");
      }
      var code := NatToString(100000 + draw);
      codes := codes[userId.value := MfaInfo(code, now + ExpirySeconds, false)];
      return Ok(code);
    }

    method ValidateMfaCode(userId: Option<int>, code: Option<string>, now: int) returns (r: Result<bool, string>)
      modifies this
      ensures (r, codes) == Validate(old(codes), userId, code, now)
    {
      if userId.None? || code.None? {
        return Err("UserId and code required");
      }
      if userId.value !in codes {
        return Ok(false);
      }
      var info := codes[userId.value];
      if info.used || now > info.expires || info.code != code.value {
        return Ok(false);
      }
      codes := codes[userId.value := info.(used := true)];
      return Ok(true);
    }
  }
}
