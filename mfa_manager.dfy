// One-time MFA codes over the mfa_codes table (security/MFAManager.java). The
// table is a sequence of rows in insertion order, their code ids ascending as
// the auto-increment column hands them out. The random draw, the current time
// (the application's clock and the database's NOW() alike), the outcome of
// opening a connection and an SQL exception once it is open are parameters.
// Each method's statements leave the table as it was when one of them throws,
// so the exception's message is all that matters of it. Console output and
// audit entries are not modelled.
module MfaManager {
  import opened Wrappers
  import opened JavaStrings
  import opened ResultModel
  import opened Patterns

  const CodeLength: int := 6
  const ExpirySeconds: int := 5 * 60
  const CodeBase: int := 100000
  const CodeRange: int := 900000

  datatype CodeRow = CodeRow(codeId: int, userId: int, code: string, expiry: int, used: bool)

  type Codes = seq<CodeRow>

  /** The primary key: code ids strictly ascending in insertion order. */
  ghost predicate IdsAscending(codes: Codes)
  {
    forall i, j :: 0 <= i < j < |codes| ==> codes[i].codeId < codes[j].codeId
  }

  function ConnectionFailed(connection: Result<(), string>): string
    requires connection.Err?
  {
    "Database connection failed: " + connection.error
  }

  function GenerateFailed(message: string): string { "Failed to generate MFA code: " + message }

  function ValidateFailed(message: string): string { "Failed to validate MFA code: " + message }

  function CleanupFailed(message: string): string { "Failed to cleanup MFA codes: " + message }

  /**
   * `generateMFACode`: both ids are required; the code is 100000 plus the draw
   * in [0, 900000), rendered in decimal, and stored unused under `codeId`,
   * expiring five minutes from now. An INSERT that throws stores nothing.
   */
  function Generate(codes: Codes, codeId: int, userId: Option<int>, username: Option<string>, draw: int,
                    connection: Result<(), string>, sqlError: Option<string>, now: int): (Result<string, string>, Codes)
    requires 0 <= draw < CodeRange
  {
    if userId.None? || username.None? then (Err("User ID and username are required"), codes)
    else
      var code := IntToString(CodeBase + draw);
      if connection.Err? then (Err(ConnectionFailed(connection)), codes)
      else if sqlError.Some? then (Err(GenerateFailed(sqlError.value)), codes)
      else (Ok(code), codes + [CodeRow(codeId, userId.value, code, now + ExpirySeconds, false)])
  }

  /** The query's condition: this user, this code, expiry after now, not used. */
  predicate Matches(row: CodeRow, userId: int, code: string, now: int)
  {
    row.userId == userId && row.code == code && row.expiry > now && !row.used
  }

  /** The row the query returns first, by position in the table. */
  function FirstMatch(codes: Codes, userId: int, code: string, now: int): (r: Option<nat>)
    ensures r.Some? ==> r.value < |codes| && Matches(codes[r.value], userId, code, now)
    ensures r.None? <==> forall i :: 0 <= i < |codes| ==> !Matches(codes[i], userId, code, now)
  {
    if codes == [] then None
    else if Matches(codes[0], userId, code, now) then Some(0)
    else
      match FirstMatch(codes[1..], userId, code, now)
      case Some(i) => Some(i + 1)
      case None =>
        assert forall i :: 1 <= i < |codes| ==> codes[i] == codes[1..][i - 1];
        None
  }

  /** `UPDATE mfa_codes SET used = TRUE WHERE code_id = ?`. */
  function MarkUsed(codes: Codes, codeId: int): (r: Codes)
    ensures |r| == |codes|
    ensures forall i :: 0 <= i < |codes| ==>
      r[i] == if codes[i].codeId == codeId then codes[i].(used := true) else codes[i]
  {
    seq(|codes|, i requires 0 <= i < |codes| =>
      if codes[i].codeId == codeId then codes[i].(used := true) else codes[i])
  }

  /**
   * `validateMFACode`: a null id or code, or a code that is not six digits,
   * is an error before any lookup; a matching row makes the answer true and is
   * marked used; no matching row answers false. A query or an update that
   * throws leaves the row unused.
   */
  function Validate(codes: Codes, userId: Option<int>, code: Option<string>, connection: Result<(), string>,
                    sqlError: Option<string>, now: int)
    : (Result<bool, string>, Codes)
  {
    if userId.None? || code.None? then (Err("User ID and code are required"), codes)
    else if JavaLength(code.value) != CodeLength || !IsSixDigits(code.value) then (Err("Invalid MFA code format"), codes)
    else if connection.Err? then (Err(ConnectionFailed(connection)), codes)
    else if sqlError.Some? then (Err(ValidateFailed(sqlError.value)), codes)
    else
      match FirstMatch(codes, userId.value, code.value, now)
      case Some(i) => (Ok(true), MarkUsed(codes, codes[i].codeId))
      case None => (Ok(false), codes)
  }

  predicate Expired(row: CodeRow, now: int) { row.expiry < now }

  /** The rows that `DELETE ... WHERE expiry_time < NOW()` leaves, in order. */
  function Unexpired(codes: Codes, now: int): (r: Codes)
    ensures |r| <= |codes|
    ensures forall x :: x in r ==> x in codes && !Expired(x, now)
    ensures forall x :: x in codes && !Expired(x, now) ==> x in r
  {
    if codes == [] then []
    else
      var init := codes[..|codes| - 1];
      var last := codes[|codes| - 1];
      assert codes == init + [last];
      if Expired(last, now) then Unexpired(init, now) else Unexpired(init, now) + [last]
  }

  /** `cleanupExpiredCodes`: the expired rows go and their number is the answer. */
  function Cleanup(codes: Codes, connection: Result<(), string>, sqlError: Option<string>, now: int)
    : (Result<int, string>, Codes)
  {
    if connection.Err? then (Err(ConnectionFailed(connection)), codes)
    else if sqlError.Some? then (Err(CleanupFailed(sqlError.value)), codes)
    else
      var kept := Unexpired(codes, now);
      (Ok(|codes| - |kept|), kept)
  }

  /** The rows that would let this user in with this code at `now`. */
  ghost function LiveRows(codes: Codes, userId: int, code: string, now: int): set<nat>
  {
    set i: nat | i < |codes| && Matches(codes[i], userId, code, now)
  }

  // ---------------------------------------------------------------------------
  // Properties

  /** A ten-bit-free digit is a single UTF-16 unit, so six digits have Java length 6. */
  lemma SixDigitsJavaLength(s: string)
    requires IsSixDigits(s)
    ensures JavaLength(s) == CodeLength
  {
    assert forall i :: 0 <= i < |s| ==> s[i] as int < 0x10000 by {
      forall i | 0 <= i < |s| ensures s[i] as int < 0x10000 {
        assert IsDigit(s[i]);
      }
    }
  }

  /** Every code drawn is six decimal digits with the value 100000 + draw. */
  lemma GeneratedCodeIsSixDigits(draw: int)
    requires 0 <= draw < CodeRange
    ensures IsSixDigits(IntToString(CodeBase + draw))
    ensures DigitsValue(IntToString(CodeBase + draw)) == CodeBase + draw
  {
    assert Pow10(5) == 100000 by {
      assert Pow10(1) == 10 && Pow10(2) == 100 && Pow10(3) == 1000 && Pow10(4) == 10000;
    }
    assert Pow10(6) == 1000000;
    NatToStringLength(CodeBase + draw, 5);
  }

  /** Generation stores exactly one new unused row expiring in five minutes, or changes nothing. */
  lemma GenerateAppendsOneRow(codes: Codes, codeId: int, userId: Option<int>, username: Option<string>, draw: int,
                              connection: Result<(), string>, sqlError: Option<string>, now: int)
    requires 0 <= draw < CodeRange
    ensures var (r, after) := Generate(codes, codeId, userId, username, draw, connection, sqlError, now);
      (r.Ok? <==> userId.Some? && username.Some? && connection.Ok? && sqlError.None?)
      && (r.Ok? ==> IsSixDigits(r.value) && CodeBase <= DigitsValue(r.value) < CodeBase + CodeRange
                    && after == codes + [CodeRow(codeId, userId.value, r.value, now + ExpirySeconds, false)])
      && (r.Err? ==> after == codes)
  {
    GeneratedCodeIsSixDigits(draw);
  }

  /** Round trip: a code just generated lets its user in at any time before it expires. */
  lemma GeneratedCodeValidates(codes: Codes, codeId: int, userId: int, username: string, draw: int, now: int, t: int)
    requires 0 <= draw < CodeRange
    requires t < now + ExpirySeconds
    ensures var (g, after) := Generate(codes, codeId, Some(userId), Some(username), draw, Ok(()), None, now);
      g.Ok? && Validate(after, Some(userId), Some(g.value), Ok(()), None, t).0 == Ok(true)
  {
    GeneratedCodeIsSixDigits(draw);
    var (g, after) := Generate(codes, codeId, Some(userId), Some(username), draw, Ok(()), None, now);
    SixDigitsJavaLength(g.value);
    assert Matches(after[|codes|], userId, g.value, t);
  }

  /** A null argument or a malformed code is refused before the table is consulted, and nothing changes. */
  lemma MalformedCodeRefusedFirst(codes: Codes, userId: Option<int>, code: Option<string>,
                                  connection: Result<(), string>, sqlError: Option<string>, now: int)
    requires userId.None? || code.None? || !IsSixDigits(code.value)
    ensures var (r, after) := Validate(codes, userId, code, connection, sqlError, now);
      after == codes
      && r == Err(if userId.None? || code.None? then "User ID and code are required" else "Invalid MFA code format")
  {
  }

  /**
   * For a well-formed request the answer is true exactly when the database
   * answers and some unused, unexpired row of that user holds the code, and
   * false exactly when it answers and none does, with the table then
   * unchanged; otherwise it is the connection's or the exception's error.
   */
  lemma ValidateSucceedsIff(codes: Codes, userId: int, code: string, connection: Result<(), string>,
                            sqlError: Option<string>, now: int)
    requires IsSixDigits(code)
    ensures var (r, after) := Validate(codes, Some(userId), Some(code), connection, sqlError, now);
      var answers := connection.Ok? && sqlError.None?;
      (r == Ok(true) <==> answers && exists i :: 0 <= i < |codes| && Matches(codes[i], userId, code, now))
      && (r == Ok(false) <==> answers && forall i :: 0 <= i < |codes| ==> !Matches(codes[i], userId, code, now))
      && (r.Err? <==> !answers)
      && (r.Err? ==> after == codes
                     && r.error == if connection.Err? then ConnectionFailed(connection) else ValidateFailed(sqlError.value))
      && (r == Ok(false) ==> after == codes)
  {
    SixDigitsJavaLength(code);
  }

  /**
   * A success uses up the row it found: at any time, the rows that would let
   * the user in afterwards are the ones before, less that row.
   */
  lemma SuccessUsesUpTheRow(codes: Codes, userId: int, code: string, now: int, t: int)
    requires IdsAscending(codes) && IsSixDigits(code)
    requires Validate(codes, Some(userId), Some(code), Ok(()), None, now).0 == Ok(true)
    ensures var after := Validate(codes, Some(userId), Some(code), Ok(()), None, now).1;
      var i := FirstMatch(codes, userId, code, now).value;
      LiveRows(after, userId, code, t) == LiveRows(codes, userId, code, t) - {i}
  {
    SixDigitsJavaLength(code);
    var i := FirstMatch(codes, userId, code, now).value;
    var after := MarkUsed(codes, codes[i].codeId);
    forall j | 0 <= j < |codes| && j != i
      ensures after[j] == codes[j]
    {
      assert codes[j].codeId != codes[i].codeId;
    }
  }

  /** So a code held by one live row succeeds once: the same code is refused at any later time. */
  lemma CodeIsSingleUse(codes: Codes, userId: int, code: string, now: int, later: int)
    requires IdsAscending(codes) && IsSixDigits(code)
    requires |LiveRows(codes, userId, code, now)| == 1
    requires now <= later
    ensures var (r, after) := Validate(codes, Some(userId), Some(code), Ok(()), None, now);
      r == Ok(true) && Validate(after, Some(userId), Some(code), Ok(()), None, later).0 == Ok(false)
  {
    SixDigitsJavaLength(code);
    var live := LiveRows(codes, userId, code, now);
    var k :| k in live;
    var (r, after) := Validate(codes, Some(userId), Some(code), Ok(()), None, now);
    assert Matches(codes[k], userId, code, now);
    SuccessUsesUpTheRow(codes, userId, code, now, now);
    var i := FirstMatch(codes, userId, code, now).value;
    assert i in live;
    assert |live - {i}| == 0;
    forall j | 0 <= j < |after|
      ensures !Matches(after[j], userId, code, later)
    {
      assert j !in LiveRows(after, userId, code, now);
    }
  }

  /** Cleanup removes exactly the expired rows and answers how many. */
  lemma CleanupRemovesExactlyExpired(codes: Codes, now: int)
    ensures var (r, after) := Cleanup(codes, Ok(()), None, now);
      r == Ok(|codes| - |after|)
      && (forall x :: x in after <==> x in codes && !Expired(x, now))
  {
  }

  /** An SQL exception in cleanup deletes nothing and answers with its message. */
  lemma FailedCleanupKeepsCodes(codes: Codes, message: string, now: int)
    ensures Cleanup(codes, Ok(()), Some(message), now) == (Err(CleanupFailed(message)), codes)
  {
  }

  /** Cleanup never changes the outcome of a later validation: a usable row is never expired. */
  lemma CleanupKeepsValidation(codes: Codes, userId: int, code: string, now: int, t: int)
    requires IsSixDigits(code) && now <= t
    ensures Validate(Cleanup(codes, Ok(()), None, now).1, Some(userId), Some(code), Ok(()), None, t).0
         == Validate(codes, Some(userId), Some(code), Ok(()), None, t).0
  {
    SixDigitsJavaLength(code);
    var kept := Unexpired(codes, now);
    if i :| 0 <= i < |codes| && Matches(codes[i], userId, code, t) {
      assert codes[i] in kept;
      var j :| 0 <= j < |kept| && kept[j] == codes[i];
      assert Matches(kept[j], userId, code, t);
    }
    if j :| 0 <= j < |kept| && Matches(kept[j], userId, code, t) {
      assert kept[j] in codes;
      var i :| 0 <= i < |codes| && codes[i] == kept[j];
      assert Matches(codes[i], userId, code, t);
    }
  }

  /** A row expiring exactly now is neither accepted nor deleted: the two comparisons are both strict. */
  lemma ExpiringNowIsNeitherUsableNorDeleted(row: CodeRow, now: int)
    requires row.expiry == now
    ensures !Matches(row, row.userId, row.code, now)
    ensures Cleanup([row], Ok(()), None, now) == (Ok(0), [row])
  {
    assert [row][..0] == [];
    assert Unexpired([row], now) == Unexpired([], now) + [row];
    assert Unexpired([], now) == [];
    assert Cleanup([row], Ok(()), None, now).1 == [row];
    assert Cleanup([row], Ok(()), None, now).0 == Ok(0);
  }

  /** Deleting rows keeps the primary-key order and bound. */
  lemma UnexpiredKeepsIds(codes: Codes, now: int, bound: int)
    requires IdsAscending(codes) && forall i :: 0 <= i < |codes| ==> codes[i].codeId < bound
    ensures var kept := Unexpired(codes, now);
      IdsAscending(kept) && forall i :: 0 <= i < |kept| ==> kept[i].codeId < bound
  {
    UnexpiredAscending(codes, now);
    UnexpiredBound(codes, now, bound);
  }

  lemma UnexpiredBound(codes: Codes, now: int, bound: int)
    requires forall i :: 0 <= i < |codes| ==> codes[i].codeId < bound
    ensures forall i :: 0 <= i < |Unexpired(codes, now)| ==> Unexpired(codes, now)[i].codeId < bound
  {
    var kept := Unexpired(codes, now);
    forall i | 0 <= i < |kept|
      ensures kept[i].codeId < bound
    {
      assert kept[i] in codes;
    }
  }

  lemma {:induction false} UnexpiredAscending(codes: Codes, now: int)
    requires IdsAscending(codes)
    ensures IdsAscending(Unexpired(codes, now))
    decreases |codes|
  {
    if codes != [] {
      var init := codes[..|codes| - 1];
      var last := codes[|codes| - 1];
      assert forall i :: 0 <= i < |init| ==> init[i] == codes[i];
      UnexpiredAscending(init, now);
      if !Expired(last, now) {
        UnexpiredBound(init, now, last.codeId);
        AppendAscending(Unexpired(init, now), last);
      }
    }
  }

  lemma AppendAscending(kept: Codes, last: CodeRow)
    requires IdsAscending(kept) && forall i :: 0 <= i < |kept| ==> kept[i].codeId < last.codeId
    ensures IdsAscending(kept + [last])
  {
  }

  /**
   * The mfa_codes table, as an object. `nextCodeId` is the auto-increment
   * counter; `Valid` is the primary-key invariant.
   */
  class MfaManager {
    var codes: Codes
    var nextCodeId: int

    ghost predicate Valid()
      reads this
    {
      IdsAscending(codes) && forall i :: 0 <= i < |codes| ==> codes[i].codeId < nextCodeId
    }

    constructor()
      ensures codes == [] && Valid()
    {
      codes := [];
      nextCodeId := 1;
    }

    /** `draw` stands for `random.nextInt(900000)`. */
    method GenerateMfaCode(userId: Option<int>, username: Option<string>, draw: int,
                           connection: Result<(), string>, sqlError: Option<string>, now: int)
      returns (r: Result<string, string>)
      requires Valid()
      requires 0 <= draw < CodeRange
      modifies this
      ensures Valid()
      ensures (r, codes) == Generate(old(codes), old(nextCodeId), userId, username, draw, connection, sqlError, now)
    {
      if userId.None? || username.None? {
        return Err("User ID and username are required");
      }
      var code := CodeBase + draw;
      var mfaCode := IntToString(code);
      if connection.Err? {
        return Err("Database connection failed: " + connection.error);
      }
      if sqlError.Some? {
        return Err(GenerateFailed(sqlError.value));
      }
      var expiryTime := now + ExpirySeconds;
      codes := codes + [CodeRow(nextCodeId, userId.value, mfaCode, expiryTime, false)];
      nextCodeId := nextCodeId + 1;
      return Ok(mfaCode);
    }

    method ValidateMfaCode(userId: Option<int>, code: Option<string>, connection: Result<(), string>,
                           sqlError: Option<string>, now: int)
      returns (r: Result<bool, string>)
      requires Valid()
      modifies this
      ensures Valid()
      ensures (r, codes) == Validate(old(codes), userId, code, connection, sqlError, now)
    {
      if userId.None? || code.None? {
        return Err("User ID and code are required");
      }
      if JavaLength(code.value) != CodeLength || !IsSixDigits(code.value) {
        return Err("Invalid MFA code format");
      }
      if connection.Err? {
        return Err("Database connection failed: " + connection.error);
      }
      if sqlError.Some? {
        return Err(ValidateFailed(sqlError.value));
      }
      var found := FirstMatch(codes, userId.value, code.value, now);
      if found.Some? {
        codes := MarkUsed(codes, codes[found.value].codeId);
        return Ok(true);
      }
      return Ok(false);
    }

    method CleanupExpiredCodes(connection: Result<(), string>, sqlError: Option<string>, now: int)
      returns (r: Result<int, string>)
      requires Valid()
      modifies this
      ensures Valid()
      ensures (r, codes) == Cleanup(old(codes), connection, sqlError, now)
    {
      if connection.Err? {
        return Err("Database connection failed: " + connection.error);
      }
      if sqlError.Some? {
        return Err(CleanupFailed(sqlError.value));
      }
      var kept := Unexpired(codes, now);
      UnexpiredKeepsIds(codes, now, nextCodeId);
      var deleted := |codes| - |kept|;
      codes := kept;
      return Ok(deleted);
    }
  }
}
