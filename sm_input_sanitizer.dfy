// SecurityManager.InputSanitizer (security/SecurityManager.java): the older,
// shorter sanitiser (no script-block or NUL step) and three format validators
// with their own messages.
module SmInputSanitizer {
  import opened Wrappers
  import opened JavaStrings
  import opened ResultModel
  import opened Patterns
  import InputSanitizer

  /**
   * `sanitizeString`: quotes, backslash and ';' go first, then tags, then
   * shell metacharacters, then the text is trimmed.
   */
  function SanitizeString(input: Option<string>): (r: Result<string, string>)
    ensures input.None? <==> r.Err?
    ensures r.Err? ==> r.error == "Input cannot be null"
    ensures r.Ok? ==> |r.value| <= |input.value|
  {
    match input
    case None => Err("Input cannot be null")
    case Some(s) =>
      var unquoted := RemoveWhere(s, InputSanitizer.IsQuoteChar);
      var noTags := RemoveTags(unquoted);
      var noCommands := RemoveWhere(noTags, InputSanitizer.IsCommandChar);
      Ok(Trim(noCommands))
  }

  /** The output holds none of ' " \ ; & | ` $ ( ), only input characters, and no blank ends. */
  lemma SanitizedIsSafe(s: string)
    ensures var r := SanitizeString(Some(s)).value;
      (forall i :: 0 <= i < |r| ==> !InputSanitizer.IsQuoteChar(r[i]) && !InputSanitizer.IsCommandChar(r[i]))
      && (forall c :: c in r ==> c in s)
      && (r == [] || (!IsTrimSpace(r[0]) && !IsTrimSpace(r[|r| - 1])))
  {
    var unquoted := RemoveWhere(s, InputSanitizer.IsQuoteChar);
    var noTags := RemoveTags(unquoted);
    var noCommands := RemoveWhere(noTags, InputSanitizer.IsCommandChar);
    RemoveTagsOnlyDeletes(unquoted);
    TrimOnlyDeletes(noCommands);
    var r := Trim(noCommands);
    forall i | 0 <= i < |r| ensures !InputSanitizer.IsQuoteChar(r[i]) && !InputSanitizer.IsCommandChar(r[i]) {
      assert r[i] in noCommands;
      assert r[i] in noTags;
    }
  }

  function ValidateEmail(email: Option<string>): (r: Result<bool, string>)
    ensures r.Ok? <==> email.Some? && IsEmail(email.value)
    ensures email.Some? && !TrimsToEmpty(email.value) && !IsEmail(email.value) ==> r == Err("Invalid email format")
  {
    InputSanitizer.EmailNotBlank(email.GetOr([]));
    InputSanitizer.ValidateFormat(email, IsEmail, "Email cannot be empty", "Invalid email format")
  }

  function ValidatePhone(phone: Option<string>): (r: Result<bool, string>)
    ensures r.Ok? <==> phone.Some? && IsPhone(phone.value)
    ensures phone.Some? && !TrimsToEmpty(phone.value) && !IsPhone(phone.value) ==> r == Err("Invalid phone format")
  {
    InputSanitizer.PhoneNotBlank(phone.GetOr([]));
    InputSanitizer.ValidateFormat(phone, IsPhone, "Phone cannot be empty", "Invalid phone format")
  }

  function ValidateUsername(username: Option<string>): (r: Result<bool, string>)
    ensures r.Ok? <==> username.Some? && IsUsername(username.value)
    ensures username.Some? && !TrimsToEmpty(username.value) && !IsUsername(username.value) ==>
              r == Err("Username must be 3-20 alphanumeric/_")
  {
    InputSanitizer.UsernameNotBlank(username.GetOr([]));
    InputSanitizer.ValidateFormat(username, IsUsername, "Username cannot be empty", "Username must be 3-20 alphanumeric/_")
  }

  /** This sanitiser keeps NUL characters, which the standalone one removes. */
  lemma {:induction false} KeepsNul(a: string, b: string)
    requires a != [] && b != []
    requires forall i :: 0 <= i < |a| ==> 'a' <= a[i] <= 'z'
    requires forall i :: 0 <= i < |b| ==> 'a' <= b[i] <= 'z'
    ensures 0 as char in SanitizeString(Some(a + [0 as char] + b)).value
  {
    var s := a + [0 as char] + b;
    assert forall i :: 0 <= i < |s| ==> s[i] == 0 as char || 'a' <= s[i] <= 'z' by {
      forall i | 0 <= i < |s| ensures s[i] == 0 as char || 'a' <= s[i] <= 'z' {
        if i < |a| { assert s[i] == a[i]; }
        else if i > |a| { assert s[i] == b[i - |a| - 1]; }
      }
    }
    assert s[0] == a[0] && s[|s| - 1] == b[|b| - 1];
    LowercaseAndNulSurvive(s);
    assert s[|a|] == 0 as char;
  }

  /** Text of lower-case letters and NULs that starts and ends with a letter passes through unchanged. */
  lemma LowercaseAndNulSurvive(s: string)
    requires s != [] && 'a' <= s[0] <= 'z' && 'a' <= s[|s| - 1] <= 'z'
    requires forall i :: 0 <= i < |s| ==> s[i] == 0 as char || 'a' <= s[i] <= 'z'
    ensures SanitizeString(Some(s)) == Ok(s)
  {
    RemoveWhereKeepsAll(s, InputSanitizer.IsQuoteChar);
    RemoveTagsIdentity(s);
    RemoveWhereKeepsAll(s, InputSanitizer.IsCommandChar);
    TrimKeeps(s);
  }

  /** A word of lower-case letters and underscores that starts and ends with a letter. */
  predicate PlainWord(s: string)
  {
    s != [] && 'a' <= s[0] <= 'z' && 'a' <= s[|s| - 1] <= 'z'
    && forall i :: 0 <= i < |s| ==> s[i] == '_' || 'a' <= s[i] <= 'z'
  }

  /** A plain word is its own sanitised form. */
  lemma PlainWordSanitized(s: string)
    requires PlainWord(s)
    ensures SanitizeString(Some(s)) == Ok(s)
  {
    RemoveWhereKeepsAll(s, InputSanitizer.IsQuoteChar);
    RemoveTagsIdentity(s);
    RemoveWhereKeepsAll(s, InputSanitizer.IsCommandChar);
    TrimKeeps(s);
  }

  lemma {:induction false} RemoveWhereKeepsAll(s: string, drop: char -> bool)
    requires forall i :: 0 <= i < |s| ==> !drop(s[i])
    ensures RemoveWhere(s, drop) == s
    decreases |s|
  {
    if s != [] {
      RemoveWhereKeepsAll(s[1..], drop);
    }
  }

  lemma {:induction false} RemoveTagsIdentity(s: string)
    requires '<' !in s
    ensures RemoveTags(s) == s
    decreases |s|
  {
    if s != [] {
      RemoveTagsIdentity(s[1..]);
    }
  }
}
