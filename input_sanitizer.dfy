// Input sanitising and format validation (security/InputSanitizer.java).
// Every operation takes a possibly-null Java string and answers with the
// application's Result: an error message, or the cleaned text / `true`.
module InputSanitizer {
  import opened Wrappers
  import opened JavaStrings
  import opened ResultModel
  import opened Patterns

  // ---------------------------------------------------------------------------
  // sanitizeString

  /** `['"\\;]`: quotes, backslash and semicolon, removed first. */
  predicate IsQuoteChar(c: char) { c == '\'' || c == '"' || c == '\\' || c == ';' }

  /** `[;&|`$()]`: shell metacharacters, removed after the markup. */
  predicate IsCommandChar(c: char) { c == ';' || c == '&' || c == '|' || c == '`' || c == '$' || c == '(' || c == ')' }

  predicate IsNul(c: char) { c == 0 as char }

  /** Every character that can never survive sanitising. */
  predicate IsStripped(c: char) { IsQuoteChar(c) || IsCommandChar(c) || IsNul(c) }

  /**
   * `sanitizeString`: null is an error; otherwise quotes, script blocks, tags,
   * shell metacharacters and NUL characters are removed in that order and
   * the result is trimmed.
   */
  function SanitizeString(input: Option<string>): (r: Result<string, string>)
    ensures input.None? <==> r.Err?
    ensures r.Err? ==> r.error == "Input cannot be null"
    ensures r.Ok? ==> |r.value| <= |input.value|
  {
    match input
    case None => Err("Input cannot be null")
    case Some(s) =>
      var unquoted := RemoveWhere(s, IsQuoteChar);
      var noScripts := RemoveScripts(unquoted);
      var noTags := RemoveTags(noScripts);
      var noCommands := RemoveWhere(noTags, IsCommandChar);
      var noNul := RemoveWhere(noCommands, IsNul);
      Ok(Trim(noNul))
  }

  /**
   * The sanitised text holds none of ' " \ ; & | ` $ ( ) or NUL, every
   * character comes from the input, and it has no blank ends.
   */
  lemma SanitizedIsSafe(s: string)
    ensures var r := SanitizeString(Some(s)).value;
      (forall i :: 0 <= i < |r| ==> !IsStripped(r[i]))
      && (forall c :: c in r ==> c in s)
      && (r == [] || (!IsTrimSpace(r[0]) && !IsTrimSpace(r[|r| - 1])))
  {
    var unquoted := RemoveWhere(s, IsQuoteChar);
    var noScripts := RemoveScripts(unquoted);
    var noTags := RemoveTags(noScripts);
    var noCommands := RemoveWhere(noTags, IsCommandChar);
    var noNul := RemoveWhere(noCommands, IsNul);
    RemoveScriptsOnlyDeletes(unquoted);
    RemoveTagsOnlyDeletes(noScripts);
    TrimOnlyDeletes(noNul);
    var r := Trim(noNul);
    forall i | 0 <= i < |r| ensures !IsStripped(r[i]) {
      assert r[i] in noNul;
      assert r[i] in noCommands;
      assert r[i] in noTags;
      assert r[i] in unquoted;
    }
  }

  /** Removing the markup leaves no tag behind in the intermediate text. */
  lemma SanitizeRemovesMarkup(s: string)
    ensures TagFree(RemoveTags(RemoveScripts(RemoveWhere(s, IsQuoteChar))))
  {
    RemoveTagsLeavesNoTag(RemoveScripts(RemoveWhere(s, IsQuoteChar)));
  }

  // ---------------------------------------------------------------------------
  // Format validators

  /** The shape shared by the validators: blank is one error, a mismatch another. */
  function ValidateFormat(s: Option<string>, matches: string -> bool, emptyMessage: string, formatMessage: string)
    : (r: Result<bool, string>)
    ensures r.Ok? ==> r.value
    ensures s.None? || TrimsToEmpty(s.value) ==> r == Err(emptyMessage)
    ensures s.Some? && !TrimsToEmpty(s.value) ==> (r.Ok? <==> matches(s.value))
    ensures s.Some? && !TrimsToEmpty(s.value) && !matches(s.value) ==> r == Err(formatMessage)
  {
    if s.None? || TrimsToEmpty(s.value) then Err(emptyMessage)
    else if !matches(s.value) then Err(formatMessage)
    else Ok(true)
  }

  function ValidateEmail(email: Option<string>): (r: Result<bool, string>)
    ensures r.Ok? <==> email.Some? && IsEmail(email.value)
  {
    EmailNotBlank(email.GetOr([]));
    ValidateFormat(email, IsEmail, "Email cannot be empty", "Invalid email format")
  }

  function ValidatePhone(phone: Option<string>): (r: Result<bool, string>)
    ensures r.Ok? <==> phone.Some? && IsPhone(phone.value)
  {
    PhoneNotBlank(phone.GetOr([]));
    ValidateFormat(phone, IsPhone, "Phone number cannot be empty", "Invalid phone number format")
  }

  function ValidateUsername(username: Option<string>): (r: Result<bool, string>)
    ensures r.Ok? <==> username.Some? && IsUsername(username.value)
  {
    UsernameNotBlank(username.GetOr([]));
    ValidateFormat(username, IsUsername, "Username cannot be empty",
      "Username must be 3-20 characters (letters, numbers, underscore only)")
  }

  function ValidateTrackingId(trackingId: Option<string>): (r: Result<bool, string>)
    ensures r.Ok? <==> trackingId.Some? && IsTrackingId(trackingId.value)
  {
    TrackingIdNotBlank(trackingId.GetOr([]));
    ValidateFormat(trackingId, IsTrackingId, "Tracking ID cannot be empty",
      "Invalid tracking ID format (expected: D-XXX-XXX)")
  }

  /** A text that starts with a character above U+0020 does not trim to empty. */
  lemma NotBlankWhenFirstIsVisible(s: string)
    requires |s| > 0 && !IsTrimSpace(s[0])
    ensures !TrimsToEmpty(s)
  {
  }

  /** No accepted format is blank, so the blank check never hides a match. */
  lemma EmailNotBlank(s: string)
    ensures IsEmail(s) ==> !TrimsToEmpty(s)
  {
    if IsEmail(s) {
      var at := IndexOfChar(s, '@');
      assert s[..at][0] == s[0];
      NotBlankWhenFirstIsVisible(s);
    }
  }

  lemma UsernameNotBlank(s: string)
    ensures IsUsername(s) ==> !TrimsToEmpty(s)
  {
    if IsUsername(s) {
      NotBlankWhenFirstIsVisible(s);
    }
  }

  lemma TrackingIdNotBlank(s: string)
    ensures IsTrackingId(s) ==> !TrimsToEmpty(s)
  {
    if IsTrackingId(s) {
      NotBlankWhenFirstIsVisible(s);
    }
  }

  lemma PhoneNotBlank(s: string)
    ensures IsPhone(s) ==> !TrimsToEmpty(s)
  {
    if IsPhone(s) {
      var a := SkipOptional(SkipOptional(s, IsPlus), IsParenOpen);
      assert a[..3][0] == a[0];
      assert !IsTrimSpace(s[0]);
      NotBlankWhenFirstIsVisible(s);
    }
  }

  /** Tracking IDs are exactly "D-ddd-ddd". */
  lemma {:induction false} TrackingIdShape(a: string, b: string)
    requires |a| == 3 && |b| == 3 && All(a, IsDigit) && All(b, IsDigit)
    ensures ValidateTrackingId(Some("D-" + a + "-" + b)) == Ok(true)
    ensures ValidateTrackingId(Some("d-" + a + "-" + b)) == Err("Invalid tracking ID format (expected: D-XXX-XXX)")
  {
    var s := "D-" + a + "-" + b;
    assert s[2..5] == a && s[6..] == b;
    var t := "d-" + a + "-" + b;
    NotBlankWhenFirstIsVisible(t);
  }

  // ---------------------------------------------------------------------------
  // validateURL, validateLength, validateIntegerRange

  predicate IsDangerousScheme(lower: string)
  {
    StartsWith(lower, "javascript:") || StartsWith(lower, "data:") || StartsWith(lower, "vbscript:")
  }

  predicate IsWebScheme(lower: string)
  {
    StartsWith(lower, "http://") || StartsWith(lower, "https://")
  }

  /**
   * `validateURL`: blank is an error; the lower-cased text is first checked
   * against the script-capable schemes, then must start with http:// or https://.
   */
  function ValidateURL(url: Option<string>): (r: Result<bool, string>)
    ensures r.Ok? <==> url.Some? && IsWebScheme(ToLower(url.value))
    ensures r.Ok? ==> r.value
    ensures url.Some? && !TrimsToEmpty(url.value) && IsDangerousScheme(ToLower(url.value)) ==>
              r == Err("Dangerous URL protocol detected")
  {
    if url.None? || TrimsToEmpty(url.value) then
      Err("URL cannot be empty")
    else
      var lower := ToLower(url.value);
      SchemesDisjoint(lower);
      if IsDangerousScheme(lower) then Err("Dangerous URL protocol detected")
      else if !IsWebScheme(lower) then
        Err("URL must start with http:// or https://")
      else
        WebSchemeNotBlank(url.value);
        Ok(true)
  }

  /** A web address starts with 'h', which none of the script-capable schemes does. */
  lemma SchemesDisjoint(lower: string)
    ensures !(IsWebScheme(lower) && IsDangerousScheme(lower))
  {
    if IsWebScheme(lower) {
      assert lower[0] == 'h' by {
        if StartsWith(lower, "http://") {
          assert lower[..7][0] == 'h';
        } else {
          assert lower[..8][0] == 'h';
        }
      }
      assert !StartsWith(lower, "javascript:") by { assert "javascript:"[0] != 'h'; }
      assert !StartsWith(lower, "data:") by { assert "data:"[0] != 'h'; }
      assert !StartsWith(lower, "vbscript:") by { assert "vbscript:"[0] != 'h'; }
    }
  }

  /** A text whose lower-cased form starts with "http" is not blank. */
  lemma WebSchemeNotBlank(s: string)
    requires IsWebScheme(ToLower(s))
    ensures !TrimsToEmpty(s)
  {
    var lower := ToLower(s);
    assert lower[..4][0] == 'h';
    assert LowerChar(s[0]) == 'h';
    NotBlankWhenFirstIsVisible(s);
  }

  /** `validateLength`: the Java length (UTF-16 units) may not exceed `maxLength`. */
  function ValidateLength(input: Option<string>, maxLength: int): (r: Result<bool, string>)
    ensures r.Ok? <==> input.Some? && JavaLength(input.value) <= maxLength
    ensures input.None? ==> r == Err("Input cannot be null")
    ensures input.Some? && JavaLength(input.value) > maxLength ==>
              r == Err("Input exceeds maximum length of " + IntToString(maxLength) + " characters")
  {
    if input.None? then Err("Input cannot be null")
    else if JavaLength(input.value) > maxLength then
      Err("Input exceeds maximum length of " + IntToString(maxLength) + " characters")
    else Ok(true)
  }

  /** `validateIntegerRange`: inclusive bounds. */
  function ValidateIntegerRange(value: int, min: int, max: int): (r: Result<bool, string>)
    ensures r.Ok? <==> min <= value <= max
    ensures r.Err? ==> r.error == "Value must be between " + IntToString(min) + " and " + IntToString(max)
  {
    if value < min || value > max then
      Err("Value must be between " + IntToString(min) + " and " + IntToString(max))
    else Ok(true)
  }

  /** An empty range (min > max) rejects every value; a one-point range accepts only that point. */
  lemma IntegerRangeEdges(value: int, point: int)
    ensures ValidateIntegerRange(value, value + 1, value).Err?
    ensures ValidateIntegerRange(value, point, point).Ok? <==> value == point
  {
  }

  // ---------------------------------------------------------------------------
  // encodeHTML

  function EncodeAmp(s: string): string { ReplaceChar(s, '&', "&amp;") }
  function EncodeLt(s: string): string { ReplaceChar(s, '<', "&lt;") }
  function EncodeGt(s: string): string { ReplaceChar(s, '>', "&gt;") }
  function EncodeQuot(s: string): string { ReplaceChar(s, '"', "&quot;") }
  function EncodeApos(s: string): string { ReplaceChar(s, '\'', "&#x27;") }
  function EncodeSlash(s: string): string { ReplaceChar(s, '/', "&#x2F;") }

  /** The chain of `replace` calls, '&' first. */
  function EncodeChain(s: string): string
  {
    EncodeSlash(EncodeApos(EncodeQuot(EncodeGt(EncodeLt(EncodeAmp(s))))))
  }

  /** `encodeHTML`: null is an error, otherwise the encoded text. */
  function EncodeHTML(input: Option<string>): (r: Result<string, string>)
    ensures input.None? <==> r.Err?
    ensures r.Err? ==> r.error == "Input cannot be null"
    ensures r.Ok? ==> r.value == EncodeEach(input.value)
  {
    match input
    case None => Err("Input cannot be null")
    case Some(s) =>
      EncodeChainIsPerCharacter(s);
      Ok(EncodeChain(s))
  }

  predicate IsHtmlSpecial(c: char) { c == '&' || c == '<' || c == '>' || c == '"' || c == '\'' || c == '/' }

  /** The entity written for one character (the character itself when it is not special). */
  function Entity(c: char): (r: string)
    ensures |r| > 0
    ensures IsHtmlSpecial(c) <==> r[0] == '&'
    ensures forall i :: 0 <= i < |r| ==> !IsHtmlSpecial(r[i]) || r[i] == '&'
  {
    if c == '&' then "&amp;"
    else if c == '<' then "&lt;"
    else if c == '>' then "&gt;"
    else if c == '"' then "&quot;"
    else if c == '\'' then "&#x27;"
    else if c == '/' then "&#x2F;"
    else [c]
  }

  /** Character-by-character encoding: each character replaced by its entity, once. */
  function EncodeEach(s: string): (r: string)
    ensures forall i :: 0 <= i < |r| ==> !IsHtmlSpecial(r[i]) || r[i] == '&'
  {
    if s == [] then [] else Entity(s[0]) + EncodeEach(s[1..])
  }

  /** The steps after a character's own step leave its entity alone. */
  lemma AfterQuot(v: string)
    requires '\'' !in v && '/' !in v
    ensures EncodeSlash(EncodeApos(v)) == v
  {
    ReplaceCharAbsent(v, '\'', "&#x27;");
    ReplaceCharAbsent(v, '/', "&#x2F;");
  }

  lemma AfterGt(v: string)
    requires '"' !in v && '\'' !in v && '/' !in v
    ensures EncodeSlash(EncodeApos(EncodeQuot(v))) == v
  {
    ReplaceCharAbsent(v, '"', "&quot;");
    AfterQuot(v);
  }

  lemma AfterLt(v: string)
    requires '>' !in v && '"' !in v && '\'' !in v && '/' !in v
    ensures EncodeSlash(EncodeApos(EncodeQuot(EncodeGt(v)))) == v
  {
    ReplaceCharAbsent(v, '>', "&gt;");
    AfterGt(v);
  }

  lemma AfterAmp(v: string)
    requires '<' !in v && '>' !in v && '"' !in v && '\'' !in v && '/' !in v
    ensures EncodeSlash(EncodeApos(EncodeQuot(EncodeGt(EncodeLt(v))))) == v
  {
    ReplaceCharAbsent(v, '<', "&lt;");
    AfterLt(v);
  }

  /** The six single-character steps applied to one character give its entity. */
  lemma EncodeChainOfChar(c: char)
    ensures EncodeChain([c]) == Entity(c)
  {
    ReplaceCharSingle(c, '&', "&amp;");
    if c == '&' {
      AfterAmp("&amp;");
      return;
    }
    ReplaceCharSingle(c, '<', "&lt;");
    if c == '<' {
      AfterLt("&lt;");
      return;
    }
    ReplaceCharSingle(c, '>', "&gt;");
    if c == '>' {
      AfterGt("&gt;");
      return;
    }
    ReplaceCharSingle(c, '"', "&quot;");
    if c == '"' {
      AfterQuot("&quot;");
      return;
    }
    ReplaceCharSingle(c, '\'', "&#x27;");
    ReplaceCharSingle(c, '/', "&#x2F;");
    if c == '\'' {
      ReplaceCharAbsent("&#x27;", '/', "&#x2F;");
    }
  }

  /** The chain distributes over concatenation, like each of its steps. */
  lemma EncodeChainAppend(a: string, b: string)
    ensures EncodeChain(a + b) == EncodeChain(a) + EncodeChain(b)
  {
    ReplaceCharAppend(a, b, '&', "&amp;");
    var a1, b1 := EncodeAmp(a), EncodeAmp(b);
    ReplaceCharAppend(a1, b1, '<', "&lt;");
    var a2, b2 := EncodeLt(a1), EncodeLt(b1);
    ReplaceCharAppend(a2, b2, '>', "&gt;");
    var a3, b3 := EncodeGt(a2), EncodeGt(b2);
    ReplaceCharAppend(a3, b3, '"', "&quot;");
    var a4, b4 := EncodeQuot(a3), EncodeQuot(b3);
    ReplaceCharAppend(a4, b4, '\'', "&#x27;");
    ReplaceCharAppend(EncodeApos(a4), EncodeApos(b4), '/', "&#x2F;");
  }

  /**
   * Replacing '&' first means the ampersands of the later entities are never
   * re-encoded: the chain equals a single pass over the characters.
   */
  lemma {:induction false} EncodeChainIsPerCharacter(s: string)
    ensures EncodeChain(s) == EncodeEach(s)
    decreases |s|
  {
    if s == [] {
    } else {
      assert s == [s[0]] + s[1..];
      EncodeChainAppend([s[0]], s[1..]);
      EncodeChainOfChar(s[0]);
      EncodeChainIsPerCharacter(s[1..]);
    }
  }

  /** Decoding of the six entities, the partner of the encoder. */
  function DecodeEntities(s: string): string
    decreases |s|
  {
    if s == [] then []
    else if s[0] != '&' then [s[0]] + DecodeEntities(s[1..])
    else if StartsWith(s, "&amp;") then "&" + DecodeEntities(s[5..])
    else if StartsWith(s, "&lt;") then "<" + DecodeEntities(s[4..])
    else if StartsWith(s, "&gt;") then ">" + DecodeEntities(s[4..])
    else if StartsWith(s, "&quot;") then "\"" + DecodeEntities(s[6..])
    else if StartsWith(s, "&#x27;") then "'" + DecodeEntities(s[6..])
    else if StartsWith(s, "&#x2F;") then "/" + DecodeEntities(s[6..])
    else [s[0]] + DecodeEntities(s[1..])
  }

  lemma DecodeEntityPrefix(c: char, rest: string)
    ensures DecodeEntities(Entity(c) + rest) == [c] + DecodeEntities(rest)
  {
    var e := Entity(c);
    var s := e + rest;
    assert s[|e|..] == rest;
    if !IsHtmlSpecial(c) {
      assert s[0] == c;
    } else {
      assert s[..|e|] == e;
      if c == '&' {
      } else if c == '<' {
        assert s[1] == 'l';
      } else if c == '>' {
        assert s[1] == 'g';
      } else if c == '"' {
        assert s[1] == 'q';
      } else if c == '\'' {
        assert s[1] == '#' && s[4] == '7';
      } else {
        assert s[1] == '#' && s[4] == 'F';
      }
    }
  }

  /** Encoding loses nothing: decoding the entities gives the input back. */
  lemma {:induction false} EncodeHTMLRoundTrip(s: string)
    ensures DecodeEntities(EncodeHTML(Some(s)).value) == s
    decreases |s|
  {
    DecodeEachRoundTrip(s);
  }

  lemma {:induction false} DecodeEachRoundTrip(s: string)
    ensures DecodeEntities(EncodeEach(s)) == s
    decreases |s|
  {
    if s != [] {
      DecodeEntityPrefix(s[0], EncodeEach(s[1..]));
      DecodeEachRoundTrip(s[1..]);
    }
  }

  /** The encoded text holds no markup character: no < > " ' / survives. */
  lemma EncodedHasNoMarkup(s: string)
    ensures forall i :: 0 <= i < |EncodeHTML(Some(s)).value| ==>
              EncodeHTML(Some(s)).value[i] !in "<>\"'/"
  {
  }
}
