// SecurityManager.AuditLogger (security/SecurityManager.java): an in-memory
// list of audit entries, and the classification of a security event's result
// from words in its upper-cased type.
module SmAuditLogger {
  import opened Wrappers
  import opened JavaStrings
  import opened ResultModel

  /** One audit entry; the timestamp and the text formatting are not modelled. */
  datatype AuditEntry = AuditEntry(
    userId: Option<int>,
    username: string,
    action: string,
    result: string,
    ipAddress: Option<string>,
    details: Option<string>)

  /** Words that make an event a denial, checked first. */
  const DenialWords: seq<string> := ["DENIED", "BLOCKED", "LOCKED", "EXCEEDED", "VIOLATION"]

  /** Words that make an event an error when no denial word occurs. */
  const ErrorWords: seq<string> := ["ERROR", "FAILED"]

  predicate ContainsSome(s: string, words: seq<string>)
  {
    exists i :: 0 <= i < |words| && Contains(s, words[i])
  }

  /** The event type as inspected: upper-cased, with null read as empty. */
  function InspectedType(eventType: Option<string>): string
  {
    match eventType
    case None => ""
    case Some(t) => ToUpper(t)
  }

  /** The `result` that `logSecurityEvent` derives from the event type. */
  function ClassifyEvent(eventType: Option<string>): (result: string)
    ensures result == "denied" <==> ContainsSome(InspectedType(eventType), DenialWords)
    ensures result == "error" <==>
              !ContainsSome(InspectedType(eventType), DenialWords) && ContainsSome(InspectedType(eventType), ErrorWords)
    ensures result == "success" <==>
              !ContainsSome(InspectedType(eventType), DenialWords) && !ContainsSome(InspectedType(eventType), ErrorWords)
  {
    var up := InspectedType(eventType);
    if Contains(up, "DENIED") || Contains(up, "BLOCKED") || Contains(up, "LOCKED")
       || Contains(up, "EXCEEDED") || Contains(up, "VIOLATION") then
      assert Contains(up, DenialWords[0]) || Contains(up, DenialWords[1]) || Contains(up, DenialWords[2])
        || Contains(up, DenialWords[3]) || Contains(up, DenialWords[4]);
      "denied"
    else if Contains(up, "ERROR") || Contains(up, "FAILED") then
      assert Contains(up, ErrorWords[0]) || Contains(up, ErrorWords[1]);
      "error"
    else
      "success"
  }

  /** Upper-casing distributes over concatenation. */
  lemma ToUpperAppend(a: string, b: string)
    ensures ToUpper(a + b) == ToUpper(a) + ToUpper(b)
  {
  }

  /** Upper-casing leaves an upper-case word alone. */
  lemma {:induction false} ToUpperOfWord(w: string)
    requires forall i :: 0 <= i < |w| ==> IsUpper(w[i]) || w[i] == '_'
    ensures ToUpper(w) == w
  {
  }

  lemma {:induction false} ContainsInside(a: string, w: string, b: string)
    ensures Contains(a + w + b, w)
  {
    var s := a + w + b;
    assert s[|a|..|a| + |w|] == w;
    assert OccursAt(s, w, |a|);
  }

  /** An event type holding a word (in any case) is classified by that word. */
  lemma {:induction false} EventWordDecides(a: string, b: string, i: nat)
    requires i < |DenialWords|
    ensures ClassifyEvent(Some(a + DenialWords[i] + b)) == "denied"
  {
    var w := DenialWords[i];
    ToUpperOfWord(w);
    ToUpperAppend(a + w, b);
    ToUpperAppend(a, w);
    ContainsInside(ToUpper(a), w, ToUpper(b));
  }

  /** The classification does not depend on the case of the event type. */
  lemma {:induction false} ClassifyIgnoresCase(s: string)
    ensures ClassifyEvent(Some(ToLower(s))) == ClassifyEvent(Some(s))
  {
    assert forall i :: 0 <= i < |s| ==> UpperChar(LowerChar(s[i])) == UpperChar(s[i]);
    assert ToUpper(ToLower(s)) == ToUpper(s);
  }

  /** A null event type contains no word and counts as a success. */
  lemma NullEventIsSuccess()
    ensures ClassifyEvent(None) == "success"
  {
    forall w | w in DenialWords + ErrorWords ensures !Contains("", w) {
      assert !OccursAt("", w, 0);
    }
  }

  /** The in-memory audit list. */
  class AuditLogger {
    var logs: seq<AuditEntry>

    constructor()
      ensures logs == []
    {
      logs := [];
    }

    /** `log`: username, action and result are required; a complete entry is appended. */
    method Log(userId: Option<int>, username: Option<string>, action: Option<string>, result: Option<string>,
               ipAddress: Option<string>, details: Option<string>) returns (r: Result<(), string>)
      modifies this
      ensures r.Err? <==> username.None? || action.None? || result.None?
      ensures r.Err? ==> r.error == "Username, action, and result are required" && logs == old(logs)
      ensures r.Ok? ==> logs == old(logs) + [AuditEntry(userId, username.value, action.value, result.value, ipAddress, details)]
    {
      if username.None? || action.None? || result.None? {
        return Err("Username, action, and result are required");
      }
      logs := logs + [AuditEntry(userId, username.value, action.value, result.value, ipAddress, details)];
      return Ok(());
    }

    /**
     * `logSecurityEvent`: always logs, with "SYSTEM" for a null username,
     * "EVENT" for a null type and the classified result.
     */
    method LogSecurityEvent(userId: Option<int>, username: Option<string>, eventType: Option<string>,
                            ipAddress: Option<string>, description: Option<string>) returns (r: Result<(), string>)
      modifies this
      ensures r.Ok?
      ensures logs == old(logs) + [AuditEntry(userId, username.GetOr("SYSTEM"), eventType.GetOr("EVENT"),
                                              ClassifyEvent(eventType), ipAddress, description)]
    {
      r := Log(userId, Some(username.GetOr("SYSTEM")), Some(eventType.GetOr("EVENT")),
               Some(ClassifyEvent(eventType)), ipAddress, description);
    }

    /** `logError`: always logs an "error" entry, with defaults for the missing texts. */
    method LogError(errorType: Option<string>, errorMessage: Option<string>, username: Option<string>)
      returns (r: Result<(), string>)
      modifies this
      ensures r.Ok?
      ensures logs == old(logs) + [AuditEntry(None, username.GetOr("SYSTEM"), errorType.GetOr("ERROR"), "error",
                                              None, Some(errorMessage.GetOr("")))]
    {
      r := Log(None, Some(username.GetOr("SYSTEM")), Some(errorType.GetOr("ERROR")), Some("error"),
               None, Some(errorMessage.GetOr("")));
    }
  }
}
