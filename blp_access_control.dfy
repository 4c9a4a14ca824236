// Bell-LaPadula mandatory access control (security/BLPAccessControl.java):
// "no read up" and "no write down" over the declared level order, a checked
// entry point that validates its arguments, and the table that classifies
// business data. The audit log written on a denial is not modelled.
module BLPAccessControl {
  import opened Wrappers
  import opened JavaStrings
  import opened ResultModel
  import opened SecurityLevels

  /** Simple security property: a subject may read only at or below its clearance. */
  function CheckReadAccess(subject: Level, obj: Level): (allowed: bool)
    ensures allowed <==> AtOrAbove(subject, obj)
  {
    OrdinalDecidesOrder(subject, obj);
    Ordinal(subject) >= Ordinal(obj)
  }

  /** Star property: a subject may write only at or above its clearance. */
  function CheckWriteAccess(subject: Level, obj: Level): (allowed: bool)
    ensures allowed <==> AtOrAbove(obj, subject)
  {
    OrdinalDecidesOrder(obj, subject);
    Ordinal(subject) <= Ordinal(obj)
  }

  const InvalidOperationSuffix: string := " (must be READ or WRITE)"

  /** Java string concatenation of a possibly-null reference. */
  function ShowNullable(s: Option<string>): string
  {
    match s
    case None => "null"
    case Some(t) => t
  }

  /**
   * `checkAccess`: a null clearance or classification is an error, then the
   * operation is matched case-insensitively against READ and WRITE; anything
   * else (including null) is an error naming the operation.
   */
  function CheckAccess(subject: Option<Level>, obj: Option<Level>, operation: Option<string>)
    : (r: Result<bool, string>)
    ensures subject.None? ==> r == Err("Subject clearance cannot be null")
    ensures subject.Some? && obj.None? ==> r == Err("Object classification cannot be null")
    ensures r.Ok? <==> subject.Some? && obj.Some? && operation.Some?
                       && (EqualsIgnoreCase(operation.value, "READ") || EqualsIgnoreCase(operation.value, "WRITE"))
    ensures r.Ok? && EqualsIgnoreCase(operation.value, "READ") ==>
              (r.value <==> AtOrAbove(subject.value, obj.value))
    ensures r.Ok? && !EqualsIgnoreCase(operation.value, "READ") ==>
              (r.value <==> AtOrAbove(obj.value, subject.value))
    ensures subject.Some? && obj.Some? && r.Err? ==>
              r.error == "Invalid operation: " + ShowNullable(operation) + InvalidOperationSuffix
  {
    if subject.None? then Err("Subject clearance cannot be null")
    else if obj.None? then Err("Object classification cannot be null")
    else if operation.Some? && EqualsIgnoreCase("READ", operation.value) then
      Ok(CheckReadAccess(subject.value, obj.value))
    else if operation.Some? && EqualsIgnoreCase("WRITE", operation.value) then
      Ok(CheckWriteAccess(subject.value, obj.value))
    else Err("Invalid operation: " + ShowNullable(operation) + InvalidOperationSuffix)
  }

  /** The classification table, keyed by the upper-cased data type. */
  const ClassificationTable: map<string, Level> := map[
    "PUBLIC_INFO" := Unclassified, "MARKETING" := Unclassified,
    "PACKAGE_INFO" := Confidential, "ROUTE_INFO" := Confidential, "TRACKING" := Confidential,
    "USER_PII" := Secret, "PAYMENT_INFO" := Secret, "FACILITY_INVENTORY" := Secret,
    "OPTIMIZATION_ALGORITHM" := TopSecret, "SYSTEM_LOGS" := TopSecret, "AUDIT_LOGS" := TopSecret
  ]

  /**
   * `getDataClassification`: the switch over the upper-cased data type;
   * null and every unlisted type fail secure to TOP_SECRET.
   */
  function GetDataClassification(dataType: Option<string>): (r: Level)
    ensures dataType.None? ==> r == TopSecret
    ensures dataType.Some? && ToUpper(dataType.value) in ClassificationTable ==>
              r == ClassificationTable[ToUpper(dataType.value)]
    ensures dataType.Some? && ToUpper(dataType.value) !in ClassificationTable ==> r == TopSecret
  {
    if dataType.None? then TopSecret
    else
      var key := ToUpper(dataType.value);
      if key == "PUBLIC_INFO" || key == "MARKETING" then Unclassified
      else if key == "PACKAGE_INFO" || key == "ROUTE_INFO" || key == "TRACKING" then Confidential
      else if key == "USER_PII" || key == "PAYMENT_INFO" || key == "FACILITY_INVENTORY" then Secret
      else TopSecret
  }

  // ---------------------------------------------------------------------------
  // Properties

  /** Reading and writing are both allowed exactly at equal levels. */
  lemma ReadAndWriteOnlyAtEqualLevels(subject: Level, obj: Level)
    ensures CheckReadAccess(subject, obj) && CheckWriteAccess(subject, obj) <==> subject == obj
  {
    OrdinalDecidesOrder(subject, obj);
  }

  /** Clearance is monotone for reading: a higher subject reads everything a lower one does. */
  lemma {:induction false} ReadIsMonotone(low: Level, high: Level, obj: Level)
    requires AtOrAbove(high, low)
    ensures CheckReadAccess(low, obj) ==> CheckReadAccess(high, obj)
    ensures CheckWriteAccess(high, obj) ==> CheckWriteAccess(low, obj)
  {
    OrdinalDecidesOrder(high, low);
    OrdinalDecidesOrder(low, obj);
    OrdinalDecidesOrder(high, obj);
    OrdinalDecidesOrder(obj, high);
    OrdinalDecidesOrder(obj, low);
  }

  /** The operation name is matched without regard to case. */
  lemma OperationCaseInsensitive(subject: Level, obj: Level)
    ensures CheckAccess(Some(subject), Some(obj), Some("read")) == Ok(CheckReadAccess(subject, obj))
    ensures CheckAccess(Some(subject), Some(obj), Some("Write")) == Ok(CheckWriteAccess(subject, obj))
    ensures CheckAccess(Some(subject), Some(obj), None).Err?
  {
  }

  /** The classification ignores case: any re-casing of a data type gets the same level. */
  lemma {:induction false} ClassificationIgnoresCase(s: string)
    ensures GetDataClassification(Some(ToLower(s))) == GetDataClassification(Some(s))
    ensures GetDataClassification(Some(ToUpper(s))) == GetDataClassification(Some(s))
  {
    assert forall i :: 0 <= i < |s| ==> UpperChar(LowerChar(s[i])) == UpperChar(s[i]);
    assert ToUpper(ToLower(s)) == ToUpper(s);
    assert forall i :: 0 <= i < |s| ==> UpperChar(UpperChar(s[i])) == UpperChar(s[i]);
    assert ToUpper(ToUpper(s)) == ToUpper(s);
  }
}
