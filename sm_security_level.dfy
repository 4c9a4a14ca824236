// SecurityManager.SecurityLevel (security/SecurityManager.java): a second
// clearance enum with the same four constants in the same order as
// security/SecurityLevel.java, each carrying an explicit level number, and a
// conversion from that number.
module SmSecurityLevel {
  import opened JavaStrings
  import opened ResultModel
  import opened SecurityLevels

  /** `getLevel()`: the number each constant is declared with. */
  function GetLevel(l: Level): (n: int)
    ensures n == Ordinal(l)
  {
    match l
    case Unclassified => 0
    case Confidential => 1
    case Secret => 2
    case TopSecret => 3
  }

  /** Different constants carry different numbers. */
  lemma GetLevelInjective(a: Level, b: Level)
    ensures GetLevel(a) == GetLevel(b) <==> a == b
  {
    OrdinalDecidesOrder(a, b);
  }

  /**
   * `fromInt`: a scan over `values()` for the constant with that number;
   * anything outside 0..3 is an error naming the number.
   */
  method FromInt(lvl: int) returns (r: Result<Level, string>)
    ensures r.Ok? <==> 0 <= lvl < |Declared|
    ensures r.Ok? ==> GetLevel(r.value) == lvl && Declared[lvl] == r.value
    ensures r.Err? ==> r.error == "Invalid clearance level: " + IntToString(lvl)
  {
    var i := 0;
    while i < |Declared|
      invariant 0 <= i <= |Declared|
      invariant !(0 <= lvl < i)
    {
      if GetLevel(Declared[i]) == lvl {
        return Ok(Declared[i]);
      }
      i := i + 1;
    }
    return Err("Invalid clearance level: " + IntToString(lvl));
  }
}
