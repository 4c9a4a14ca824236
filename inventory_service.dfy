// Inventory business rules (services/InventoryService.java): a clearance check
// and, for two operations, an input guard before delegating to the DAO. The
// DAO's answers are parameters (a function of the argument it is given where
// it takes one); the queries themselves are not part of this model.
module InventoryService {
  import opened JavaStrings
  import opened Wrappers
  import opened ResultModel
  import opened Patterns
  import opened SecurityLevels
  import opened BLPAccessControl

  const AccessDenied: string := "Access denied"
  const InventoryDenied: string := AccessDenied + ": Insufficient clearance to view inventory data"
  const FacilitiesDenied: string := AccessDenied + ": Insufficient clearance to view facility data"
  const SearchDenied: string := AccessDenied + ": Insufficient clearance to search inventory"
  const StatisticsDenied: string := AccessDenied + ": Insufficient clearance to view inventory statistics"
  // Two literals each, for the reason given beside the refusals of TransferDao.
  const TrackingRequired: string := "Tracking number " + "is required"
  const InvalidTrackingFormat: string := "Invalid tracking number " + "format"
  const InvalidFacilityId: string := "Invalid facility ID"

  function GetInventoryByFacility<T>(facilityId: int, clearance: Level, byFacility: int -> Result<T, string>)
    : Result<T, string>
  {
    if !CheckReadAccess(clearance, Secret) then Err(InventoryDenied) else byFacility(facilityId)
  }

  function GetAllInventory<T>(clearance: Level, all: Result<T, string>): Result<T, string>
  {
    if !CheckReadAccess(clearance, Secret) then Err(InventoryDenied) else all
  }

  function GetAllFacilities<T>(clearance: Level, facilities: Result<T, string>): Result<T, string>
  {
    if !CheckReadAccess(clearance, Confidential) then Err(FacilitiesDenied) else facilities
  }

  /** The DAO is asked for the ASCII letters and digits of the trimmed number; blank or empty is refused. */
  function SearchByTrackingNumber<T>(trackingNumber: Option<string>, clearance: Level, byTracking: string -> Result<T, string>)
    : Result<T, string>
  {
    if !CheckReadAccess(clearance, Secret) then Err(SearchDenied)
    else if trackingNumber.None? || TrimsToEmpty(trackingNumber.value) then Err(TrackingRequired)
    else
      var sanitized := TrimmedAlphaNum(trackingNumber.value);
      if sanitized == [] then Err(InvalidTrackingFormat)
      else byTracking(sanitized)
  }

  function GetInventoryCount(facilityId: int, clearance: Level, count: int -> Result<int, string>): Result<int, string>
  {
    if !CheckReadAccess(clearance, Secret) then Err(StatisticsDenied)
    else if facilityId <= 0 then Err(InvalidFacilityId)
    else count(facilityId)
  }

  // ---------------------------------------------------------------------------
  // Properties

  /**
   * Inventory reads need SECRET and the facility list CONFIDENTIAL; below
   * that each answers with its own refusal, which starts with "Access denied".
   */
  lemma ClearanceGuards<T>(clearance: Level, facilityId: int, trackingNumber: Option<string>,
                           byFacility: int -> Result<T, string>, all: Result<T, string>, facilities: Result<T, string>,
                           byTracking: string -> Result<T, string>, count: int -> Result<int, string>)
    ensures !AtOrAbove(clearance, Secret) ==>
              GetInventoryByFacility(facilityId, clearance, byFacility) == Err(InventoryDenied)
              && GetAllInventory(clearance, all) == Err(InventoryDenied)
              && SearchByTrackingNumber(trackingNumber, clearance, byTracking) == Err(SearchDenied)
              && GetInventoryCount(facilityId, clearance, count) == Err(StatisticsDenied)
    ensures AtOrAbove(clearance, Secret) ==>
              GetInventoryByFacility(facilityId, clearance, byFacility) == byFacility(facilityId)
              && GetAllInventory(clearance, all) == all
    ensures GetAllFacilities(clearance, facilities) == if AtOrAbove(clearance, Confidential) then facilities else Err(FacilitiesDenied)
    ensures StartsWith(InventoryDenied, AccessDenied) && StartsWith(FacilitiesDenied, AccessDenied)
            && StartsWith(SearchDenied, AccessDenied) && StartsWith(StatisticsDenied, AccessDenied)
  {
    PrefixOfConcat(AccessDenied, InventoryDenied[|AccessDenied|..]);
    PrefixOfConcat(AccessDenied, FacilitiesDenied[|AccessDenied|..]);
    PrefixOfConcat(AccessDenied, SearchDenied[|AccessDenied|..]);
    PrefixOfConcat(AccessDenied, StatisticsDenied[|AccessDenied|..]);
  }

  lemma PrefixOfConcat(p: string, rest: string)
    ensures StartsWith(p + rest, p)
  {
    assert (p + rest)[..|p|] == p;
  }

  /** A search that passes the guards reaches the DAO with a non-empty key of ASCII letters and digits. */
  lemma SearchKeyIsSanitised<T>(trackingNumber: string, clearance: Level, byTracking: string -> Result<T, string>)
    requires AtOrAbove(clearance, Secret) && !TrimsToEmpty(trackingNumber)
    ensures var key := TrimmedAlphaNum(trackingNumber);
      SearchByTrackingNumber(Some(trackingNumber), clearance, byTracking)
        == (if key == [] then Err(InvalidTrackingFormat) else byTracking(key))
      && All(key, IsAlphaNum) && (forall c :: c in key ==> c in Trim(trackingNumber))
  {
  }

  /** A search key made only of letters and digits passes through unchanged. */
  lemma {:induction false} CleanKeyIsUnchanged(s: string)
    requires All(s, IsAlphaNum)
    ensures RemoveWhere(s, NotAlphaNum) == s
  {
    if s != [] {
      CleanKeyIsUnchanged(s[1..]);
    }
  }

  /** The count rejects a non-positive facility id only after the clearance check passes. */
  lemma CountGuardOrder(facilityId: int, clearance: Level, count: int -> Result<int, string>)
    ensures GetInventoryCount(facilityId, clearance, count)
            == if !AtOrAbove(clearance, Secret) then Err(StatisticsDenied)
               else if facilityId <= 0 then Err(InvalidFacilityId)
               else count(facilityId)
  {
  }
}
