// Transfer business rules (services/TransferService.java): clearance checks
// and input guards, in order, before delegating to the DAO. Initiation and
// completion delegate to the TransferDao state machine; the two read-only
// queries are answered by the DAO result given as a parameter (for the lookup,
// as a function of the sanitised tracking number). A null clearance and the
// audit entries are not modelled.
module TransferService {
  import opened Wrappers
  import opened JavaStrings
  import opened ResultModel
  import opened Patterns
  import opened SecurityLevels
  import opened BLPAccessControl
  import TransferDao

  /** The words every clearance refusal starts with (the controllers look for them). */
  const AccessDenied: string := "Access denied"
  const InsufficientClearance: string := ": Insufficient clearance"
  const TransferDenied: string := AccessDenied + InsufficientClearance + " for transfers"
  const ViewDenied: string := AccessDenied + InsufficientClearance + " to view transfers"
  const LookupDenied: string := AccessDenied + InsufficientClearance
  // The longer refusals are each the concatenation of two shorter literals,
  // for the reason given beside the refusals of TransferDao.
  const SameFacility: string := "Source and destination " + "facilities cannot be the same"
  const InvalidIds: string := "Invalid" + " facility or package ID"
  const InvalidTransferId: string := "Invalid " + "transfer ID"
  const TrackingRequired: string := "Tracking number " + "is required"
  const InvalidTrackingFormat: string := "Invalid" + " tracking number format"

  /** The refusal `initiateTransfer` gives before reaching the DAO, if any. */
  function InitiateRefusal(packageId: int, fromFacility: int, toFacility: int, clearance: Level): (r: Option<string>)
    ensures r.None? <==> CheckWriteAccess(clearance, Secret) && fromFacility != toFacility
                         && fromFacility > 0 && toFacility > 0 && packageId > 0
  {
    if !CheckWriteAccess(clearance, Secret) then Some(TransferDenied)
    else if fromFacility == toFacility then Some(SameFacility)
    else if fromFacility <= 0 || toFacility <= 0 || packageId <= 0 then Some(InvalidIds)
    else None
  }

  function InitiateTransfer(db: TransferDao.Db, packageId: int, fromFacility: int, toFacility: int, userId: int,
                            clearance: Level, connection: Result<(), string>, fault: Option<TransferDao.InitiateFault>,
                            newId: int)
    : (Result<int, string>, TransferDao.Db)
  {
    match InitiateRefusal(packageId, fromFacility, toFacility, clearance)
    case Some(e) => (Err(e), db)
    case None => TransferDao.Initiate(db, packageId, fromFacility, toFacility, userId, connection, fault, newId)
  }

  /** The refusal `completeTransfer` gives before reaching the DAO, if any. */
  function CompleteRefusal(transferId: int, clearance: Level): (r: Option<string>)
    ensures r.None? <==> CheckWriteAccess(clearance, Secret) && transferId > 0
  {
    if !CheckWriteAccess(clearance, Secret) then Some(TransferDenied)
    else if transferId <= 0 then Some(InvalidTransferId)
    else None
  }

  function CompleteTransfer(db: TransferDao.Db, transferId: int, clearance: Level, connection: Result<(), string>,
                            fault: Option<TransferDao.Fault>, now: int)
    : (Result<string, string>, TransferDao.Db)
  {
    match CompleteRefusal(transferId, clearance)
    case Some(e) => (Err(e), db)
    case None => TransferDao.Complete(db, transferId, connection, fault, now)
  }

  /** `getPendingTransfers`: read access at SECRET, then whatever the DAO answers. */
  function GetPendingTransfers<T>(clearance: Level, fetched: Result<T, string>): (r: Result<T, string>)
    ensures r == if AtOrAbove(clearance, Secret) then fetched else Err(ViewDenied)
  {
    if !CheckReadAccess(clearance, Secret) then Err(ViewDenied) else fetched
  }

  /**
   * `getTransferByTracking`: read access at CONFIDENTIAL; a null or blank
   * number is refused; the DAO is asked for the letters and digits of the
   * trimmed number, and an empty remainder is refused.
   */
  function GetTransferByTracking<T>(trackingNumber: Option<string>, clearance: Level, lookup: string -> Result<T, string>)
    : Result<T, string>
  {
    if !CheckReadAccess(clearance, Confidential) then Err(LookupDenied)
    else if trackingNumber.None? || TrimsToEmpty(trackingNumber.value) then Err(TrackingRequired)
    else
      var sanitized := TrimmedAlphaNum(trackingNumber.value);
      if sanitized == [] then Err(InvalidTrackingFormat)
      else lookup(sanitized)
  }

  // ---------------------------------------------------------------------------
  // Properties

  /**
   * Transfers use the write check at SECRET, so the three lower clearances
   * pass and TOP_SECRET is refused.
   */
  lemma TransferClearanceIsWriteAtSecret(clearance: Level)
    ensures CompleteRefusal(1, clearance) == Some(TransferDenied) <==> clearance == TopSecret
    ensures InitiateRefusal(1, 1, 2, clearance) == Some(TransferDenied) <==> clearance == TopSecret
  {
    OrdinalDecidesOrder(Secret, clearance);
  }

  /**
   * The guards run in order (clearance, same facility, ids) and the DAO is
   * reached, with the tables untouched before, only when all pass.
   */
  lemma InitiateGuardOrder(db: TransferDao.Db, packageId: int, fromFacility: int, toFacility: int, userId: int,
                           clearance: Level, connection: Result<(), string>, fault: Option<TransferDao.InitiateFault>,
                           newId: int)
    ensures var (r, after) := InitiateTransfer(db, packageId, fromFacility, toFacility, userId, clearance, connection,
                                               fault, newId);
      (!CheckWriteAccess(clearance, Secret) ==> r == Err(TransferDenied) && after == db)
      && (CheckWriteAccess(clearance, Secret) && fromFacility == toFacility ==>
            r == Err(SameFacility) && after == db)
      && (CheckWriteAccess(clearance, Secret) && fromFacility != toFacility
          && (fromFacility <= 0 || toFacility <= 0 || packageId <= 0) ==>
            r == Err(InvalidIds) && after == db)
      && (InitiateRefusal(packageId, fromFacility, toFacility, clearance).None? ==>
            (r, after) == TransferDao.Initiate(db, packageId, fromFacility, toFacility, userId, connection, fault, newId))
  {
  }

  /** Even an invalid transfer id gets the clearance refusal first; a non-positive id never reaches the DAO. */
  lemma CompleteGuardOrder(db: TransferDao.Db, transferId: int, clearance: Level, connection: Result<(), string>,
                           fault: Option<TransferDao.Fault>, now: int)
    ensures var (r, after) := CompleteTransfer(db, transferId, clearance, connection, fault, now);
      (!CheckWriteAccess(clearance, Secret) ==> r == Err(TransferDenied) && after == db)
      && (CheckWriteAccess(clearance, Secret) && transferId <= 0 ==> r == Err(InvalidTransferId) && after == db)
      && (CheckWriteAccess(clearance, Secret) && transferId > 0 ==>
            (r, after) == TransferDao.Complete(db, transferId, connection, fault, now))
  {
  }

  /**
   * A lookup that passes the guards reaches the DAO with a non-empty key of
   * ASCII letters and digits only, drawn in order from the trimmed input.
   */
  lemma LookupKeyIsSanitised<T>(trackingNumber: string, clearance: Level, lookup: string -> Result<T, string>)
    requires AtOrAbove(clearance, Confidential) && !TrimsToEmpty(trackingNumber)
    ensures var key := TrimmedAlphaNum(trackingNumber);
      GetTransferByTracking(Some(trackingNumber), clearance, lookup)
        == (if key == [] then Err(InvalidTrackingFormat) else lookup(key))
      && All(key, IsAlphaNum)
      && (forall c :: c in key ==> c in Trim(trackingNumber))
  {
  }

  /** Below CONFIDENTIAL every lookup is refused, whatever the input; above it a blank number is. */
  lemma LookupGuardOrder<T>(trackingNumber: Option<string>, clearance: Level, lookup: string -> Result<T, string>)
    ensures !AtOrAbove(clearance, Confidential) ==> GetTransferByTracking(trackingNumber, clearance, lookup) == Err(LookupDenied)
    ensures AtOrAbove(clearance, Confidential) && (trackingNumber.None? || TrimsToEmpty(trackingNumber.value)) ==>
              GetTransferByTracking(trackingNumber, clearance, lookup) == Err(TrackingRequired)
  {
  }
}
