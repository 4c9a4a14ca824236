// Facility-to-facility transfers (dao/TransferDAO.java) as a state machine over
// three tables: packages (only their current facility matters here), package
// transfers keyed by transfer id, and inventory records in insertion order.
// The generated transfer id, the current time and the outcome of opening a
// connection are parameters; an SQL failure during initiation or completion
// is a parameter naming the step it strikes and, for a completion, whether
// the rollback that follows succeeds. The join queries behind getPendingTransfers and
// getTransferByTracking are not part of this module.
module TransferDao {
  import opened Wrappers
  import opened ResultModel

  const Pending: string := "pending"
  const Completed: string := "completed"
  const Cancelled: string := "cancelled"
  const InStock: string := "in_stock"
  const Transferred: string := "transferred"
  const CompletedMessage: string := "Transfer completed successfully"
  // Each refusal is the concatenation of two shorter literals: the controller
  // proves which words a refusal lacks, and the verifier settles such facts
  // about two short literals far more cheaply than about one long one.
  const PackageNotFound: string := "Package " + "not found"
  const NoCurrentFacility: string := "Package has no " + "current facility"
  const NotAtSource: string := "Package is not at " + "the source facility"
  const TransferNotFound: string := "Transfer " + "not found"
  const AlreadyCompleted: string := "Transfer " + "already completed"
  const WasCancelled: string := "Transfer was " + "cancelled"

  datatype PackageRow = PackageRow(currentFacility: Option<int>)

  datatype TransferRow = TransferRow(packageId: int, fromFacility: int, toFacility: int, status: string,
                                     initiatedBy: int, completedAt: Option<int>)

  datatype InventoryRow = InventoryRow(facilityId: int, packageId: int, status: string, departure: Option<int>)

  datatype Db = Db(packages: map<int, PackageRow>, transfers: map<int, TransferRow>, inventory: seq<InventoryRow>)

  /**
   * An SQL exception thrown at `step` (0: the lookup, 1-4: the four updates,
   * 5: the commit, 6: turning auto-commit back on after it), and what the
   * catch block's rollback then does.
   */
  datatype Fault = Fault(step: Step, message: string, rollback: RollbackOutcome)

  type Step = s: nat | s <= 6

  /** The catch block's `conn.rollback(); conn.setAutoCommit(true)`. */
  datatype RollbackOutcome =
    | RolledBack                        // both calls return
    | RollbackThrew(message: string)    // `rollback()` throws: the writes so far are not undone
    | AutoCommitThrew(message: string)  // `rollback()` returns, `setAutoCommit(true)` throws

  function CompletionError(message: string): string
  {
    "Database error completing transfer: " + message
  }

  function RollbackFailed(message: string): string
  {
    "Rollback failed: " + message
  }

  function ConnectionFailed(connection: Result<(), string>): string
    requires connection.Err?
  {
    "Database connection failed: " + connection.error
  }

  /** An SQL failure during `initiateTransfer`, at the step it strikes. */
  datatype InitiateFault =
    | VerifyFailed(message: string)   // the location query throws
    | NothingInserted                 // the INSERT reports no row
    | InsertFailed(message: string)   // the INSERT throws
    | NoGeneratedKey                  // the row is in, but no key comes back
    | KeyReadFailed(message: string)  // the row is in, but reading the key throws

  /** The failures that strike after the row is inserted; with auto-commit on, the row stays. */
  predicate KeepsRow(f: InitiateFault)
  {
    f.NoGeneratedKey? || f.KeyReadFailed?
  }

  function InitiateFaultMessage(f: InitiateFault): string
  {
    match f
    case VerifyFailed(m) => "Error verifying package location: " + m
    case NothingInserted => "Failed to create transfer record"
    case InsertFailed(m) => "Database error creating transfer: " + m
    case NoGeneratedKey => "Failed to retrieve transfer ID"
    case KeyReadFailed(m) => "Database error creating transfer: " + m
  }

  /** The tables with one pending transfer added under `newId`. */
  function WithPending(db: Db, packageId: int, fromFacility: int, toFacility: int, initiatedBy: int, newId: int): Db
  {
    db.(transfers := db.transfers[newId := TransferRow(packageId, fromFacility, toFacility, Pending, initiatedBy, None)])
  }

  /**
   * `initiateTransfer`: the package must exist, have a current facility and
   * be at the source; then one pending transfer is inserted under `newId`.
   * A failing location query ends the call before the package is examined;
   * the insert's failures end it after.
   */
  function Initiate(db: Db, packageId: int, fromFacility: int, toFacility: int, initiatedBy: int,
                    connection: Result<(), string>, fault: Option<InitiateFault>, newId: int)
    : (Result<int, string>, Db)
  {
    if connection.Err? then (Err(ConnectionFailed(connection)), db)
    else if fault.Some? && fault.value.VerifyFailed? then (Err(InitiateFaultMessage(fault.value)), db)
    else if packageId !in db.packages then (Err(PackageNotFound), db)
    else if db.packages[packageId].currentFacility.None? then (Err(NoCurrentFacility), db)
    else if db.packages[packageId].currentFacility.value != fromFacility then
      (Err(NotAtSource), db)
    else
      var inserted := WithPending(db, packageId, fromFacility, toFacility, initiatedBy, newId);
      if fault.None? then (Ok(newId), inserted)
      else if KeepsRow(fault.value) then (Err(InitiateFaultMessage(fault.value)), inserted)
      else (Err(InitiateFaultMessage(fault.value)), db)
  }

  /** Step 3: the package's in-stock records at the source are marked transferred, leaving now. */
  function MarkTransferred(inventory: seq<InventoryRow>, packageId: int, fromFacility: int, now: int)
    : (r: seq<InventoryRow>)
    ensures |r| == |inventory|
    ensures forall i :: 0 <= i < |inventory| ==>
      r[i] == if inventory[i].packageId == packageId && inventory[i].facilityId == fromFacility && inventory[i].status == InStock
              then inventory[i].(status := Transferred, departure := Some(now))
              else inventory[i]
  {
    seq(|inventory|, i requires 0 <= i < |inventory| =>
      if inventory[i].packageId == packageId && inventory[i].facilityId == fromFacility && inventory[i].status == InStock
      then inventory[i].(status := Transferred, departure := Some(now))
      else inventory[i])
  }

  /** Step 2: `UPDATE packages ... WHERE package_id = ?` touches no row when the package is gone. */
  function MovePackage(packages: map<int, PackageRow>, packageId: int, toFacility: int): map<int, PackageRow>
  {
    if packageId in packages then packages[packageId := PackageRow(Some(toFacility))] else packages
  }

  /** The four updates of a completion, as one committed transaction. */
  function Apply(db: Db, transferId: int, now: int): Db
    requires transferId in db.transfers
  {
    var t := db.transfers[transferId];
    Db(MovePackage(db.packages, t.packageId, t.toFacility),
       db.transfers[transferId := t.(status := Completed, completedAt := Some(now))],
       MarkTransferred(db.inventory, t.packageId, t.fromFacility, now) + [InventoryRow(t.toFacility, t.packageId, InStock, None)])
  }

  /** The tables once the first `n` of the four updates have run inside the transaction. */
  function Updated(db: Db, transferId: int, now: int, n: nat): (r: Db)
    requires transferId in db.transfers && n <= 4
    ensures n == 0 ==> r == db
    ensures n == 4 ==> r == Apply(db, transferId, now)
  {
    var t := db.transfers[transferId];
    var marked := MarkTransferred(db.inventory, t.packageId, t.fromFacility, now);
    Db(if n >= 2 then MovePackage(db.packages, t.packageId, t.toFacility) else db.packages,
       if n >= 1 then db.transfers[transferId := t.(status := Completed, completedAt := Some(now))] else db.transfers,
       if n == 4 then marked + [InventoryRow(t.toFacility, t.packageId, InStock, None)]
       else if n == 3 then marked else db.inventory)
  }

  /**
   * The catch block: a rollback that returns restores `restored`; one that
   * throws leaves `written`, the tables as the failed step left them, and
   * answers with its own message.
   */
  function Caught(f: Fault, restored: Db, written: Db): (Result<string, string>, Db)
  {
    match f.rollback
    case RolledBack => (Err(CompletionError(f.message)), restored)
    case RollbackThrew(m) => (Err(RollbackFailed(m)), written)
    case AutoCommitThrew(m) => (Err(RollbackFailed(m)), restored)
  }

  /**
   * `completeTransfer`: an unknown, completed or cancelled transfer fails;
   * otherwise the four updates are applied together. An SQL error before the
   * commit is rolled back unless the rollback itself throws; one after the
   * commit finds nothing left to roll back.
   */
  function Complete(db: Db, transferId: int, connection: Result<(), string>, fault: Option<Fault>, now: int)
    : (Result<string, string>, Db)
  {
    if connection.Err? then (Err(ConnectionFailed(connection)), db)
    else if fault.Some? && fault.value.step == 0 then Caught(fault.value, db, db)
    else if transferId !in db.transfers then (Err(TransferNotFound), db)
    else if db.transfers[transferId].status == Completed then (Err(AlreadyCompleted), db)
    else if db.transfers[transferId].status == Cancelled then (Err(WasCancelled), db)
    else if fault.Some? then
      var f := fault.value;
      var written := Updated(db, transferId, now, if f.step <= 4 then f.step - 1 else 4);
      Caught(f, if f.step == 6 then written else db, written)
    else (Ok(CompletedMessage), Apply(db, transferId, now))
  }

  /** The in-stock records of a package. */
  function StockOf(inventory: seq<InventoryRow>, packageId: int): set<int>
  {
    set i | 0 <= i < |inventory| && inventory[i].packageId == packageId && inventory[i].status == InStock
          :: inventory[i].facilityId
  }

  // ---------------------------------------------------------------------------
  // Properties

  /**
   * Initiation succeeds exactly when the connection opens, no SQL failure
   * strikes and the package is currently at the source. The tables change
   * only when the package is at the source and the insert went through: on
   * success, and on the two failures that strike after the insert. Each
   * SQL failure reports its own message.
   */
  lemma InitiateRequiresPackageAtSource(db: Db, packageId: int, fromFacility: int, toFacility: int,
                                        initiatedBy: int, connection: Result<(), string>,
                                        fault: Option<InitiateFault>, newId: int)
    ensures var (r, after) := Initiate(db, packageId, fromFacility, toFacility, initiatedBy, connection, fault, newId);
      var atSource := packageId in db.packages && db.packages[packageId].currentFacility == Some(fromFacility);
      (r.Ok? <==> connection.Ok? && fault.None? && atSource)
      && (r.Ok? ==> r.value == newId)
      && after == (if connection.Ok? && atSource && (fault.None? || KeepsRow(fault.value))
                   then WithPending(db, packageId, fromFacility, toFacility, initiatedBy, newId) else db)
      && (connection.Ok? && fault.Some? && (fault.value.VerifyFailed? || atSource) ==>
            r == Err(InitiateFaultMessage(fault.value)))
  {
  }

  /**
   * A completion that is refused, or that hits an SQL error before the commit
   * which the rollback undoes, leaves all three tables as they were.
   */
  lemma FailedCompletionChangesNothing(db: Db, transferId: int, connection: Result<(), string>,
                                       fault: Option<Fault>, now: int)
    ensures var (r, after) := Complete(db, transferId, connection, fault, now);
      r.Err? && (fault.None? || (fault.value.step != 6 && !fault.value.rollback.RollbackThrew?)) ==> after == db
    ensures var (r, after) := Complete(db, transferId, connection, fault, now);
      r.Ok? <==> connection.Ok? && fault.None? && transferId in db.transfers
                 && db.transfers[transferId].status != Completed && db.transfers[transferId].status != Cancelled
  {
  }

  /**
   * Each SQL error of a completion: before the transfer is looked up, or once
   * it is known to be pending, the answer is the catch block's; the tables
   * keep the updates that ran before the failing step when the rollback
   * throws, all four when the failure follows the commit, and none otherwise.
   */
  lemma CompletionFaultEffects(db: Db, transferId: int, f: Fault, now: int)
    ensures var (r, after) := Complete(db, transferId, Ok(()), Some(f), now);
      var pending := transferId in db.transfers && db.transfers[transferId].status != Completed
                     && db.transfers[transferId].status != Cancelled;
      (f.step == 0 || pending ==>
         r == Err(if f.rollback.RolledBack? then CompletionError(f.message) else RollbackFailed(f.rollback.message)))
      && (f.step == 0 || !pending ==> after == db)
      && (f.step != 0 && pending ==>
            after == if f.step == 6 || f.rollback.RollbackThrew?
                     then Updated(db, transferId, now, if f.step <= 4 then f.step - 1 else 4) else db)
  {
  }

  /**
   * A rollback that throws after the second update leaves the transfer marked
   * completed and the package moved, but the stock records untouched.
   */
  lemma FailedRollbackLeavesPartialCompletion(db: Db, transferId: int, message: string, rollbackMessage: string, now: int)
    requires transferId in db.transfers
    requires db.transfers[transferId].status != Completed && db.transfers[transferId].status != Cancelled
    ensures var t := db.transfers[transferId];
      var (r, after) := Complete(db, transferId, Ok(()), Some(Fault(3, message, RollbackThrew(rollbackMessage))), now);
      r == Err(RollbackFailed(rollbackMessage))
      && after.transfers[transferId].status == Completed
      && (t.packageId in db.packages ==> after.packages[t.packageId] == PackageRow(Some(t.toFacility)))
      && after.inventory == db.inventory
  {
  }

  /**
   * A successful completion marks the transfer completed, moves the package to
   * the destination, retires its in-stock records at the source, and adds
   * exactly one in-stock record at the destination; nothing else changes.
   */
  lemma CompletionEffects(db: Db, transferId: int, now: int)
    requires transferId in db.transfers
    requires db.transfers[transferId].status != Completed && db.transfers[transferId].status != Cancelled
    ensures var t := db.transfers[transferId];
      var (r, after) := Complete(db, transferId, Ok(()), None, now);
      r == Ok(CompletedMessage)
      && after.transfers == db.transfers[transferId := t.(status := Completed, completedAt := Some(now))]
      && (t.packageId in db.packages ==> after.packages == db.packages[t.packageId := PackageRow(Some(t.toFacility))])
      && (t.packageId !in db.packages ==> after.packages == db.packages)
      && |after.inventory| == |db.inventory| + 1
      && after.inventory[|db.inventory|] == InventoryRow(t.toFacility, t.packageId, InStock, None)
      && (forall i :: 0 <= i < |db.inventory| ==>
            (after.inventory[i] != db.inventory[i] <==>
               db.inventory[i].packageId == t.packageId && db.inventory[i].facilityId == t.fromFacility
               && db.inventory[i].status == InStock))
      && (forall i :: 0 <= i < |db.inventory| && after.inventory[i] != db.inventory[i] ==>
            after.inventory[i].status == Transferred && after.inventory[i].departure == Some(now))
  {
  }

  /** A transfer completes at most once: the second attempt reports it already completed. */
  lemma SecondCompletionFails(db: Db, transferId: int, now: int, later: int, fault: Option<Fault>)
    requires Complete(db, transferId, Ok(()), None, now).0.Ok?
    requires fault.None? || fault.value.step != 0
    ensures var after := Complete(db, transferId, Ok(()), None, now).1;
      Complete(after, transferId, Ok(()), fault, later) == (Err(AlreadyCompleted), after)
  {
  }

  /** The stock records the completion leaves for the moved package: the source's are gone, the destination's added. */
  lemma {:induction false} CompletionMovesStock(db: Db, transferId: int, now: int)
    requires transferId in db.transfers
    requires db.transfers[transferId].status != Completed && db.transfers[transferId].status != Cancelled
    requires db.transfers[transferId].fromFacility != db.transfers[transferId].toFacility
    ensures var t := db.transfers[transferId];
      StockOf(Apply(db, transferId, now).inventory, t.packageId) == StockOf(db.inventory, t.packageId) - {t.fromFacility} + {t.toFacility}
  {
    var t := db.transfers[transferId];
    var inv := Apply(db, transferId, now).inventory;
    var marked := MarkTransferred(db.inventory, t.packageId, t.fromFacility, now);
    assert inv == marked + [InventoryRow(t.toFacility, t.packageId, InStock, None)];
    var before := StockOf(db.inventory, t.packageId);
    var expected := before - {t.fromFacility} + {t.toFacility};
    forall f | f in StockOf(inv, t.packageId)
      ensures f in expected
    {
      var i :| 0 <= i < |inv| && inv[i].packageId == t.packageId && inv[i].status == InStock && inv[i].facilityId == f;
      if i < |db.inventory| {
        assert inv[i] == marked[i];
        assert f in before;
      }
    }
    forall f | f in expected
      ensures f in StockOf(inv, t.packageId)
    {
      if f == t.toFacility {
        assert inv[|db.inventory|].facilityId == f;
      } else {
        var i :| 0 <= i < |db.inventory| && db.inventory[i].packageId == t.packageId
                 && db.inventory[i].status == InStock && db.inventory[i].facilityId == f;
        assert inv[i] == marked[i] == db.inventory[i];
      }
    }
  }

  /**
   * Nothing ties a completion to where the package is now: two transfers
   * initiated from the same facility and completed in turn leave the package
   * in stock at both destinations.
   */
  lemma StaleCompletionDuplicatesStock(packageId: int, a: int, b: int, c: int, t1: int, t2: int, user: int, now: int)
    requires a != b && a != c && b != c && t1 != t2
    ensures var db0 := Db(map[packageId := PackageRow(Some(a))], map[], [InventoryRow(a, packageId, InStock, None)]);
      var (r1, db1) := Initiate(db0, packageId, a, b, user, Ok(()), None, t1);
      var (r2, db2) := Initiate(db1, packageId, a, c, user, Ok(()), None, t2);
      var (r3, db3) := Complete(db2, t1, Ok(()), None, now);
      var (r4, db4) := Complete(db3, t2, Ok(()), None, now);
      r1.Ok? && r2.Ok? && r3.Ok? && r4.Ok? && StockOf(db4.inventory, packageId) == {b, c}
  {
    var db0 := Db(map[packageId := PackageRow(Some(a))], map[], [InventoryRow(a, packageId, InStock, None)]);
    var db1 := Initiate(db0, packageId, a, b, user, Ok(()), None, t1).1;
    var db2 := Initiate(db1, packageId, a, c, user, Ok(()), None, t2).1;
    assert db2.transfers[t1].status == Pending && db2.transfers[t2].status == Pending;
    var db3 := Complete(db2, t1, Ok(()), None, now).1;
    CompletionMovesStock(db2, t1, now);
    assert StockOf(db2.inventory, packageId) == {a} by {
      assert db2.inventory == db0.inventory;
      assert db0.inventory[0].facilityId == a;
    }
    assert db3.transfers[t2] == db2.transfers[t2];
    CompletionMovesStock(db3, t2, now);
  }

  /** The three tables, as an object; `nextTransferId` stands for the auto-increment counter. */
  class TransferDao {
    var packages: map<int, PackageRow>
    var transfers: map<int, TransferRow>
    var inventory: seq<InventoryRow>
    var nextTransferId: int

    function State(): Db
      reads this
    {
      Db(packages, transfers, inventory)
    }

    ghost predicate Valid()
      reads this
    {
      forall id :: id in transfers ==> id < nextTransferId
    }

    constructor(db: Db, nextId: int)
      requires forall id :: id in db.transfers ==> id < nextId
      ensures State() == db && nextTransferId == nextId && Valid()
    {
      packages := db.packages;
      transfers := db.transfers;
      inventory := db.inventory;
      nextTransferId := nextId;
    }

    /**
     * The insert takes the next auto-increment key, which is used up once the
     * row is in, even when the key then fails to come back.
     */
    method InitiateTransfer(packageId: int, fromFacility: int, toFacility: int, initiatedBy: int,
                            connection: Result<(), string>, fault: Option<InitiateFault>) returns (r: Result<int, string>)
      requires Valid()
      modifies this
      ensures Valid()
      ensures (r, State()) == Initiate(old(State()), packageId, fromFacility, toFacility, initiatedBy, connection, fault,
                                       old(nextTransferId))
      ensures r.Ok? ==> old(nextTransferId) !in old(transfers)
      ensures State() != old(State()) ==> old(nextTransferId) !in old(transfers)
    {
      if connection.Err? {
        return Err("Database connection failed: " + connection.error);
      }
      if fault.Some? && fault.value.VerifyFailed? {
        return Err(InitiateFaultMessage(fault.value));
      }
      if packageId !in packages {
        return Err(PackageNotFound);
      }
      var currentFacility := packages[packageId].currentFacility;
      if currentFacility.None? {
        return Err(NoCurrentFacility);
      }
      if currentFacility.value != fromFacility {
        return Err(NotAtSource);
      }
      if fault.Some? && !KeepsRow(fault.value) {
        return Err(InitiateFaultMessage(fault.value));
      }
      var transferId := nextTransferId;
      transfers := transfers[transferId := TransferRow(packageId, fromFacility, toFacility, Pending, initiatedBy, None)];
      nextTransferId := nextTransferId + 1;
      if fault.Some? {
        return Err(InitiateFaultMessage(fault.value));
      }
      return Ok(transferId);
    }

    /** A `conn.rollback()` that returns: the tables go back to the snapshot taken when the transaction began. */
    method Rollback(snapshot: Db)
      modifies this
      ensures State() == snapshot && nextTransferId == old(nextTransferId)
    {
      packages, transfers, inventory := snapshot.packages, snapshot.transfers, snapshot.inventory;
    }

    /** The catch block: roll back to `snapshot` unless the rollback throws, then turn auto-commit back on. */
    method Recover(f: Fault, snapshot: Db) returns (r: Result<string, string>)
      modifies this
      ensures nextTransferId == old(nextTransferId)
      ensures (r, State()) == Caught(f, snapshot, old(State()))
    {
      match f.rollback
      case RollbackThrew(m) =>
        return Err(RollbackFailed(m));
      case RolledBack =>
        Rollback(snapshot);
        return Err(CompletionError(f.message));
      case AutoCommitThrew(m) =>
        Rollback(snapshot);
        return Err(RollbackFailed(m));
    }

    /**
     * The transaction: a snapshot is taken when it starts, the four updates
     * run one after the other, and a fault hands the snapshot to the catch
     * block; after the commit the committed tables are all there is to restore.
     */
    method CompleteTransfer(transferId: int, connection: Result<(), string>, fault: Option<Fault>, now: int)
      returns (r: Result<string, string>)
      requires Valid()
      modifies this
      ensures Valid() && nextTransferId == old(nextTransferId)
      ensures (r, State()) == Complete(old(State()), transferId, connection, fault, now)
    {
      if connection.Err? {
        return Err("Database connection failed: " + connection.error);
      }
      var snapshot := State();
      if fault.Some? && fault.value.step == 0 {
        r := Recover(fault.value, snapshot);
        return;
      }
      if transferId !in transfers {
        return Err(TransferNotFound);
      }
      var t := transfers[transferId];
      if t.status == Completed {
        return Err(AlreadyCompleted);
      }
      if t.status == Cancelled {
        return Err(WasCancelled);
      }
      // 1. the transfer is completed
      if fault.Some? && fault.value.step == 1 {
        r := Recover(fault.value, snapshot);
        return;
      }
      transfers := transfers[transferId := t.(status := Completed, completedAt := Some(now))];
      // 2. the package moves
      if fault.Some? && fault.value.step == 2 {
        r := Recover(fault.value, snapshot);
        return;
      }
      packages := MovePackage(packages, t.packageId, t.toFacility);
      // 3. its stock at the source is retired
      if fault.Some? && fault.value.step == 3 {
        r := Recover(fault.value, snapshot);
        return;
      }
      inventory := MarkTransferred(inventory, t.packageId, t.fromFacility, now);
      // 4. new stock at the destination
      if fault.Some? && fault.value.step == 4 {
        r := Recover(fault.value, snapshot);
        return;
      }
      inventory := inventory + [InventoryRow(t.toFacility, t.packageId, InStock, None)];
      // the commit
      if fault.Some? && fault.value.step == 5 {
        r := Recover(fault.value, snapshot);
        return;
      }
      // auto-commit back on: the commit stands
      if fault.Some? {
        r := Recover(fault.value, State());
        return;
      }
      return Ok(CompletedMessage);
    }
  }
}
