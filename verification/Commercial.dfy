/**
  Contracts, their allocations to projects, and the receipts collected against them:
  backend/app/features/commercial.py over the tables of backend/migrations/006_commercial_finance.sql.

  A request is one transaction. `Db` is the three tables and each handler is a function on them;
  the class at the end has the handlers' loops, proved against those functions.
*/
module Commercial {
  datatype Option<T> = None | Some(value: T)

  type Positive = x: int | 0 < x witness 1

  datatype Error =
    | NotFound | RevisionConflict | Invalid | AmountLocked | FormalFieldsLocked | SigningRequirements
    | InvalidTransition | Referenced | ContractRequired | ContractAmbiguous | AllocationExceeded | NotActive

  datatype Result<T> = Ok(value: T) | Err(error: Error)

  datatype Status = Draft | Signed | Completed | Terminated

  /** `formal` stands for number, title, customer and linked documents. Dates count days. */
  datatype Contract = Contract(
    status: Status, revision: nat, total: nat, signedOn: Option<int>, deliveryOn: Option<int>, formal: string)

  datatype Share = Share(project: nat, amount: Positive)

  datatype Allocation = Allocation(id: nat, contract: nat, share: Share)

  datatype Milestone = Advance | Progress | Final

  /** A receipt row; its identifier is its position. Rows from before contracts have no allocation. */
  datatype Receipt = Receipt(
    project: nat, allocation: Option<nat>, milestone: Milestone, receivedOn: int, amount: Positive,
    active: bool, revision: nat)

  datatype Db = Db(contracts: map<nat, Contract>, allocations: seq<Allocation>, receipts: seq<Receipt>)

  /** A contract payload, with the checks of a single field already made. */
  datatype Payload = Payload(
    total: nat, signedOn: Option<int>, deliveryOn: Option<int>, formal: string, shares: seq<Share>)

  predicate Effective(status: Status) {
    status == Signed || status == Completed
  }

  predicate Locked(status: Status) {
    status != Draft
  }

  // Rows and sums.

  function SharesOf(allocations: seq<Allocation>, contract: nat): (r: seq<Share>) {
    if allocations == [] then []
    else
      var last := allocations[|allocations| - 1];
      SharesOf(allocations[..|allocations| - 1], contract) + if last.contract == contract then [last.share] else []
  }

  function Total(shares: seq<Share>): (r: nat) {
    if shares == [] then 0 else Total(shares[..|shares| - 1]) + shares[|shares| - 1].amount
  }

  function Without(allocations: seq<Allocation>, contract: nat): (r: seq<Allocation>)
  {
    if allocations == [] then []
    else
      var last := allocations[|allocations| - 1];
      Without(allocations[..|allocations| - 1], contract) + if last.contract == contract then [] else [last]
  }

  /** SQLite gives an INTEGER PRIMARY KEY one more than the largest in use, so a deleted id can come back. */
  function NextId(allocations: seq<Allocation>): (r: nat)
  {
    if allocations == [] then 1
    else
      var last := allocations[|allocations| - 1];
      var before := NextId(allocations[..|allocations| - 1]);
      if last.id < before then before else last.id + 1
  }

  lemma {:induction false} NextIdIsOnePastTheLargest(allocations: seq<Allocation>)
    ensures forall a :: a in allocations ==> a.id < NextId(allocations)
    ensures NextId(allocations) == 1 || exists a :: a in allocations && NextId(allocations) == a.id + 1
  {
    if allocations != [] {
      NextIdIsOnePastTheLargest(allocations[..|allocations| - 1]);
      assert allocations == allocations[..|allocations| - 1] + [allocations[|allocations| - 1]];
    }
  }

  function InsertShares(allocations: seq<Allocation>, contract: nat, shares: seq<Share>): (r: seq<Allocation>)
    decreases |shares|
  {
    if shares == [] then allocations
    else
      var before := InsertShares(allocations, contract, shares[..|shares| - 1]);
      before + [Allocation(NextId(before), contract, shares[|shares| - 1])]
  }

  /** Active receipts on one allocation. */
  function ReceivedOn(receipts: seq<Receipt>, allocation: nat): (r: nat) {
    if receipts == [] then 0
    else
      var last := receipts[|receipts| - 1];
      ReceivedOn(receipts[..|receipts| - 1], allocation)
        + if last.active && last.allocation == Some(allocation) then last.amount else 0
  }

  /** Everything collected over a contract's allocations. */
  function Collected(db: Db, allocations: seq<Allocation>, contract: nat): (r: nat) {
    if allocations == [] then 0
    else
      var last := allocations[|allocations| - 1];
      Collected(db, allocations[..|allocations| - 1], contract)
        + if last.contract == contract then ReceivedOn(db.receipts, last.id) else 0
  }

  // Contracts.

  /** _contract_row: the contract, if it has an allocation to this project. */
  predicate Visible(db: Db, project: nat, contract: nat) {
    contract in db.contracts && exists a :: a in db.allocations && a.contract == contract && a.share.project == project
  }

  predicate Includes(shares: seq<Share>, project: nat) {
    exists s :: s in shares && s.project == project
  }

  predicate SigningValues(signedOn: Option<int>, deliveryOn: Option<int>, total: nat, shares: seq<Share>) {
    signedOn.Some? && deliveryOn.Some? && shares != [] && Total(shares) == total
  }

  /** Equal as the mappings from project to amount that they are, no project being named twice. */
  predicate SameAmounts(a: seq<Share>, b: seq<Share>) {
    (set s | s in a) == (set s | s in b)
  }

  /** The contract row written, and its allocations deleted and inserted anew. */
  function Replaced(db: Db, id: nat, c: Contract, shares: seq<Share>): (r: Db) {
    db.(contracts := db.contracts[id := c], allocations := InsertShares(Without(db.allocations, id), id, shares))
  }

  function DraftOf(p: Payload, revision: nat): (r: Contract) {
    Contract(Draft, revision, p.total, p.signedOn, p.deliveryOn, p.formal)
  }

  /** A contract past draft keeps everything but its notes. */
  function Annotated(db: Db, id: nat): (r: Db)
    requires id in db.contracts
  {
    var c := db.contracts[id];
    db.(contracts := db.contracts[id := c.(revision := c.revision + 1)])
  }

  function CreateContract(db: Db, project: nat, id: nat, p: Payload): (r: Result<Db>)
    requires id !in db.contracts
  {
    if !Includes(p.shares, project) then Err(Invalid)
    else Ok(Replaced(db, id, DraftOf(p, 1), p.shares))
  }

  /** The checks of update_contract, in order. */
  function UpdateRefusal(db: Db, project: nat, id: nat, expectedRevision: nat, p: Payload): (r: Option<Error>) {
    if !Visible(db, project, id) then Some(NotFound)
    else
      var c := db.contracts[id];
      if c.revision != expectedRevision then Some(RevisionConflict)
      else if !Includes(p.shares, project) then Some(Invalid)
      else if Locked(c.status) && (c.total != p.total || !SameAmounts(SharesOf(db.allocations, id), p.shares)) then
        Some(AmountLocked)
      else if Locked(c.status) && (c.formal, c.signedOn, c.deliveryOn) != (p.formal, p.signedOn, p.deliveryOn) then
        Some(FormalFieldsLocked)
      else if Effective(c.status) && !SigningValues(p.signedOn, p.deliveryOn, p.total, p.shares) then
        Some(SigningRequirements)
      else None
  }

  function UpdateContract(db: Db, project: nat, id: nat, expectedRevision: nat, p: Payload): (r: Result<Db>) {
    var refusal := UpdateRefusal(db, project, id, expectedRevision, p);
    if refusal.Some? then Err(refusal.value)
    else if Locked(db.contracts[id].status) then Ok(Annotated(db, id))
    else if exists a :: a in db.allocations && a.contract == id && HasReceipt(db.receipts, a.id) then Err(Referenced)
    else Ok(Replaced(db, id, DraftOf(p, expectedRevision + 1), p.shares))
  }

  predicate HasReceipt(receipts: seq<Receipt>, allocation: nat) {
    exists k :: 0 <= k < |receipts| && receipts[k].allocation == Some(allocation)
  }

  predicate Allowed(from: Status, to: Status) {
    || (from == Draft && (to == Signed || to == Terminated))
    || (from == Signed && (to == Completed || to == Terminated))
  }

  function TransitionContract(db: Db, project: nat, id: nat, expectedRevision: nat, to: Status): (r: Result<Db>) {
    if !Visible(db, project, id) then Err(NotFound)
    else
      var c := db.contracts[id];
      if c.revision != expectedRevision then Err(RevisionConflict)
      else if !Allowed(c.status, to) then Err(InvalidTransition)
      else if to == Signed && !SigningValues(c.signedOn, c.deliveryOn, c.total, SharesOf(db.allocations, id)) then
        Err(SigningRequirements)
      else Ok(db.(contracts := db.contracts[id := c.(status := to, revision := c.revision + 1)]))
  }

  // Receipts.

  /** The project's allocations under contracts in force. */
  function EffectiveAllocations(db: Db, allocations: seq<Allocation>, project: nat): (r: seq<Allocation>)
  {
    if allocations == [] then []
    else
      var last := allocations[|allocations| - 1];
      EffectiveAllocations(db, allocations[..|allocations| - 1], project)
        + if last.share.project == project && last.contract in db.contracts && Effective(db.contracts[last.contract].status)
          then [last] else []
  }

  /** _resolve_receipt_allocation. */
  function ResolveAllocation(db: Db, project: nat, requested: Option<nat>): (r: Result<Allocation>)
  {
    var rows := EffectiveAllocations(db, db.allocations, project);
    if requested.Some? then
      if exists k :: 0 <= k < |rows| && rows[k].id == requested.value then Ok(RowWithId(rows, requested.value)) else Err(Invalid)
    else if |rows| == 1 then Ok(rows[0])
    else if rows == [] then Err(ContractRequired)
    else Err(ContractAmbiguous)
  }

  function RowWithId(rows: seq<Allocation>, id: nat): (r: Allocation)
    requires exists k :: 0 <= k < |rows| && rows[k].id == id
    ensures r in rows && r.id == id
  {
    if rows[0].id == id then rows[0] else RowWithId(rows[1..], id)
  }

  lemma {:induction false} EffectiveMembers(db: Db, allocations: seq<Allocation>, project: nat, a: Allocation)
    requires a in EffectiveAllocations(db, allocations, project)
    ensures a in allocations && a.share.project == project
    ensures a.contract in db.contracts && Effective(db.contracts[a.contract].status)
  {
    var n := |allocations| - 1;
    if a in EffectiveAllocations(db, allocations[..n], project) {
      EffectiveMembers(db, allocations[..n], project, a);
    }
  }

  /** A receipt only ever lands on an allocation of its project under a contract in force. */
  lemma ResolvedIsEffective(db: Db, project: nat, requested: Option<nat>)
    requires ResolveAllocation(db, project, requested).Ok?
    ensures var a := ResolveAllocation(db, project, requested).value;
      && a in db.allocations && a.share.project == project && (requested.Some? ==> a.id == requested.value)
      && a.contract in db.contracts && Effective(db.contracts[a.contract].status)
  {
    EffectiveMembers(db, db.allocations, project, ResolveAllocation(db, project, requested).value);
  }

  function CreateReceipt(db: Db, project: nat, requested: Option<nat>, milestone: Milestone, receivedOn: int, amount: Positive)
    : (r: Result<Db>)
  {
    var a := ResolveAllocation(db, project, requested);
    if a.Err? then Err(a.error)
    else if amount > a.value.share.amount - ReceivedOn(db.receipts, a.value.id) then Err(AllocationExceeded)
    else Ok(db.(receipts := db.receipts + [Receipt(project, Some(a.value.id), milestone, receivedOn, amount, true, 1)]))
  }

  function VoidReceipt(db: Db, project: nat, id: nat, expectedRevision: nat, voidedOn: int): (r: Result<Db>) {
    if id >= |db.receipts| || db.receipts[id].project != project then Err(NotFound)
    else
      var row := db.receipts[id];
      if row.revision != expectedRevision then Err(RevisionConflict)
      else if !row.active then Err(NotActive)
      else if voidedOn < row.receivedOn then Err(Invalid)
      else Ok(db.(receipts := db.receipts[id := row.(active := false, revision := row.revision + 1)]))
  }

  // The invariant.

  ghost predicate IdsApart(allocations: seq<Allocation>) {
    forall i, j :: 0 <= i < j < |allocations| ==> allocations[i].id != allocations[j].id
  }

  ghost predicate RowsHold(db: Db) {
    && IdsApart(db.allocations)
    && (forall a :: a in db.allocations ==> a.contract in db.contracts)
  }

  /** A contract in force is fully allocated. */
  ghost predicate SignedAddUp(db: Db) {
    forall c :: c in db.contracts && Effective(db.contracts[c].status) ==> AddsUp(db, c)
  }

  ghost predicate AddsUp(db: Db, c: nat)
    requires c in db.contracts
  {
    Total(SharesOf(db.allocations, c)) == db.contracts[c].total
  }

  /** A receipt belongs to a live allocation of its own project, under a locked and fully allocated contract. */
  ghost predicate ReceiptHolds(db: Db, r: Receipt) {
    && r.allocation.Some?
    && exists a :: a in db.allocations && a.id == r.allocation.value && a.share.project == r.project
                   && a.contract in db.contracts && Locked(db.contracts[a.contract].status) && AddsUp(db, a.contract)
  }

  ghost predicate ReceiptsHold(db: Db) {
    forall k :: 0 <= k < |db.receipts| ==> ReceiptHolds(db, db.receipts[k])
  }

  ghost predicate WithinAllocations(db: Db) {
    forall a :: a in db.allocations ==> ReceivedOn(db.receipts, a.id) <= a.share.amount
  }

  ghost predicate Invariant(db: Db) {
    RowsHold(db) && SignedAddUp(db) && ReceiptsHold(db) && WithinAllocations(db)
  }

  // What replacing a contract's allocations does to the sums.

  lemma {:induction false} SharesAfterWithout(allocations: seq<Allocation>, contract: nat, other: nat)
    ensures SharesOf(Without(allocations, contract), other)
         == if other == contract then [] else SharesOf(allocations, other)
  {
    if allocations != [] {
      var front, last := allocations[..|allocations| - 1], allocations[|allocations| - 1];
      SharesAfterWithout(front, contract, other);
      var kept := Without(front, contract);
      assert (kept + [last])[..|kept|] == kept;
      assert kept + [] == kept;
    }
  }

  lemma {:induction false} SharesAfterInsert(allocations: seq<Allocation>, contract: nat, shares: seq<Share>, other: nat)
    ensures SharesOf(InsertShares(allocations, contract, shares), other)
         == SharesOf(allocations, other) + if other == contract then shares else []
    decreases |shares|
  {
    if shares != [] {
      var front := shares[..|shares| - 1];
      SharesAfterInsert(allocations, contract, front, other);
      var before := InsertShares(allocations, contract, front);
      assert InsertShares(allocations, contract, shares)[..|before|] == before;
      assert shares == front + [shares[|shares| - 1]];
    }
  }

  lemma {:induction false} WithoutMembers(allocations: seq<Allocation>, contract: nat)
    ensures forall a :: a in Without(allocations, contract) <==> a in allocations && a.contract != contract
  {
    if allocations != [] {
      var front, last := allocations[..|allocations| - 1], allocations[|allocations| - 1];
      WithoutMembers(front, contract);
      assert allocations == front + [last];
    }
  }

  lemma {:induction false} NextIdIsUnused(allocations: seq<Allocation>)
    ensures forall a :: a in allocations ==> a.id < NextId(allocations)
  {
    if allocations != [] {
      var front, last := allocations[..|allocations| - 1], allocations[|allocations| - 1];
      NextIdIsUnused(front);
      assert allocations == front + [last];
    }
  }

  lemma {:induction false} WithoutKeepsIdsApart(allocations: seq<Allocation>, contract: nat)
    requires IdsApart(allocations)
    ensures IdsApart(Without(allocations, contract))
  {
    if allocations != [] {
      var front, last := allocations[..|allocations| - 1], allocations[|allocations| - 1];
      WithoutKeepsIdsApart(front, contract);
      WithoutMembers(front, contract);
      assert forall a :: a in Without(front, contract) ==> a in front && a.id != last.id;
    }
  }

  lemma {:induction false} InsertKeepsIdsApart(allocations: seq<Allocation>, contract: nat, shares: seq<Share>)
    requires IdsApart(allocations)
    ensures var all := InsertShares(allocations, contract, shares);
      && |all| >= |allocations| && all[..|allocations|] == allocations
      && IdsApart(all)
      && (forall k :: |allocations| <= k < |all| ==> all[k].contract == contract)
    decreases |shares|
  {
    if shares != [] {
      InsertKeepsIdsApart(allocations, contract, shares[..|shares| - 1]);
      NextIdIsUnused(InsertShares(allocations, contract, shares[..|shares| - 1]));
    }
  }

  lemma {:induction false} NothingReceived(receipts: seq<Receipt>, allocation: nat)
    requires forall k :: 0 <= k < |receipts| ==> receipts[k].allocation != Some(allocation)
    ensures ReceivedOn(receipts, allocation) == 0
  {
    if receipts != [] {
      NothingReceived(receipts[..|receipts| - 1], allocation);
    }
  }

  // Each request keeps the invariant.

  lemma ReplacedShares(db: Db, id: nat, c: Contract, shares: seq<Share>, other: nat)
    ensures SharesOf(Replaced(db, id, c, shares).allocations, other)
         == if other == id then shares else SharesOf(db.allocations, other)
  {
    SharesAfterWithout(db.allocations, id, other);
    SharesAfterInsert(Without(db.allocations, id), id, shares, other);
  }

  lemma ReplacedRows(db: Db, id: nat, c: Contract, shares: seq<Share>)
    requires RowsHold(db)
    ensures RowsHold(Replaced(db, id, c, shares))
    ensures forall a :: a in db.allocations && a.contract != id ==> a in Replaced(db, id, c, shares).allocations
    ensures forall a :: a in Replaced(db, id, c, shares).allocations && a.contract != id ==> a in db.allocations
  {
    hide InsertShares, Without, NextId;
    var kept, next := Without(db.allocations, id), Replaced(db, id, c, shares);
    WithoutKeepsIdsApart(db.allocations, id);
    WithoutMembers(db.allocations, id);
    InsertKeepsIdsApart(kept, id, shares);
    assert next.allocations == kept + next.allocations[|kept|..];
  }

  lemma ReplacedReceipts(db: Db, id: nat, c: Contract, shares: seq<Share>)
    requires Invariant(db) && (id in db.contracts ==> db.contracts[id].status == Draft)
    ensures ReceiptsHold(Replaced(db, id, c, shares))
  {
    var next := Replaced(db, id, c, shares);
    ReplacedRows(db, id, c, shares);
    forall k | 0 <= k < |db.receipts| ensures ReceiptHolds(next, db.receipts[k]) {
      var r := db.receipts[k];
      assert ReceiptHolds(db, r);
      var a :| a in db.allocations && a.id == r.allocation.value && a.share.project == r.project
               && a.contract in db.contracts && Locked(db.contracts[a.contract].status) && AddsUp(db, a.contract);
      ReplacedShares(db, id, c, shares, a.contract);
      assert a in next.allocations && AddsUp(next, a.contract);
    }
  }

  lemma ReplacedWithin(db: Db, id: nat, c: Contract, shares: seq<Share>)
    requires Invariant(db) && (id in db.contracts ==> db.contracts[id].status == Draft)
    ensures WithinAllocations(Replaced(db, id, c, shares))
  {
    var next := Replaced(db, id, c, shares);
    ReplacedRows(db, id, c, shares);
    forall a | a in next.allocations ensures ReceivedOn(next.receipts, a.id) <= a.share.amount {
      if a.contract == id {
        InsertedHasNoReceipts(db, next, a);
      }
    }
  }

  /** An allocation that does not survive in the old rows under another contract has nothing on it. */
  lemma InsertedHasNoReceipts(db: Db, next: Db, a: Allocation)
    requires ReceiptsHold(db) && IdsApart(next.allocations) && a in next.allocations
    requires a.contract in db.contracts ==> db.contracts[a.contract].status == Draft
    requires forall b :: b in db.allocations && b.contract != a.contract ==> b in next.allocations
    ensures ReceivedOn(db.receipts, a.id) == 0
  {
    forall k | 0 <= k < |db.receipts| ensures db.receipts[k].allocation != Some(a.id) {
      assert ReceiptHolds(db, db.receipts[k]);
      var b :| b in db.allocations && b.id == db.receipts[k].allocation.value
               && b.contract in db.contracts && Locked(db.contracts[b.contract].status);
      assert Locked(db.contracts[b.contract].status);
      assert b.contract != a.contract;
      assert b in next.allocations;
    }
    NothingReceived(db.receipts, a.id);
  }

  lemma ReplacementKeeps(db: Db, id: nat, c: Contract, shares: seq<Share>)
    requires Invariant(db) && (id in db.contracts ==> db.contracts[id].status == Draft) && c.status == Draft
    ensures Invariant(Replaced(db, id, c, shares))
  {
    var next := Replaced(db, id, c, shares);
    ReplacedRows(db, id, c, shares);
    ReplacedReceipts(db, id, c, shares);
    ReplacedWithin(db, id, c, shares);
    forall other | other in next.contracts && Effective(next.contracts[other].status) ensures AddsUp(next, other) {
      ReplacedShares(db, id, c, shares, other);
      assert AddsUp(db, other);
    }
  }

  /** Contracts may change in everything but the total as long as locked ones stay locked. */
  lemma StatusChangeKeeps(db: Db, id: nat, c: Contract)
    requires Invariant(db) && id in db.contracts && c.total == db.contracts[id].total
    requires Locked(db.contracts[id].status) ==> Locked(c.status)
    requires Effective(c.status) ==> AddsUp(db, id)
    ensures Invariant(db.(contracts := db.contracts[id := c]))
  {
    hide SharesOf, Total, ReceivedOn;
    var next := db.(contracts := db.contracts[id := c]);
    forall k | 0 <= k < |db.receipts| ensures ReceiptHolds(next, db.receipts[k]) {
      var r := db.receipts[k];
      assert ReceiptHolds(db, r);
      var a :| a in db.allocations && a.id == r.allocation.value && a.share.project == r.project
               && a.contract in db.contracts && Locked(db.contracts[a.contract].status) && AddsUp(db, a.contract);
      assert AddsUp(next, a.contract);
    }
    forall other | other in next.contracts && Effective(next.contracts[other].status) ensures AddsUp(next, other) {
      if other != id {
        assert AddsUp(db, other);
      }
    }
  }

  /** No draft contract has a receipt, so replacing its allocations is never refused for one. */
  lemma DraftsHaveNoReceipts(db: Db, a: Allocation)
    requires Invariant(db) && a in db.allocations && db.contracts[a.contract].status == Draft
    ensures !HasReceipt(db.receipts, a.id)
  {
    forall k | 0 <= k < |db.receipts| ensures db.receipts[k].allocation != Some(a.id) {
      assert ReceiptHolds(db, db.receipts[k]);
      var b :| b in db.allocations && b.id == db.receipts[k].allocation.value
               && b.contract in db.contracts && Locked(db.contracts[b.contract].status);
    }
  }

  lemma NoDraftReceipts(db: Db, contract: nat)
    requires Invariant(db) && contract in db.contracts && db.contracts[contract].status == Draft
    ensures forall a :: a in db.allocations && a.contract == contract ==> !HasReceipt(db.receipts, a.id)
  {
    forall a | a in db.allocations && a.contract == contract ensures !HasReceipt(db.receipts, a.id) {
      DraftsHaveNoReceipts(db, a);
    }
  }

  lemma NewReceiptKeeps(db: Db, a: Allocation, r: Receipt)
    requires Invariant(db) && a in db.allocations && Effective(db.contracts[a.contract].status)
    requires r.allocation == Some(a.id) && r.project == a.share.project && r.active
    requires r.amount <= a.share.amount - ReceivedOn(db.receipts, a.id)
    ensures Invariant(db.(receipts := db.receipts + [r]))
  {
    var next := db.(receipts := db.receipts + [r]);
    NewReceiptWithin(db, a, r);
    EffectiveAddsUp(db, a.contract);
    hide SharesOf, Total, WithinAllocations;
    assert AddsUp(next, a.contract);
    assert ReceiptHolds(next, r);
    forall k | 0 <= k < |db.receipts| ensures ReceiptHolds(next, db.receipts[k]) {
      SameReceiptHolds(db, next, db.receipts[k]);
    }
  }

  lemma NewReceiptWithin(db: Db, a: Allocation, r: Receipt)
    requires RowsHold(db) && WithinAllocations(db) && a in db.allocations && r.allocation == Some(a.id) && r.active
    requires r.amount <= a.share.amount - ReceivedOn(db.receipts, a.id)
    ensures WithinAllocations(db.(receipts := db.receipts + [r]))
  {
    assert (db.receipts + [r])[..|db.receipts|] == db.receipts;
  }

  lemma SameReceiptHolds(db: Db, next: Db, r: Receipt)
    requires ReceiptsHold(db) && r in db.receipts
    requires next.contracts == db.contracts && next.allocations == db.allocations
    ensures ReceiptHolds(next, r)
  {
    assert ReceiptHolds(db, r);
    var a :| a in db.allocations && a.id == r.allocation.value && a.share.project == r.project
             && a.contract in db.contracts && Locked(db.contracts[a.contract].status) && AddsUp(db, a.contract);
    assert AddsUp(next, a.contract);
  }

  lemma {:induction false} VoidingOnlyLowers(receipts: seq<Receipt>, id: nat, r: Receipt, allocation: nat)
    requires id < |receipts| && !r.active
    ensures ReceivedOn(receipts[id := r], allocation) <= ReceivedOn(receipts, allocation)
  {
    var n := |receipts| - 1;
    if id < n {
      VoidingOnlyLowers(receipts[..n], id, r, allocation);
      assert receipts[id := r][..n] == receipts[..n][id := r];
    } else {
      assert receipts[id := r][..n] == receipts[..n];
    }
  }

  lemma VoidKeeps(db: Db, id: nat, r: Receipt)
    requires Invariant(db) && id < |db.receipts| && !r.active
    requires r.allocation == db.receipts[id].allocation && r.project == db.receipts[id].project
    ensures Invariant(db.(receipts := db.receipts[id := r]))
  {
    var next := db.(receipts := db.receipts[id := r]);
    forall k | 0 <= k < |next.receipts| ensures ReceiptHolds(next, next.receipts[k]) {
      SameReceiptHolds(db, next, db.receipts[k]);
      assert ReceiptHolds(next, db.receipts[k]);
    }
    forall a | a in next.allocations ensures ReceivedOn(next.receipts, a.id) <= a.share.amount {
      VoidingOnlyLowers(db.receipts, id, r, a.id);
    }
  }

  // Runs.

  datatype Request =
    | Create(project: nat, id: nat, payload: Payload)
    | Update(project: nat, id: nat, expectedRevision: nat, payload: Payload)
    | Transition(project: nat, id: nat, expectedRevision: nat, to: Status)
    | Receive(project: nat, requested: Option<nat>, milestone: Milestone, receivedOn: int, amount: Positive)
    | Void(project: nat, receipt: nat, expectedRevision: nat, voidedOn: int)

  function Answer(db: Db, request: Request): (r: Result<Db>) {
    match request
    case Create(project, id, p) => if id in db.contracts then Err(Invalid) else CreateContract(db, project, id, p)
    case Update(project, id, revision, p) => UpdateContract(db, project, id, revision, p)
    case Transition(project, id, revision, to) => TransitionContract(db, project, id, revision, to)
    case Receive(project, requested, milestone, on, amount) => CreateReceipt(db, project, requested, milestone, on, amount)
    case Void(project, receipt, revision, on) => VoidReceipt(db, project, receipt, revision, on)
  }

  lemma UpdateKeeps(db: Db, project: nat, id: nat, revision: nat, p: Payload)
    requires Invariant(db) && UpdateContract(db, project, id, revision, p).Ok?
    ensures Invariant(UpdateContract(db, project, id, revision, p).value)
  {
    UpdateOutcomes(db, project, id, revision, p);
    if Locked(db.contracts[id].status) {
      AnnotatedKeeps(db, id);
    } else {
      ReplacementKeeps(db, id, DraftOf(p, revision + 1), p.shares);
    }
  }

  /** An accepted update of a locked contract touches its notes only; a draft is rewritten. */
  lemma UpdateOutcomes(db: Db, project: nat, id: nat, revision: nat, p: Payload)
    requires UpdateContract(db, project, id, revision, p).Ok?
    ensures id in db.contracts && db.contracts[id].revision == revision
    ensures UpdateContract(db, project, id, revision, p).value
         == if Locked(db.contracts[id].status) then Annotated(db, id) else Replaced(db, id, DraftOf(p, revision + 1), p.shares)
  {
  }

  lemma AnnotatedKeeps(db: Db, id: nat)
    requires Invariant(db) && id in db.contracts
    ensures Invariant(Annotated(db, id))
  {
    hide Invariant, AddsUp;
    var c := db.contracts[id];
    EffectiveAddsUp(db, id);
    StatusChangeKeeps(db, id, c.(revision := c.revision + 1));
  }

  lemma EffectiveAddsUp(db: Db, id: nat)
    requires Invariant(db) && id in db.contracts
    ensures Effective(db.contracts[id].status) ==> AddsUp(db, id)
  {
  }

  lemma TransitionKeeps(db: Db, project: nat, id: nat, revision: nat, to: Status)
    requires Invariant(db) && TransitionContract(db, project, id, revision, to).Ok?
    ensures Invariant(TransitionContract(db, project, id, revision, to).value)
  {
    var c := db.contracts[id];
    if c.status == Signed {
      assert AddsUp(db, id);
    }
    StatusChangeKeeps(db, id, c.(status := to, revision := c.revision + 1));
  }

  lemma ReceiptKeeps(db: Db, project: nat, requested: Option<nat>, milestone: Milestone, on: int, amount: Positive)
    requires Invariant(db) && CreateReceipt(db, project, requested, milestone, on, amount).Ok?
    ensures Invariant(CreateReceipt(db, project, requested, milestone, on, amount).value)
  {
    var a := ResolveAllocation(db, project, requested).value;
    ResolvedIsEffective(db, project, requested);
    NewReceiptKeeps(db, a, Receipt(project, Some(a.id), milestone, on, amount, true, 1));
  }

  lemma RequestKeepsInvariant(db: Db, request: Request)
    requires Invariant(db) && Answer(db, request).Ok?
    ensures Invariant(Answer(db, request).value)
  {
    hide Invariant;
    match request
    case Create(project, id, p) => ReplacementKeeps(db, id, DraftOf(p, 1), p.shares);
    case Update(project, id, revision, p) => UpdateKeeps(db, project, id, revision, p);
    case Transition(project, id, revision, to) => TransitionKeeps(db, project, id, revision, to);
    case Receive(project, requested, milestone, on, amount) => ReceiptKeeps(db, project, requested, milestone, on, amount);
    case Void(project, receipt, revision, on) =>
      var row := db.receipts[receipt];
      VoidKeeps(db, receipt, row.(active := false, revision := row.revision + 1));
  }

  /** The tables after a list of requests. */
  function After(db: Db, requests: seq<Request>): (r: Db)
    decreases |requests|
  {
    if requests == [] then db
    else After(Served(db, requests[0]), requests[1..])
  }

  /** A refused request leaves the tables alone. */
  function Served(db: Db, request: Request): (r: Db) {
    var answer := Answer(db, request);
    if answer.Ok? then answer.value else db
  }

  const EMPTY := Db(map[], [], [])

  lemma {:induction false} RunsKeepInvariant(db: Db, requests: seq<Request>)
    requires Invariant(db)
    ensures Invariant(After(db, requests))
    decreases |requests|
  {
    if requests != [] {
      if Answer(db, requests[0]).Ok? {
        RequestKeepsInvariant(db, requests[0]);
      }
      RunsKeepInvariant(Served(db, requests[0]), requests[1..]);
    }
  }

  lemma {:induction false} CollectedWithinShares(db: Db, allocations: seq<Allocation>, contract: nat)
    requires forall a :: a in allocations ==> ReceivedOn(db.receipts, a.id) <= a.share.amount
    ensures Collected(db, allocations, contract) <= Total(SharesOf(allocations, contract))
  {
    if allocations != [] {
      var front, last := allocations[..|allocations| - 1], allocations[|allocations| - 1];
      CollectedWithinShares(db, front, contract);
      var shares := SharesOf(front, contract);
      assert (shares + [last.share])[..|shares|] == shares;
      assert shares + [] == shares;
    }
  }

  lemma {:induction false} NothingCollected(db: Db, allocations: seq<Allocation>, contract: nat)
    requires forall a :: a in allocations && a.contract == contract ==> ReceivedOn(db.receipts, a.id) == 0
    ensures Collected(db, allocations, contract) == 0
  {
    if allocations != [] {
      NothingCollected(db, allocations[..|allocations| - 1], contract);
    }
  }

  /**
    From an empty database, whatever the requests: contracts in force are fully allocated, no
    allocation is overdrawn, and no contract, in force or terminated, ever collects more than its
    total.
  */
  lemma CollectionsNeverExceedTheContract(requests: seq<Request>, contract: nat)
    requires contract in After(EMPTY, requests).contracts
    ensures var db := After(EMPTY, requests);
      && (Effective(db.contracts[contract].status) ==> Total(SharesOf(db.allocations, contract)) == db.contracts[contract].total)
      && (forall a :: a in db.allocations ==> ReceivedOn(db.receipts, a.id) <= a.share.amount)
      && Collected(db, db.allocations, contract) <= db.contracts[contract].total
  {
    var db := After(EMPTY, requests);
    RunsKeepInvariant(EMPTY, requests);
    if Effective(db.contracts[contract].status) {
      assert AddsUp(db, contract);
    }
    CollectedWithinShares(db, db.allocations, contract);
    if !AddsUp(db, contract) {
      forall a | a in db.allocations && a.contract == contract ensures ReceivedOn(db.receipts, a.id) == 0 {
        UnfundedHasNoReceipts(db, a);
      }
      NothingCollected(db, db.allocations, contract);
    }
  }

  lemma UnfundedHasNoReceipts(db: Db, a: Allocation)
    requires Invariant(db) && a in db.allocations && !AddsUp(db, a.contract)
    ensures ReceivedOn(db.receipts, a.id) == 0
  {
    forall k | 0 <= k < |db.receipts| ensures db.receipts[k].allocation != Some(a.id) {
      assert ReceiptHolds(db, db.receipts[k]);
      var b :| b in db.allocations && b.id == db.receipts[k].allocation.value
               && b.contract in db.contracts && AddsUp(db, b.contract);
    }
    NothingReceived(db.receipts, a.id);
  }

  lemma ReplacementSparesOthers(db: Db, id: nat, c: Contract, shares: seq<Share>, other: nat)
    requires Invariant(db) && other != id && other in db.contracts
    ensures var next := Replaced(db, id, c, shares);
      && other in next.contracts && next.contracts[other] == db.contracts[other]
      && SharesOf(next.allocations, other) == SharesOf(db.allocations, other)
      && (forall a :: a in db.allocations && a.contract == other ==> a in next.allocations)
  {
    ReplacedShares(db, id, c, shares, other);
    ReplacedRows(db, id, c, shares);
  }

  /** Once a contract has left draft, no request changes its total or its allocations. */
  lemma LockedContractsAreFixed(db: Db, request: Request, contract: nat)
    requires Invariant(db) && contract in db.contracts && Locked(db.contracts[contract].status)
    requires Answer(db, request).Ok?
    ensures var next := Answer(db, request).value;
      && contract in next.contracts && Locked(next.contracts[contract].status)
      && next.contracts[contract].total == db.contracts[contract].total
      && SharesOf(next.allocations, contract) == SharesOf(db.allocations, contract)
      && (forall a :: a in db.allocations && a.contract == contract ==> a in next.allocations)
  {
    hide UpdateContract, UpdateRefusal, ResolveAllocation, SharesOf, Replaced, Invariant;
    match request
    case Create(project, id, p) => ReplacementSparesOthers(db, id, DraftOf(p, 1), p.shares, contract);
    case Update(project, id, revision, p) =>
      UpdateOutcomes(db, project, id, revision, p);
      if !Locked(db.contracts[id].status) {
        ReplacementSparesOthers(db, id, DraftOf(p, revision + 1), p.shares, contract);
      }
    case Transition(_, _, _, _) =>
    case Receive(_, _, _, _, _) =>
    case Void(_, _, _, _) =>
  }

  // The payment overview.

  datatype Totals = Totals(advance: nat, progress: nat, final: nat, allotted: nat)

  /** What the active receipts of a project sum to for one milestone. */
  function Received(receipts: seq<Receipt>, project: nat, milestone: Milestone): (r: nat) {
    if receipts == [] then 0
    else
      var last := receipts[|receipts| - 1];
      Received(receipts[..|receipts| - 1], project, milestone)
        + if last.active && last.project == project && last.milestone == milestone then last.amount else 0
  }

  /** The part of the same sum that has an allocation. */
  function ReceivedAllocated(receipts: seq<Receipt>, project: nat, milestone: Milestone): (r: nat) {
    if receipts == [] then 0
    else
      var last := receipts[|receipts| - 1];
      ReceivedAllocated(receipts[..|receipts| - 1], project, milestone)
        + if last.active && last.project == project && last.milestone == milestone && last.allocation.Some?
          then last.amount else 0
  }

  /** All active receipts with an allocation of a project, whatever their milestone. */
  function AllocatedReceived(receipts: seq<Receipt>, project: nat): (r: nat) {
    if receipts == [] then 0
    else
      var last := receipts[|receipts| - 1];
      AllocatedReceived(receipts[..|receipts| - 1], project)
        + if last.active && last.project == project && last.allocation.Some? then last.amount else 0
  }

  ghost predicate OverviewTotals(receipts: seq<Receipt>, project: nat, t: Totals) {
    && t.advance == Received(receipts, project, Advance)
    && t.progress == Received(receipts, project, Progress)
    && t.final == Received(receipts, project, Final)
    && t.allotted == AllocatedReceived(receipts, project)
  }

  /** The three milestones share that total out among them. */
  lemma {:induction false} MilestonesShareTheTotal(receipts: seq<Receipt>, project: nat)
    ensures AllocatedReceived(receipts, project)
         == ReceivedAllocated(receipts, project, Advance) + ReceivedAllocated(receipts, project, Progress)
            + ReceivedAllocated(receipts, project, Final)
  {
    if receipts != [] {
      MilestonesShareTheTotal(receipts[..|receipts| - 1], project);
    }
  }

  /** _payment_overview with receipts: adds them up row by row. */
  method OverviewByRows(receipts: seq<Receipt>, project: nat) returns (t: Totals)
    ensures OverviewTotals(receipts, project, t)
  {
    t := Totals(0, 0, 0, 0);
    for k := 0 to |receipts|
      invariant OverviewTotals(receipts[..k], project, t)
    {
      var row := receipts[k];
      assert receipts[..k + 1][..k] == receipts[..k];
      if row.project == project && row.active {
        match row.milestone {
          case Advance => t := t.(advance := t.advance + row.amount);
          case Progress => t := t.(progress := t.progress + row.amount);
          case Final => t := t.(final := t.final + row.amount);
        }
        if row.allocation.Some? {
          t := t.(allotted := t.allotted + row.amount);
        }
      }
    }
    assert receipts[..|receipts|] == receipts;
  }

  /** A row of the grouped query; a milestone without active receipts has none. */
  datatype Group = Group(milestone: Milestone, received: nat, allotted: nat)

  method GroupBy(receipts: seq<Receipt>, project: nat, milestone: Milestone) returns (group: Option<Group>)
    ensures group.Some? ==>
      group.value == Group(milestone, Received(receipts, project, milestone), ReceivedAllocated(receipts, project, milestone))
    ensures group.None? ==> Received(receipts, project, milestone) == 0 == ReceivedAllocated(receipts, project, milestone)
  {
    group := None;
    for k := 0 to |receipts|
      invariant group.Some? ==>
        group.value == Group(milestone, Received(receipts[..k], project, milestone), ReceivedAllocated(receipts[..k], project, milestone))
      invariant group.None? ==>
        Received(receipts[..k], project, milestone) == 0 == ReceivedAllocated(receipts[..k], project, milestone)
    {
      var row := receipts[k];
      assert receipts[..k + 1][..k] == receipts[..k];
      if row.project == project && row.active && row.milestone == milestone {
        var received := if group.Some? then group.value.received else 0;
        var allotted := if group.Some? then group.value.allotted else 0;
        group := Some(Group(milestone, received + row.amount, allotted + if row.allocation.Some? then row.amount else 0));
      }
    }
    assert receipts[..|receipts|] == receipts;
  }

  /** _payment_overview without receipts: from the grouped query. The totals are the same. */
  method OverviewByGroups(receipts: seq<Receipt>, project: nat) returns (t: Totals)
    ensures OverviewTotals(receipts, project, t)
  {
    var advance := GroupBy(receipts, project, Advance);
    var progress := GroupBy(receipts, project, Progress);
    var final := GroupBy(receipts, project, Final);
    t := Totals(0, 0, 0, 0);
    if advance.Some? {
      t := t.(advance := advance.value.received, allotted := t.allotted + advance.value.allotted);
    }
    if progress.Some? {
      t := t.(progress := progress.value.received, allotted := t.allotted + progress.value.allotted);
    }
    if final.Some? {
      t := t.(final := final.value.received, allotted := t.allotted + final.value.allotted);
    }
    MilestonesShareTheTotal(receipts, project);
  }

  // What a project has collected against what it has contracted.

  /** The amounts of a project's allocations that satisfy a condition on the contract's status. */
  function Contracted(db: Db, allocations: seq<Allocation>, project: nat): (r: nat) {
    if allocations == [] then 0
    else
      var last := allocations[|allocations| - 1];
      Contracted(db, allocations[..|allocations| - 1], project)
        + if last.share.project == project && last.contract in db.contracts && Effective(db.contracts[last.contract].status)
          then last.share.amount else 0
  }

  function ReceivedOver(receipts: seq<Receipt>, allocations: seq<Allocation>, project: nat): (r: nat) {
    if allocations == [] then 0
    else
      var last := allocations[|allocations| - 1];
      ReceivedOver(receipts, allocations[..|allocations| - 1], project)
        + if last.share.project == project then ReceivedOn(receipts, last.id) else 0
  }

  /** How often an active receipt of `amount` on allocation `id` is counted over these rows. */
  function Counted(allocations: seq<Allocation>, project: nat, id: nat, amount: nat): (r: nat) {
    if allocations == [] then 0
    else
      var last := allocations[|allocations| - 1];
      Counted(allocations[..|allocations| - 1], project, id, amount)
        + if last.share.project == project && last.id == id then amount else 0
  }

  lemma {:induction false} CountedOnce(allocations: seq<Allocation>, project: nat, id: nat, amount: nat)
    requires IdsApart(allocations)
    ensures Counted(allocations, project, id, amount)
         == if exists a :: a in allocations && a.share.project == project && a.id == id then amount else 0
  {
    if allocations != [] {
      var front, last := allocations[..|allocations| - 1], allocations[|allocations| - 1];
      CountedOnce(front, project, id, amount);
      assert forall a :: a in allocations <==> a in front || a == last;
      assert forall a :: a in front ==> a.id != last.id;
    }
  }

  lemma {:induction false} OneReceiptMore(receipts: seq<Receipt>, allocations: seq<Allocation>, project: nat, r: Receipt)
    requires r.allocation.Some?
    ensures ReceivedOver(receipts + [r], allocations, project)
         == ReceivedOver(receipts, allocations, project)
            + if r.active then Counted(allocations, project, r.allocation.value, r.amount) else 0
  {
    assert (receipts + [r])[..|receipts|] == receipts;
    if allocations != [] {
      OneReceiptMore(receipts, allocations[..|allocations| - 1], project, r);
    }
  }

  /** Summing a project's receipts is summing over its allocations. */
  lemma {:induction false} ReceiptsByAllocation(db: Db, receipts: seq<Receipt>, project: nat)
    requires IdsApart(db.allocations)
    requires forall k :: 0 <= k < |receipts| ==> ReceiptHolds(db, receipts[k])
    ensures AllocatedReceived(receipts, project) == ReceivedOver(receipts, db.allocations, project)
  {
    if receipts == [] {
      NothingOver(db.allocations, project);
    } else {
      var front, r := receipts[..|receipts| - 1], receipts[|receipts| - 1];
      ReceiptsByAllocation(db, front, project);
      assert receipts == front + [r];
      OneReceiptMore(front, db.allocations, project, r);
      CountedOnce(db.allocations, project, r.allocation.value, r.amount);
      OwnProjectOnly(db, r, project);
    }
  }

  lemma OwnProjectOnly(db: Db, r: Receipt, project: nat)
    requires IdsApart(db.allocations) && ReceiptHolds(db, r)
    ensures (exists a :: a in db.allocations && a.share.project == project && a.id == r.allocation.value)
         <==> r.project == project
  {
  }

  lemma {:induction false} NothingOver(allocations: seq<Allocation>, project: nat)
    ensures ReceivedOver([], allocations, project) == 0
  {
    if allocations != [] {
      NothingOver(allocations[..|allocations| - 1], project);
    }
  }

  predicate InForce(db: Db, a: Allocation) {
    a.contract in db.contracts && Effective(db.contracts[a.contract].status)
  }

  /** What a project may still collect under contracts in force. */
  function Room(db: Db, allocations: seq<Allocation>, project: nat): (r: int) {
    if allocations == [] then 0
    else
      var last := allocations[|allocations| - 1];
      Room(db, allocations[..|allocations| - 1], project)
        + if last.share.project == project && InForce(db, last) then last.share.amount - ReceivedOn(db.receipts, last.id) else 0
  }

  /** What a project has collected under contracts that are no longer in force. */
  function Stranded(db: Db, allocations: seq<Allocation>, project: nat): (r: nat) {
    if allocations == [] then 0
    else
      var last := allocations[|allocations| - 1];
      Stranded(db, allocations[..|allocations| - 1], project)
        + if last.share.project == project && !InForce(db, last) then ReceivedOn(db.receipts, last.id) else 0
  }

  /** The overview does not show more collected than contracted. */
  predicate Within(db: Db, project: nat) {
    AllocatedReceived(db.receipts, project) <= Contracted(db, db.allocations, project)
  }

  lemma {:induction false} RoomAndStranded(db: Db, allocations: seq<Allocation>, project: nat)
    ensures ReceivedOver(db.receipts, allocations, project) + Room(db, allocations, project)
         == Contracted(db, allocations, project) + Stranded(db, allocations, project)
  {
    if allocations != [] {
      RoomAndStranded(db, allocations[..|allocations| - 1], project);
    }
  }

  /**
    After any requests, the overview shows more collected than contracted exactly if more is
    stranded under ended contracts than there is room left under those in force.
  */
  lemma WithinExactlyWhenCovered(requests: seq<Request>, project: nat)
    ensures var db := After(EMPTY, requests);
      Within(db, project) <==> Stranded(db, db.allocations, project) <= Room(db, db.allocations, project)
  {
    var db := After(EMPTY, requests);
    RunsKeepInvariant(EMPTY, requests);
    ReceiptsByAllocation(db, db.receipts, project);
    RoomAndStranded(db, db.allocations, project);
  }

  lemma {:induction false} NothingStranded(db: Db, allocations: seq<Allocation>, project: nat)
    requires forall a :: a in allocations ==> ReceivedOn(db.receipts, a.id) <= a.share.amount
    requires forall a :: a in allocations && ReceivedOn(db.receipts, a.id) > 0 ==> InForce(db, a)
    ensures Stranded(db, allocations, project) == 0 <= Room(db, allocations, project)
  {
    if allocations != [] {
      NothingStranded(db, allocations[..|allocations| - 1], project);
    }
  }

  /** In particular it does not as long as no terminated contract still holds active receipts. */
  lemma CollectedWithinContracted(requests: seq<Request>, project: nat)
    requires var db := After(EMPTY, requests);
      forall a :: a in db.allocations && ReceivedOn(db.receipts, a.id) > 0 ==>
        a.contract in db.contracts && db.contracts[a.contract].status != Terminated
    ensures var db := After(EMPTY, requests);
      AllocatedReceived(db.receipts, project) <= Contracted(db, db.allocations, project)
  {
    var db := After(EMPTY, requests);
    RunsKeepInvariant(EMPTY, requests);
    forall a | a in db.allocations && ReceivedOn(db.receipts, a.id) > 0 ensures InForce(db, a) {
      if db.contracts[a.contract].status == Draft {
        DraftsHaveNoReceipts(db, a);
        NothingReceived(db.receipts, a.id);
      }
    }
    NothingStranded(db, db.allocations, project);
    WithinExactlyWhenCovered(requests, project);
  }

  // Which request breaks the bound.

  /** What a contract has allocated to a project. */
  function AllottedBy(allocations: seq<Allocation>, contract: nat, project: nat): (r: nat) {
    if allocations == [] then 0
    else
      var last := allocations[|allocations| - 1];
      AllottedBy(allocations[..|allocations| - 1], contract, project)
        + if last.contract == contract && last.share.project == project then last.share.amount else 0
  }

  /**
    Ending a contract in force that the project's collections lean on; or collecting more than the
    contracts in force add up to, which takes room on one of them and receipts on an ended one.
  */
  predicate Breaks(db: Db, request: Request, project: nat) {
    var collected, contracted := AllocatedReceived(db.receipts, project), Contracted(db, db.allocations, project);
    match request
    case Transition(_, id, _, to) =>
      && to == Terminated && id in db.contracts && Effective(db.contracts[id].status)
      && contracted - AllottedBy(db.allocations, id, project) < collected
    case Receive(receiving, _, _, _, amount) => receiving == project && contracted < collected + amount
    case _ => false
  }

  lemma {:induction false} ContractedAfterStatus(db: Db, next: Db, allocations: seq<Allocation>, id: nat, project: nat)
    requires id in db.contracts && id in next.contracts && next.contracts == db.contracts[id := next.contracts[id]]
    ensures Contracted(next, allocations, project)
         == Contracted(db, allocations, project)
            + (if Effective(next.contracts[id].status) then AllottedBy(allocations, id, project) else 0)
            - (if Effective(db.contracts[id].status) then AllottedBy(allocations, id, project) else 0)
  {
    if allocations != [] {
      ContractedAfterStatus(db, next, allocations[..|allocations| - 1], id, project);
    }
  }

  lemma {:induction false} ContractedWithout(db: Db, next: Db, allocations: seq<Allocation>, id: nat, project: nat)
    requires id in next.contracts && next.contracts == db.contracts[id := next.contracts[id]]
    requires id in db.contracts ==> !Effective(db.contracts[id].status)
    ensures Contracted(next, Without(allocations, id), project) == Contracted(db, allocations, project)
  {
    if allocations != [] {
      var front, last := allocations[..|allocations| - 1], allocations[|allocations| - 1];
      ContractedWithout(db, next, front, id, project);
      if last.contract == id {
        assert Without(allocations, id) == Without(front, id);
      } else {
        assert Without(allocations, id)[..|Without(front, id)|] == Without(front, id);
      }
    }
  }

  lemma {:induction false} ContractedAfterInsert(db: Db, allocations: seq<Allocation>, id: nat, shares: seq<Share>, project: nat)
    requires id in db.contracts && !Effective(db.contracts[id].status)
    ensures Contracted(db, InsertShares(allocations, id, shares), project) == Contracted(db, allocations, project)
    decreases |shares|
  {
    if shares != [] {
      var front := shares[..|shares| - 1];
      ContractedAfterInsert(db, allocations, id, front, project);
      var before := InsertShares(allocations, id, front);
      assert InsertShares(allocations, id, shares)[..|before|] == before;
    }
  }

  lemma ReplacementSparesTheBound(db: Db, id: nat, c: Contract, shares: seq<Share>, project: nat)
    requires (id in db.contracts ==> db.contracts[id].status == Draft) && c.status == Draft
    ensures Within(Replaced(db, id, c, shares), project) <==> Within(db, project)
  {
    var next := Replaced(db, id, c, shares);
    ContractedWithout(db, next, db.allocations, id, project);
    ContractedAfterInsert(next, Without(db.allocations, id), id, shares, project);
  }

  lemma {:induction false} VoidingLowersTheSum(receipts: seq<Receipt>, id: nat, r: Receipt, project: nat)
    requires id < |receipts| && !r.active
    ensures AllocatedReceived(receipts[id := r], project) <= AllocatedReceived(receipts, project)
  {
    var n := |receipts| - 1;
    if id < n {
      VoidingLowersTheSum(receipts[..n], id, r, project);
      assert receipts[id := r][..n] == receipts[..n][id := r];
    } else {
      assert receipts[id := r][..n] == receipts[..n];
    }
  }

  lemma TransitionAndTheBound(db: Db, project: nat, id: nat, revision: nat, to: Status, seen: nat)
    requires Within(db, seen) && TransitionContract(db, project, id, revision, to).Ok?
    ensures Within(TransitionContract(db, project, id, revision, to).value, seen)
       <==> !Breaks(db, Transition(project, id, revision, to), seen)
  {
    var next := TransitionContract(db, project, id, revision, to).value;
    ContractedAfterStatus(db, next, db.allocations, id, seen);
    hide Contracted, AllottedBy, AllocatedReceived;
  }

  lemma ReceiptAndTheBound(
      db: Db, project: nat, requested: Option<nat>, milestone: Milestone, on: int, amount: Positive, seen: nat)
    requires Within(db, seen) && CreateReceipt(db, project, requested, milestone, on, amount).Ok?
    ensures Within(CreateReceipt(db, project, requested, milestone, on, amount).value, seen)
       <==> !Breaks(db, Receive(project, requested, milestone, on, amount), seen)
  {
    var next := CreateReceipt(db, project, requested, milestone, on, amount).value;
    assert next.receipts[..|db.receipts|] == db.receipts;
    SameContracted(db, next, db.allocations, seen);
    hide Contracted, ReceivedOn, ResolveAllocation;
  }

  lemma {:induction false} SameContracted(db: Db, next: Db, allocations: seq<Allocation>, project: nat)
    requires next.contracts == db.contracts
    ensures Contracted(next, allocations, project) == Contracted(db, allocations, project)
  {
    if allocations != [] {
      SameContracted(db, next, allocations[..|allocations| - 1], project);
    }
  }

  /** From a state in which no more is collected than contracted, exactly these requests lead to one in which more is. */
  lemma BoundBreaksExactlyWhen(db: Db, request: Request, project: nat)
    requires Invariant(db) && Within(db, project) && Answer(db, request).Ok?
    ensures Within(Answer(db, request).value, project) <==> !Breaks(db, request, project)
  {
    hide Invariant, Replaced, UpdateContract, TransitionContract, CreateReceipt, Contracted, AllocatedReceived, AllottedBy;
    match request
    case Create(_, id, p) => ReplacementSparesTheBound(db, id, DraftOf(p, 1), p.shares, project);
    case Update(updating, id, revision, p) =>
      UpdateOutcomes(db, updating, id, revision, p);
      if Locked(db.contracts[id].status) {
        ContractedAfterStatus(db, Annotated(db, id), db.allocations, id, project);
      } else {
        ReplacementSparesTheBound(db, id, DraftOf(p, revision + 1), p.shares, project);
      }
    case Transition(moving, id, revision, to) => TransitionAndTheBound(db, moving, id, revision, to, project);
    case Receive(receiving, requested, milestone, on, amount) =>
      ReceiptAndTheBound(db, receiving, requested, milestone, on, amount, project);
    case Void(_, receipt, _, _) =>
      var row := db.receipts[receipt];
      VoidingLowersTheSum(db.receipts, receipt, row.(active := false, revision := row.revision + 1), project);
      SameContracted(db, Answer(db, request).value, db.allocations, project);
  }

  /** The bound holds after each of the requests. */
  predicate AlwaysWithin(db: Db, requests: seq<Request>, project: nat)
    decreases |requests|
  {
    Within(db, project) && (requests != [] ==> AlwaysWithin(Served(db, requests[0]), requests[1..], project))
  }

  predicate NoneBreaks(db: Db, requests: seq<Request>, project: nat)
    decreases |requests|
  {
    requests != [] ==>
      && (Answer(db, requests[0]).Ok? ==> !Breaks(db, requests[0], project))
      && NoneBreaks(Served(db, requests[0]), requests[1..], project)
  }

  lemma {:induction false} BoundHoldsFrom(db: Db, requests: seq<Request>, project: nat)
    requires Invariant(db) && Within(db, project)
    ensures AlwaysWithin(db, requests, project) <==> NoneBreaks(db, requests, project)
    decreases |requests|
  {
    if requests != [] {
      var next := Served(db, requests[0]);
      if Answer(db, requests[0]).Ok? {
        RequestKeepsInvariant(db, requests[0]);
        BoundBreaksExactlyWhen(db, requests[0], project);
      }
      hide Invariant, Answer, Breaks, Within;
      if Within(next, project) {
        BoundHoldsFrom(next, requests[1..], project);
      }
    }
  }

  /** Over all requests to an empty database: the bound holds throughout exactly if no request breaks it. */
  lemma BoundHoldsThroughoutExactlyWhen(requests: seq<Request>, project: nat)
    ensures AlwaysWithin(EMPTY, requests, project) <==> NoneBreaks(EMPTY, requests, project)
  {
    BoundHoldsFrom(EMPTY, requests, project);
  }

  const PAYLOAD := Payload(100, Some(1), Some(2), "", [Share(7, 100)])

  function Example(status: Status, revision: nat, receipts: seq<Receipt>): (r: Db) {
    Db(map[0 := Contract(status, revision, 100, Some(1), Some(2), "")], [Allocation(1, 0, Share(7, 100))], receipts)
  }

  lemma ExampleSums(status: Status, revision: nat, receipts: seq<Receipt>)
    ensures var db := Example(status, revision, receipts);
      && Visible(db, 7, 0) && SharesOf(db.allocations, 0) == [Share(7, 100)] && Total([Share(7, 100)]) == 100
      && EffectiveAllocations(db, db.allocations, 7) == (if Effective(status) then db.allocations else [])
      && Contracted(db, db.allocations, 7) == if Effective(status) then 100 else 0
  {
    var db, a := Example(status, revision, receipts), Allocation(1, 0, Share(7, 100));
    OneRow(db, a);
    assert a in db.allocations;
    hide SharesOf, Total, EffectiveAllocations, Contracted;
  }

  lemma OneRow(db: Db, a: Allocation)
    requires a.contract in db.contracts
    ensures var effective := Effective(db.contracts[a.contract].status);
      && SharesOf([a], a.contract) == [a.share] && Total([a.share]) == a.share.amount
      && EffectiveAllocations(db, [a], a.share.project) == (if effective then [a] else [])
      && Contracted(db, [a], a.share.project) == if effective then a.share.amount else 0
  {
    assert [a][..0] == [] && [a.share][..0] == [];
  }

  lemma ExampleTransition(from: Status, to: Status, revision: nat, receipts: seq<Receipt>)
    requires Allowed(from, to)
    ensures Answer(Example(from, revision, receipts), Transition(7, 0, revision, to)) == Ok(Example(to, revision + 1, receipts))
  {
    ExampleSums(from, revision, receipts);
    var before, after := Example(from, revision, receipts), Example(to, revision + 1, receipts);
    assert before.contracts[0 := after.contracts[0]] == after.contracts;
  }

  lemma ExampleCreation()
    ensures Answer(EMPTY, Create(7, 0, PAYLOAD)) == Ok(Example(Draft, 1, []))
  {
    assert PAYLOAD.shares[0] in PAYLOAD.shares && PAYLOAD.shares[..0] == [];
    assert Includes(PAYLOAD.shares, 7);
    assert InsertShares([], 0, PAYLOAD.shares[..0]) == [];
    assert InsertShares([], 0, PAYLOAD.shares) == [] + [Allocation(1, 0, Share(7, 100))];
    assert Without(EMPTY.allocations, 0) == [];
    assert EMPTY.contracts[0 := DraftOf(PAYLOAD, 1)] == Example(Draft, 1, []).contracts;
    var db := Replaced(EMPTY, 0, DraftOf(PAYLOAD, 1), PAYLOAD.shares);
    assert db.allocations == Example(Draft, 1, []).allocations;
    assert db.receipts == [];
    assert db == Example(Draft, 1, []);
  }

  const RECEIPT := Receipt(7, Some(1), Advance, 3, 100, true, 1)

  lemma ExampleReceipt(revision: nat)
    ensures Answer(Example(Signed, revision, []), Receive(7, None, Advance, 3, 100)) == Ok(Example(Signed, revision, [RECEIPT]))
  {
    hide EffectiveAllocations, Visible, SharesOf, Contracted, Total;
    var db := Example(Signed, revision, []);
    ExampleSums(Signed, revision, []);
    AcceptedReceipt(db, db.allocations[0]);
    assert [] + [RECEIPT] == [RECEIPT];
  }

  lemma AcceptedReceipt(db: Db, a: Allocation)
    requires EffectiveAllocations(db, db.allocations, 7) == [a]
    requires db.receipts == [] && a.share.amount == 100 && a.id == 1
    ensures Answer(db, Receive(7, None, Advance, 3, 100)) == Ok(db.(receipts := db.receipts + [RECEIPT]))
  {
  }

  lemma AfterOne(db: Db, first: Request, rest: seq<Request>)
    requires Answer(db, first).Ok?
    ensures After(db, [first] + rest) == After(Answer(db, first).value, rest)
  {
    assert ([first] + rest)[1..] == rest;
  }

  /** With one: terminating a contract takes it out of the contracted amount but leaves its receipts. */
  lemma TerminationLeavesCollections()
    ensures var db := After(EMPTY, [Create(7, 0, PAYLOAD)] + ([Transition(7, 0, 1, Signed)] +
        ([Receive(7, None, Advance, 3, 100)] + ([Transition(7, 0, 2, Terminated)] + []))));
      AllocatedReceived(db.receipts, 7) == 100 && Contracted(db, db.allocations, 7) == 0
  {
    var sign, receive, end := Transition(7, 0, 1, Signed), Receive(7, None, Advance, 3, 100), Transition(7, 0, 2, Terminated);
    ExampleCreation();
    AfterOne(EMPTY, Create(7, 0, PAYLOAD), [sign] + ([receive] + ([end] + [])));
    ExampleTransition(Draft, Signed, 1, []);
    AfterOne(Example(Draft, 1, []), sign, [receive] + ([end] + []));
    ExampleReceipt(2);
    AfterOne(Example(Signed, 2, []), receive, [end] + []);
    ExampleTransition(Signed, Terminated, 2, [RECEIPT]);
    AfterOne(Example(Signed, 2, [RECEIPT]), end, []);
    ExampleSums(Terminated, 3, [RECEIPT]);
    assert AllocatedReceived([RECEIPT], 7) == 100 by { assert [RECEIPT][..0] == []; }
  }

  const ENDED := Allocation(1, 0, Share(7, 100))
  const CURRENT := Allocation(2, 1, Share(7, 150))
  const SUCCESSOR := Db(
    map[0 := Contract(Terminated, 3, 100, Some(1), Some(2), ""), 1 := Contract(Signed, 2, 150, Some(1), Some(2), "")],
    [ENDED, CURRENT], [RECEIPT])

  lemma TwoRows(db: Db, a: Allocation, b: Allocation)
    requires a.contract in db.contracts && !Effective(db.contracts[a.contract].status)
    requires b.contract in db.contracts && Effective(db.contracts[b.contract].status)
    requires a.share.project == b.share.project
    ensures SharesOf([a, b], a.contract) == [a.share] && SharesOf([a, b], b.contract) == [b.share]
    ensures EffectiveAllocations(db, [a, b], b.share.project) == [b]
    ensures Contracted(db, [a, b], b.share.project) == b.share.amount
  {
    OneRow(db, a);
    assert [a, b][..1] == [a] && [a][..0] == [];
    assert SharesOf([a], b.contract) == [] && [] + [b.share] == [b.share] && [a.share] + [] == [a.share];
  }

  lemma SuccessorSums()
    ensures SharesOf([ENDED, CURRENT], 0) == [ENDED.share] && SharesOf([ENDED, CURRENT], 1) == [CURRENT.share]
    ensures Total([ENDED.share]) == 100 && Total([CURRENT.share]) == 150
    ensures Contracted(SUCCESSOR, [ENDED, CURRENT], 7) == 150 && EffectiveAllocations(SUCCESSOR, [ENDED, CURRENT], 7) == [CURRENT]
    ensures AllocatedReceived([RECEIPT], 7) == 100 && ReceivedOn([RECEIPT], 1) == 100 && ReceivedOn([RECEIPT], 2) == 0
  {
    hide SharesOf, EffectiveAllocations, Contracted;
    OneRow(SUCCESSOR, ENDED);
    OneRow(SUCCESSOR, CURRENT);
    TwoRows(SUCCESSOR, ENDED, CURRENT);
    hide Total;
    assert [RECEIPT][..0] == [];
  }

  /** A receipt alone can break the bound, once an ended contract has collected and its successor has room. */
  lemma ReceiptCanBreakTheBound()
    ensures Invariant(SUCCESSOR) && Within(SUCCESSOR, 7)
    ensures var request := Receive(7, None, Advance, 4, 100);
      Answer(SUCCESSOR, request).Ok? && Breaks(SUCCESSOR, request, 7) && !Within(Answer(SUCCESSOR, request).value, 7)
  {
    SuccessorSums();
    hide SharesOf, Total, Contracted, EffectiveAllocations, AllocatedReceived, ReceivedOn;
    assert ENDED in SUCCESSOR.allocations && CURRENT in SUCCESSOR.allocations;
    assert AddsUp(SUCCESSOR, 0) && AddsUp(SUCCESSOR, 1);
    assert ReceiptHolds(SUCCESSOR, RECEIPT);
    BoundBreaksExactlyWhen(SUCCESSOR, Receive(7, None, Advance, 4, 100), 7);
  }

  // The sums add up piece by piece.

  lemma {:induction false} TotalAdds(a: seq<Share>, b: seq<Share>)
    ensures Total(a + b) == Total(a) + Total(b)
    ensures forall s: Share :: Total([s]) == s.amount
  {
    assert forall s: Share :: [s][..0] == [];
    if b == [] {
      assert a + b == a;
    } else {
      TotalAdds(a, b[..|b| - 1]);
      assert (a + b)[..|a + b| - 1] == a + b[..|b| - 1];
    }
  }

  lemma {:induction false} SharesAdd(a: seq<Allocation>, b: seq<Allocation>, contract: nat)
    ensures SharesOf(a + b, contract) == SharesOf(a, contract) + SharesOf(b, contract)
  {
    if b == [] {
      assert a + b == a && SharesOf(a, contract) + [] == SharesOf(a, contract);
    } else {
      var front, last := b[..|b| - 1], b[|b| - 1];
      var own := if last.contract == contract then [last.share] else [];
      SharesAdd(a, front, contract);
      assert (a + b)[..|a + b| - 1] == a + front;
      calc {
        SharesOf(a + b, contract);
        SharesOf(a + front, contract) + own;
        (SharesOf(a, contract) + SharesOf(front, contract)) + own;
        SharesOf(a, contract) + (SharesOf(front, contract) + own);
        SharesOf(a, contract) + SharesOf(b, contract);
      }
    }
  }

  lemma OneShare(x: Allocation, contract: nat)
    ensures SharesOf([x], contract) == if x.contract == contract then [x.share] else []
  {
    assert [x][..0] == [];
  }

  lemma {:induction false} ReceiptsAdd(a: seq<Receipt>, b: seq<Receipt>, allocation: nat)
    ensures ReceivedOn(a + b, allocation) == ReceivedOn(a, allocation) + ReceivedOn(b, allocation)
    ensures forall r: Receipt :: ReceivedOn([r], allocation) == if r.active && r.allocation == Some(allocation) then r.amount else 0
  {
    assert forall r: Receipt :: [r][..0] == [];
    if b == [] {
      assert a + b == a;
    } else {
      ReceiptsAdd(a, b[..|b| - 1], allocation);
      assert (a + b)[..|a + b| - 1] == a + b[..|b| - 1];
    }
  }

  lemma {:induction false} CollectionsAdd(a: seq<Receipt>, b: seq<Receipt>, project: nat, milestone: Milestone)
    ensures Received(a + b, project, milestone) == Received(a, project, milestone) + Received(b, project, milestone)
    ensures AllocatedReceived(a + b, project) == AllocatedReceived(a, project) + AllocatedReceived(b, project)
    ensures forall r: Receipt ::
      Received([r], project, milestone) == if r.active && r.project == project && r.milestone == milestone then r.amount else 0
    ensures forall r: Receipt ::
      AllocatedReceived([r], project) == if r.active && r.project == project && r.allocation != None then r.amount else 0
  {
    assert forall r: Receipt :: [r][..0] == [];
    if b == [] {
      assert a + b == a;
    } else {
      CollectionsAdd(a, b[..|b| - 1], project, milestone);
      assert (a + b)[..|a + b| - 1] == a + b[..|b| - 1];
    }
  }

  lemma {:induction false} ContractedAdds(db: Db, a: seq<Allocation>, b: seq<Allocation>, project: nat)
    ensures Contracted(db, a + b, project) == Contracted(db, a, project) + Contracted(db, b, project)
    ensures forall x: Allocation ::
      Contracted(db, [x], project) == if x.share.project == project && x.contract in db.contracts && db.contracts[x.contract].status in {Signed, Completed}
      then x.share.amount else 0
  {
    assert forall x: Allocation :: [x][..0] == [];
    if b == [] {
      assert a + b == a;
    } else {
      ContractedAdds(db, a, b[..|b| - 1], project);
      assert (a + b)[..|a + b| - 1] == a + b[..|b| - 1];
    }
  }

  // What each request is answered, cause by cause.

  /** One of the project's allocations under a contract in force, the requested one if one is. */
  predicate Candidate(db: Db, project: nat, requested: Option<nat>, k: nat) {
    && k < |db.allocations|
    && var a := db.allocations[k];
       && a.share.project == project && (requested.Some? ==> a.id == requested.value)
       && a.contract in db.contracts && db.contracts[a.contract].status in {Signed, Completed}
  }

  /** The only candidate there is. */
  ghost predicate Chosen(db: Db, project: nat, requested: Option<nat>, k: nat) {
    Candidate(db, project, requested, k) && forall j: nat :: Candidate(db, project, requested, j) ==> j == k
  }

  ghost predicate ReceiptRefused(db: Db, project: nat, requested: Option<nat>, amount: Positive, e: Error) {
    match e
    case ContractRequired => requested.None? && forall k: nat :: !Candidate(db, project, None, k)
    case ContractAmbiguous =>
      requested.None? && exists i: nat, j: nat :: i < j && Candidate(db, project, None, i) && Candidate(db, project, None, j)
    case Invalid => requested.Some? && forall k: nat :: !Candidate(db, project, requested, k)
    case AllocationExceeded =>
      exists k: nat :: Chosen(db, project, requested, k)
        && amount + ReceivedOn(db.receipts, db.allocations[k].id) > db.allocations[k].share.amount
    case _ => false
  }

  ghost predicate ReceiptBooked(db: Db, next: Db, project: nat, requested: Option<nat>, milestone: Milestone, on: int, amount: Positive) {
    exists k: nat :: Chosen(db, project, requested, k)
      && next == db.(receipts := db.receipts + [Receipt(project, Some(db.allocations[k].id), milestone, on, amount, true, 1)])
  }

  lemma {:induction false} EffectiveHas(db: Db, n: nat, project: nat, k: nat)
    requires k < n <= |db.allocations| && Candidate(db, project, None, k)
    ensures db.allocations[k] in EffectiveAllocations(db, db.allocations[..n], project)
  {
    assert db.allocations[..n][..n - 1] == db.allocations[..n - 1];
    if k < n - 1 {
      EffectiveHas(db, n - 1, project, k);
    }
  }

  lemma {:induction false} EffectiveCounts(db: Db, n: nat, project: nat)
    requires n <= |db.allocations|
    ensures var rows := EffectiveAllocations(db, db.allocations[..n], project);
      && (rows != [] ==> exists k: nat :: k < n && Candidate(db, project, None, k))
      && (|rows| >= 2 ==> exists i: nat, j: nat :: i < j < n && Candidate(db, project, None, i) && Candidate(db, project, None, j))
  {
    if n > 0 {
      EffectiveCounts(db, n - 1, project);
      assert db.allocations[..n][..n - 1] == db.allocations[..n - 1];
      var before := EffectiveAllocations(db, db.allocations[..n - 1], project);
      var own := Candidate(db, project, None, n - 1);
      if own && before != [] {
        var i: nat :| i < n - 1 && Candidate(db, project, None, i);
        assert i < n - 1 < n;
      } else if |before| >= 2 {
        var i: nat, j: nat :| i < j < n - 1 && Candidate(db, project, None, i) && Candidate(db, project, None, j);
        assert i < j < n;
      }
    }
  }

  lemma {:induction false} TwoAreTwo(db: Db, n: nat, project: nat, i: nat, j: nat)
    requires i < j < n <= |db.allocations| && Candidate(db, project, None, i) && Candidate(db, project, None, j)
    ensures |EffectiveAllocations(db, db.allocations[..n], project)| >= 2
  {
    assert db.allocations[..n][..n - 1] == db.allocations[..n - 1];
    if j < n - 1 {
      TwoAreTwo(db, n - 1, project, i, j);
    } else {
      EffectiveHas(db, n - 1, project, i);
    }
  }

  lemma EffectiveByIndex(db: Db, project: nat)
    ensures var rows := EffectiveAllocations(db, db.allocations, project);
      && (forall k: nat :: Candidate(db, project, None, k) ==> db.allocations[k] in rows)
      && (rows == [] <==> forall k: nat :: !Candidate(db, project, None, k))
      && (|rows| >= 2 <==> exists i: nat, j: nat :: i < j && Candidate(db, project, None, i) && Candidate(db, project, None, j))
  {
    var n := |db.allocations|;
    assert db.allocations[..n] == db.allocations;
    EffectiveCounts(db, n, project);
    forall k: nat | Candidate(db, project, None, k) ensures db.allocations[k] in EffectiveAllocations(db, db.allocations, project) {
      EffectiveHas(db, n, project, k);
    }
    if i: nat, j: nat :| i < j && Candidate(db, project, None, i) && Candidate(db, project, None, j) {
      TwoAreTwo(db, n, project, i, j);
    }
    hide EffectiveAllocations;
  }

  lemma ResolvedIsChosen(db: Db, project: nat, requested: Option<nat>)
    requires IdsApart(db.allocations) && ResolveAllocation(db, project, requested).Ok?
    ensures exists k: nat :: Chosen(db, project, requested, k) && db.allocations[k] == ResolveAllocation(db, project, requested).value
  {
    var a := ResolveAllocation(db, project, requested).value;
    ResolvedIsEffective(db, project, requested);
    EffectiveByIndex(db, project);
    var k :| 0 <= k < |db.allocations| && db.allocations[k] == a;
    assert Candidate(db, project, requested, k);
    forall j: nat | Candidate(db, project, requested, j) ensures j == k {
      if requested.None? {
        assert Candidate(db, project, None, j) && Candidate(db, project, None, k);
        assert !(j < k) && !(k < j);
      }
    }
  }

  lemma UnresolvedBecause(db: Db, project: nat, requested: Option<nat>)
    requires ResolveAllocation(db, project, requested).Err?
    ensures forall k: nat :: !Chosen(db, project, requested, k)
    ensures forall e :: ResolveAllocation(db, project, requested) == Err(e) <==> ReceiptRefused(db, project, requested, 1, e)
  {
    EffectiveByIndex(db, project);
    forall k: nat | Candidate(db, project, requested, k) ensures Candidate(db, project, None, k) {}
    var rows := EffectiveAllocations(db, db.allocations, project);
    forall k: nat | Candidate(db, project, requested, k) ensures requested.None? {
      var j :| 0 <= j < |rows| && rows[j] == db.allocations[k];
    }
    hide EffectiveAllocations, ReceivedOn;
    if requested.None? && rows != [] {
      var i: nat, j: nat :| i < j && Candidate(db, project, None, i) && Candidate(db, project, None, j);
    }
  }

  /**
    A receipt is booked on the only candidate there is, and refused exactly for want of one, for
    want of a choice between several, for naming none of them, or for exceeding what is left.
  */
  lemma ReceiptAnswers(db: Db, project: nat, requested: Option<nat>, milestone: Milestone, on: int, amount: Positive)
    requires IdsApart(db.allocations)
    ensures var answer := CreateReceipt(db, project, requested, milestone, on, amount);
      && (forall e :: answer == Err(e) <==> ReceiptRefused(db, project, requested, amount, e))
      && (answer.Ok? ==> ReceiptBooked(db, answer.value, project, requested, milestone, on, amount))
  {
    var a := ResolveAllocation(db, project, requested);
    hide ResolveAllocation, ReceivedOn;
    if a.Ok? {
      ResolvedIsChosen(db, project, requested);
    } else {
      UnresolvedBecause(db, project, requested);
    }
  }

  ghost predicate VoidRefused(db: Db, project: nat, id: nat, expectedRevision: nat, voidedOn: int, e: Error) {
    var known := id < |db.receipts| && db.receipts[id].project == project;
    match e
    case NotFound => !known
    case RevisionConflict => known && db.receipts[id].revision != expectedRevision
    case NotActive => known && db.receipts[id].revision == expectedRevision && !db.receipts[id].active
    case Invalid =>
      known && db.receipts[id].revision == expectedRevision && db.receipts[id].active && voidedOn < db.receipts[id].receivedOn
    case _ => false
  }

  lemma {:induction false} VoidedAmount(receipts: seq<Receipt>, id: nat, r: Receipt, allocation: nat)
    requires id < |receipts| && receipts[id].active && !r.active
    ensures ReceivedOn(receipts, allocation)
         == ReceivedOn(receipts[id := r], allocation)
            + if receipts[id].allocation == Some(allocation) then receipts[id].amount else 0
  {
    var n := |receipts| - 1;
    if id < n {
      VoidedAmount(receipts[..n], id, r, allocation);
      assert receipts[id := r][..n] == receipts[..n][id := r];
    } else {
      assert receipts[id := r][..n] == receipts[..n];
    }
  }

  /** Exactly the receipt is voided, and its allocation gets exactly its amount back. */
  ghost predicate ReceiptVoided(db: Db, next: Db, id: nat) {
    && next.contracts == db.contracts && next.allocations == db.allocations && |next.receipts| == |db.receipts| && id < |db.receipts|
    && (forall k :: 0 <= k < |db.receipts| && k != id ==> next.receipts[k] == db.receipts[k])
    && !next.receipts[id].active && next.receipts[id].revision == db.receipts[id].revision + 1
    && next.receipts[id].allocation == db.receipts[id].allocation && next.receipts[id].amount == db.receipts[id].amount
    && (forall allocation: nat :: ReceivedOn(db.receipts, allocation)
          == ReceivedOn(next.receipts, allocation)
             + if db.receipts[id].allocation == Some(allocation) then db.receipts[id].amount else 0)
  }

  /** A receipt is voided once, by its project, against its current revision, and not before it was received. */
  lemma VoidAnswers(db: Db, project: nat, id: nat, expectedRevision: nat, voidedOn: int)
    ensures var answer := VoidReceipt(db, project, id, expectedRevision, voidedOn);
      && (forall e :: answer == Err(e) <==> VoidRefused(db, project, id, expectedRevision, voidedOn, e))
      && (answer.Ok? ==> ReceiptVoided(db, answer.value, id))
  {
    var answer := VoidReceipt(db, project, id, expectedRevision, voidedOn);
    hide ReceivedOn;
    if answer.Ok? {
      forall allocation: nat ensures ReceivedOn(db.receipts, allocation)
          == ReceivedOn(answer.value.receipts, allocation)
             + if db.receipts[id].allocation == Some(allocation) then db.receipts[id].amount else 0
      {
        VoidedAmount(db.receipts, id, answer.value.receipts[id], allocation);
      }
    }
  }

  predicate Shared(db: Db, project: nat, id: nat) {
    id in db.contracts && exists k :: 0 <= k < |db.allocations| && db.allocations[k].contract == id && db.allocations[k].share.project == project
  }

  /** Dates are set and the shares add up to the total. */
  predicate Signable(signedOn: Option<int>, deliveryOn: Option<int>, total: nat, shares: seq<Share>) {
    signedOn != None && deliveryOn != None && |shares| > 0 && Total(shares) == total
  }

  ghost predicate TransitionRefused(db: Db, project: nat, id: nat, expectedRevision: nat, to: Status, e: Error) {
    var known := Shared(db, project, id);
    match e
    case NotFound => !known
    case RevisionConflict => known && db.contracts[id].revision != expectedRevision
    case InvalidTransition =>
      && known && db.contracts[id].revision == expectedRevision
      && (db.contracts[id].status, to) !in {(Draft, Signed), (Draft, Terminated), (Signed, Completed), (Signed, Terminated)}
    case SigningRequirements =>
      && known && db.contracts[id].revision == expectedRevision && db.contracts[id].status == Draft && to == Signed
      && var c := db.contracts[id]; !Signable(c.signedOn, c.deliveryOn, c.total, SharesOf(db.allocations, id))
    case _ => false
  }

  /** A contract moves along the four arrows only, and is signed with both dates and all of its total shared out. */
  lemma TransitionAnswers(db: Db, project: nat, id: nat, expectedRevision: nat, to: Status)
    ensures var answer := TransitionContract(db, project, id, expectedRevision, to);
      && (forall e :: answer == Err(e) <==> TransitionRefused(db, project, id, expectedRevision, to, e))
      && (answer.Ok? ==> var c := db.contracts[id];
            answer.value == db.(contracts := db.contracts[id := c.(status := to, revision := expectedRevision + 1)]))
  {
    assert Visible(db, project, id) <==> Shared(db, project, id) by {
      if Visible(db, project, id) {
        var a :| a in db.allocations && a.contract == id && a.share.project == project;
        var k :| 0 <= k < |db.allocations| && db.allocations[k] == a;
      }
    }
    hide SharesOf, Total, Visible;
  }

  predicate NamesProject(shares: seq<Share>, project: nat) {
    exists k :: 0 <= k < |shares| && shares[k].project == project
  }

  /** Which amounts which projects have; the order does not matter. */
  predicate SameShares(a: seq<Share>, b: seq<Share>) {
    (forall s :: s in a ==> s in b) && (forall s :: s in b ==> s in a)
  }

  ghost predicate UpdateRefused(db: Db, project: nat, id: nat, expectedRevision: nat, p: Payload, e: Error) {
    if !Shared(db, project, id) then e == NotFound
    else if db.contracts[id].revision != expectedRevision then e == RevisionConflict
    else if !NamesProject(p.shares, project) then e == Invalid
    else
      var c := db.contracts[id];
      var amounts := c.total == p.total && SameShares(SharesOf(db.allocations, id), p.shares);
      var formal := c.formal == p.formal && c.signedOn == p.signedOn && c.deliveryOn == p.deliveryOn;
      match e
      case AmountLocked => c.status != Draft && !amounts
      case FormalFieldsLocked => c.status != Draft && amounts && !formal
      case SigningRequirements =>
        c.status in {Signed, Completed} && amounts && formal && !Signable(p.signedOn, p.deliveryOn, p.total, p.shares)
      case _ => false
  }

  /** The contract's row and shares are these now; every other row of the three tables is as it was. */
  ghost predicate Rewritten(db: Db, next: Db, id: nat, c: Contract, shares: seq<Share>) {
    && next.contracts == db.contracts[id := c] && next.receipts == db.receipts
    && SharesOf(next.allocations, id) == shares
    && (forall a: Allocation :: a.contract != id ==> (a in next.allocations <==> a in db.allocations))
  }

  ghost predicate Updated(db: Db, next: Db, id: nat, revision: nat, p: Payload) {
    && id in db.contracts
    && if db.contracts[id].status == Draft then
         Rewritten(db, next, id, Contract(Draft, revision, p.total, p.signedOn, p.deliveryOn, p.formal), p.shares)
       else
         next == db.(contracts := db.contracts[id := db.contracts[id].(revision := revision)])
  }

  lemma ReplacedIsRewritten(db: Db, id: nat, c: Contract, shares: seq<Share>)
    requires RowsHold(db)
    ensures Rewritten(db, Replaced(db, id, c, shares), id, c, shares)
  {
    ReplacedShares(db, id, c, shares, id);
    ReplacedRows(db, id, c, shares);
  }

  /**
    A draft becomes what the payload says; past draft nothing but the revision changes, and that
    only if the payload repeats amounts and formal fields.
  */
  lemma UpdateAnswers(db: Db, project: nat, id: nat, expectedRevision: nat, p: Payload)
    requires Invariant(db)
    ensures var answer := UpdateContract(db, project, id, expectedRevision, p);
      && (forall e :: answer == Err(e) <==> UpdateRefused(db, project, id, expectedRevision, p, e))
      && (answer.Ok? ==> Updated(db, answer.value, id, expectedRevision + 1, p))
  {
    RefusalsAgree(db, project, id, expectedRevision, p);
    if Visible(db, project, id) && db.contracts[id].status == Draft {
      NoDraftReceipts(db, id);
      ReplacedIsRewritten(db, id, DraftOf(p, expectedRevision + 1), p.shares);
    }
    hide UpdateRefusal, UpdateRefused, Invariant, Replaced, Rewritten;
  }

  lemma RefusalsAgree(db: Db, project: nat, id: nat, expectedRevision: nat, p: Payload)
    ensures forall e :: UpdateRefusal(db, project, id, expectedRevision, p) == Some(e) <==> UpdateRefused(db, project, id, expectedRevision, p, e)
    ensures UpdateRefusal(db, project, id, expectedRevision, p).None? ==> Visible(db, project, id)
  {
    assert Visible(db, project, id) <==> Shared(db, project, id) by {
      if Visible(db, project, id) {
        var a :| a in db.allocations && a.contract == id && a.share.project == project;
        var k :| 0 <= k < |db.allocations| && db.allocations[k] == a;
      }
    }
    var shares := SharesOf(db.allocations, id);
    assert SameAmounts(shares, p.shares) <==> SameShares(shares, p.shares) by {
      var a, b := (set s | s in shares), (set s | s in p.shares);
      assert forall s :: s in a <==> s in shares;
      assert forall s :: s in b <==> s in p.shares;
    }
    assert Includes(p.shares, project) <==> NamesProject(p.shares, project);
    hide SharesOf, Total, Visible, Shared, SameAmounts, SameShares, Includes, NamesProject;
  }

  /** A new contract is a draft with the shares of the payload, one of them for the project. */
  lemma CreateAnswers(db: Db, project: nat, id: nat, p: Payload)
    requires RowsHold(db) && id !in db.contracts
    ensures var answer := CreateContract(db, project, id, p);
      && (answer.Err? <==> !NamesProject(p.shares, project)) && (answer.Err? ==> answer.error == Invalid)
      && (answer.Ok? ==>
            Rewritten(db, answer.value, id, Contract(Draft, 1, p.total, p.signedOn, p.deliveryOn, p.formal), p.shares))
  {
    assert Includes(p.shares, project) <==> NamesProject(p.shares, project);
    ReplacedIsRewritten(db, id, DraftOf(p, 1), p.shares);
    hide Replaced, Rewritten;
  }

  // The handlers, with their loops.

  class Register {
    var contracts: map<nat, Contract>
    var allocations: seq<Allocation>
    var receipts: seq<Receipt>

    function State(): Db
      reads this
    {
      Db(contracts, allocations, receipts)
    }

    ghost predicate Valid()
      reads this
    {
      Invariant(State())
    }

    constructor ()
      ensures Valid() && State() == EMPTY
    {
      contracts, allocations, receipts := map[], [], [];
    }

    /** _replace_allocations: deletes the contract's rows and inserts the new ones under fresh identifiers. */
    method ReplaceAllocations(contract: nat, shares: seq<Share>)
      modifies `allocations
      ensures allocations == InsertShares(Without(old(allocations), contract), contract, shares)
    {
      var kept: seq<Allocation> := [];
      for k := 0 to |allocations|
        invariant allocations == old(allocations) && kept == Without(allocations[..k], contract)
      {
        assert allocations[..k + 1][..k] == allocations[..k];
        if allocations[k].contract != contract {
          kept := kept + [allocations[k]];
        }
      }
      assert allocations[..|allocations|] == allocations;
      allocations := kept;
      for k := 0 to |shares|
        invariant allocations == InsertShares(kept, contract, shares[..k])
      {
        assert shares[..k + 1][..k] == shares[..k];
        allocations := allocations + [Allocation(NextId(allocations), contract, shares[k])];
      }
      assert shares[..|shares|] == shares;
    }

    method SumShares(contract: nat) returns (total: nat)
      ensures total == Total(SharesOf(allocations, contract))
    {
      total := 0;
      for k := 0 to |allocations|
        invariant total == Total(SharesOf(allocations[..k], contract))
      {
        assert allocations[..k + 1][..k] == allocations[..k];
        if allocations[k].contract == contract {
          var shares := SharesOf(allocations[..k], contract);
          assert (shares + [allocations[k].share])[..|shares|] == shares;
          total := total + allocations[k].share.amount;
        } else {
          assert SharesOf(allocations[..k], contract) + [] == SharesOf(allocations[..k], contract);
        }
      }
      assert allocations[..|allocations|] == allocations;
    }

    /** What _validate_receipt_allocation_capacity compares a new receipt with. */
    method Remaining(a: Allocation) returns (cents: nat)
      requires Valid() && a in allocations
      ensures cents == a.share.amount - ReceivedOn(receipts, a.id)
    {
      var received := 0;
      for k := 0 to |receipts|
        invariant received == ReceivedOn(receipts[..k], a.id)
      {
        assert receipts[..k + 1][..k] == receipts[..k];
        if receipts[k].active && receipts[k].allocation == Some(a.id) {
          received := received + receipts[k].amount;
        }
      }
      assert receipts[..|receipts|] == receipts;
      cents := if a.share.amount > received then a.share.amount - received else 0;
    }

    /** Writes the contract row and its allocations. */
    method Rewrite(id: nat, p: Payload, revision: nat)
      requires Valid() && (id in contracts ==> contracts[id].status == Draft)
      modifies this
      ensures Valid() && State() == Replaced(old(State()), id, DraftOf(p, revision), p.shares)
    {
      hide Invariant;
      ReplacementKeeps(State(), id, DraftOf(p, revision), p.shares);
      contracts := contracts[id := DraftOf(p, revision)];
      ReplaceAllocations(id, p.shares);
    }

    method Annotate(id: nat)
      requires Valid() && id in contracts
      modifies `contracts
      ensures Valid() && State() == Annotated(old(State()), id)
    {
      hide Invariant;
      AnnotatedKeeps(State(), id);
      contracts := contracts[id := contracts[id].(revision := contracts[id].revision + 1)];
    }

    method Create(project: nat, id: nat, p: Payload) returns (r: Result<()>)
      requires Valid() && id !in contracts
      modifies this
      ensures Valid()
      ensures r == Err(Invalid) <==> !NamesProject(p.shares, project)
      ensures r.Ok? ==>
        Rewritten(old(State()), State(), id, Contract(Draft, 1, p.total, p.signedOn, p.deliveryOn, p.formal), p.shares)
      ensures r.Ok? ==> CreateContract(old(State()), project, id, p) == Ok(State())
      ensures r.Err? ==> CreateContract(old(State()), project, id, p) == Err(r.error) && State() == old(State())
    {
      CreateAnswers(State(), project, id, p);
      hide Invariant, Rewritten, NamesProject;
      if !Includes(p.shares, project) {
        return Err(Invalid);
      }
      Rewrite(id, p, 1);
      r := Ok(());
    }

    method CheckUpdate(project: nat, id: nat, expectedRevision: nat, p: Payload) returns (refusal: Option<Error>)
      ensures refusal == UpdateRefusal(State(), project, id, expectedRevision, p)
    {
      if !Visible(State(), project, id) {
        return Some(NotFound);
      }
      var c := contracts[id];
      if c.revision != expectedRevision {
        return Some(RevisionConflict);
      }
      if !Includes(p.shares, project) {
        return Some(Invalid);
      }
      if Locked(c.status) {
        if c.total != p.total || !SameAmounts(SharesOf(allocations, id), p.shares) {
          return Some(AmountLocked);
        }
        if (c.formal, c.signedOn, c.deliveryOn) != (p.formal, p.signedOn, p.deliveryOn) {
          return Some(FormalFieldsLocked);
        }
        if Effective(c.status) && !SigningValues(p.signedOn, p.deliveryOn, p.total, p.shares) {
          return Some(SigningRequirements);
        }
      }
      refusal := None;
    }

    method Update(project: nat, id: nat, expectedRevision: nat, p: Payload) returns (r: Result<()>)
      requires Valid()
      modifies this
      ensures Valid()
      ensures forall e :: r == Err(e) <==> UpdateRefused(old(State()), project, id, expectedRevision, p, e)
      ensures r.Ok? ==> Updated(old(State()), State(), id, expectedRevision + 1, p)
      ensures r.Ok? ==> UpdateContract(old(State()), project, id, expectedRevision, p) == Ok(State())
      ensures r.Err? ==>
        UpdateContract(old(State()), project, id, expectedRevision, p) == Err(r.error) && State() == old(State())
      ensures r != Err(Referenced)
    {
      UpdateAnswers(State(), project, id, expectedRevision, p);
      hide Invariant, Updated, UpdateRefused;
      var refusal := CheckUpdate(project, id, expectedRevision, p);
      if refusal.Some? {
        return Err(refusal.value);
      }
      if Locked(contracts[id].status) {
        Annotate(id);
      } else {
        NoDraftReceipts(State(), id);
        Rewrite(id, p, expectedRevision + 1);
      }
      r := Ok(());
    }

    method Transition(project: nat, id: nat, expectedRevision: nat, to: Status) returns (r: Result<()>)
      requires Valid()
      modifies `contracts
      ensures Valid()
      ensures forall e :: r == Err(e) <==> TransitionRefused(old(State()), project, id, expectedRevision, to, e)
      ensures r.Ok? ==> id in old(contracts)
      ensures r.Ok? ==> contracts == old(contracts)[id := old(contracts)[id].(status := to, revision := expectedRevision + 1)]
      ensures r.Ok? ==> TransitionContract(old(State()), project, id, expectedRevision, to) == Ok(State())
      ensures r.Err? ==>
        TransitionContract(old(State()), project, id, expectedRevision, to) == Err(r.error) && State() == old(State())
    {
      TransitionAnswers(State(), project, id, expectedRevision, to);
      hide Invariant, TransitionRefused;
      if !Visible(State(), project, id) {
        return Err(NotFound);
      }
      var c := contracts[id];
      if c.revision != expectedRevision {
        return Err(RevisionConflict);
      }
      if !Allowed(c.status, to) {
        return Err(InvalidTransition);
      }
      if to == Signed {
        var total := SumShares(id);
        if c.signedOn.None? || c.deliveryOn.None? || SharesOf(allocations, id) == [] || total != c.total {
          return Err(SigningRequirements);
        }
      }
      TransitionKeeps(State(), project, id, expectedRevision, to);
      contracts := contracts[id := c.(status := to, revision := c.revision + 1)];
      r := Ok(());
    }

    method Receive(project: nat, requested: Option<nat>, milestone: Milestone, receivedOn: int, amount: Positive)
      returns (r: Result<nat>)
      requires Valid()
      modifies `receipts
      ensures Valid()
      ensures forall e :: r == Err(e) <==> ReceiptRefused(old(State()), project, requested, amount, e)
      ensures r.Ok? ==> ReceiptBooked(old(State()), State(), project, requested, milestone, receivedOn, amount)
      ensures r.Ok? ==> r.value == |old(receipts)|
      ensures r.Ok? ==> CreateReceipt(old(State()), project, requested, milestone, receivedOn, amount) == Ok(State())
      ensures r.Err? ==>
        CreateReceipt(old(State()), project, requested, milestone, receivedOn, amount) == Err(r.error) && State() == old(State())
    {
      ReceiptAnswers(State(), project, requested, milestone, receivedOn, amount);
      hide Invariant, ReceiptRefused, ReceiptBooked;
      var a := ResolveAllocation(State(), project, requested);
      if a.Err? {
        return Err(a.error);
      }
      ResolvedIsEffective(State(), project, requested);
      var remaining := Remaining(a.value);
      if amount > remaining {
        return Err(AllocationExceeded);
      }
      var row := Receipt(project, Some(a.value.id), milestone, receivedOn, amount, true, 1);
      NewReceiptKeeps(State(), a.value, row);
      receipts := receipts + [row];
      r := Ok(|receipts| - 1);
    }

    method Void(project: nat, id: nat, expectedRevision: nat, voidedOn: int) returns (r: Result<()>)
      requires Valid()
      modifies `receipts
      ensures Valid()
      ensures forall e :: r == Err(e) <==> VoidRefused(old(State()), project, id, expectedRevision, voidedOn, e)
      ensures r.Ok? ==> ReceiptVoided(old(State()), State(), id)
      ensures r.Ok? ==> VoidReceipt(old(State()), project, id, expectedRevision, voidedOn) == Ok(State())
      ensures r.Err? ==>
        VoidReceipt(old(State()), project, id, expectedRevision, voidedOn) == Err(r.error) && State() == old(State())
    {
      VoidAnswers(State(), project, id, expectedRevision, voidedOn);
      hide Invariant, VoidRefused, ReceiptVoided;
      if id >= |receipts| || receipts[id].project != project {
        return Err(NotFound);
      }
      var row := receipts[id];
      if row.revision != expectedRevision {
        return Err(RevisionConflict);
      }
      if !row.active {
        return Err(NotActive);
      }
      if voidedOn < row.receivedOn {
        return Err(Invalid);
      }
      VoidKeeps(State(), id, row.(active := false, revision := row.revision + 1));
      receipts := receipts[id := row.(active := false, revision := row.revision + 1)];
      r := Ok(());
    }
  }
}
