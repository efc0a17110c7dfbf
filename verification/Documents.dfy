/**
  Uploading document versions, backend/app/features/documents.py over backend/app/features/files.py
  and the transactions of backend/app/core/database.py.

  A version is a file in the document's directory and a row in the database. The upload holds the
  database's write lock from BEGIN IMMEDIATE to COMMIT or ROLLBACK; the directory has no lock, and
  what is deleted after a rollback is deleted without one. Each step below is one operation on one
  of the two stores. Content stands for size and hash; an upload's number is the identity of its
  file.
*/
module Documents {
  datatype Option<T> = None | Some(value: T)

  type Content = string

  /** `Hidden` is a dot file that is neither a reservation nor a version. */
  datatype Entry = Reservation(version: nat) | File(name: string) | Hidden(name: string)

  datatype Blob = Blob(owner: nat, content: Content)

  /** A committed version; `owner` is the upload that committed it. */
  datatype Row = Row(name: string, content: Content, owner: nat)

  datatype Phase =
    | Waiting
    | Reconciling(todo: set<Entry>)
    | Reserving
    | Targeting
    | DroppingReservation
    | Stored
    | Inserted
    | Cleaning     // rolled back, about to compare the file with what was stored
    | Unlinking    // compared, about to delete it
    | Done
    | Failed

  datatype Upload = Upload(content: Content, name: string, version: nat, phase: Phase)

  datatype System = System(
    entries: map<Entry, Blob>, rows: map<nat, Row>, lock: Option<nat>, uploads: map<nat, Upload>)

  datatype Step =
    | Begin(u: nat, name: string, version: nat)  // takes the lock, numbers the version, lists the directory
    | Reconcile(u: nat, e: Entry)
    | Reconciled(u: nat)
    | LinkReservation(u: nat)
    | LinkTarget(u: nat)
    | DropReservation(u: nat)
    | Insert(u: nat)
    | Commit(u: nat)
    | FailPublication(u: nat, dropTarget: bool, dropReservation: bool)
    | Rollback(u: nat)       // a failure once the file is stored
    | CompareStored(u: nat)  // delete_stored_version: size and hash
    | DeleteStored(u: nat)   // delete_stored_version: unlink
    | LeaveStored(u: nat)    // delete_stored_version raises
    | Crash

  // Rows.

  ghost predicate Referenced(rows: map<nat, Row>, name: string) {
    exists v :: v in rows && rows[v].name == name
  }

  ghost predicate IsLatest(rows: map<nat, Row>, n: nat) {
    (n == 0 || n in rows) && forall v :: v in rows ==> v <= n
  }

  /** What reconcile_document_versions deletes. */
  ghost predicate Residue(rows: map<nat, Row>, e: Entry) {
    match e
    case Reservation(_) => true
    case File(name) => !Referenced(rows, name)
    case Hidden(_) => false
  }

  // Steps.

  predicate Publishing(phase: Phase) {
    phase.Reconciling? || phase.Reserving? || phase.Targeting? || phase.DroppingReservation?
  }

  predicate InTransaction(phase: Phase) {
    Publishing(phase) || phase.Stored? || phase.Inserted?
  }

  ghost predicate Enabled(s: System, step: Step) {
    if step.Crash? then true
    else
      && step.u in s.uploads
      && var phase := s.uploads[step.u].phase;
         match step
         case Begin(_, _, version) => phase.Waiting? && s.lock == None && version > 0 && IsLatest(s.rows, version - 1)
         case Reconcile(_, e) => phase.Reconciling? && e in phase.todo
         case Reconciled(_) => phase.Reconciling? && phase.todo == {}
         case LinkReservation(_) => phase.Reserving?
         case LinkTarget(_) => phase.Targeting?
         case DropReservation(_) => phase.DroppingReservation?
         case Insert(_) => phase.Stored?
         case Commit(_) => phase.Inserted?
         case FailPublication(_, _, _) => Publishing(phase)
         case Rollback(_) => phase.Stored? || phase.Inserted?
         case CompareStored(_) => phase.Cleaning?
         case DeleteStored(_) => phase.Unlinking?
         case LeaveStored(_) => phase.Cleaning? || phase.Unlinking?
  }

  ghost function Next(s: System, step: Step): System
    requires Enabled(s, step)
  {
    if step.Crash? then s.(lock := None, uploads := map u | u in s.uploads :: Crashed(s.uploads[u]))
    else
      var a := s.uploads[step.u];
      match step
      case Begin(u, name, version) =>
        s.(lock := Some(u), uploads := s.uploads[u := Upload(a.content, name, version, Reconciling(s.entries.Keys))])
      case Reconcile(u, e) =>
        var todo := Reconciling(a.phase.todo - {e});
        if Residue(s.rows, e) then To(s.(entries := s.entries - {e}), u, todo) else To(s, u, todo)
      case Reconciled(u) => To(s, u, Reserving)
      case LinkReservation(u) =>
        var e := Reservation(a.version);
        if e in s.entries then Abandon(s, u, true, true)
        else To(s.(entries := s.entries[e := Blob(u, a.content)]), u, Targeting)
      case LinkTarget(u) =>
        var e := File(a.name);
        if e in s.entries then Abandon(s, u, true, true)
        else To(s.(entries := s.entries[e := Blob(u, a.content)]), u, DroppingReservation)
      case DropReservation(u) => To(s.(entries := WithoutOwn(s.entries, u, Reservation(a.version), true)), u, Stored)
      case Insert(u) =>
        if a.version in s.rows || Referenced(s.rows, a.name) then To(s.(lock := None), u, Cleaning)
        else To(s, u, Inserted)
      case Commit(u) => To(s.(rows := s.rows[a.version := Row(a.name, a.content, u)], lock := None), u, Done)
      case FailPublication(u, dropTarget, dropReservation) => Abandon(s, u, dropTarget, dropReservation)
      case Rollback(u) => To(s.(lock := None), u, Cleaning)
      case CompareStored(u) =>
        var e := File(a.name);
        To(s, u, if e in s.entries && s.entries[e].content == a.content then Unlinking else Failed)
      case DeleteStored(u) => To(s.(entries := s.entries - {File(a.name)}), u, Failed)
      case LeaveStored(u) => To(s, u, Failed)
  }

  function To(s: System, u: nat, phase: Phase): System
    requires u in s.uploads
  {
    s.(uploads := s.uploads[u := s.uploads[u].(phase := phase)])
  }

  function Crashed(a: Upload): Upload {
    if a.phase.Done? then a else a.(phase := Failed)
  }

  /** The publisher's own cleanup compares identities before it unlinks. */
  function WithoutOwn(entries: map<Entry, Blob>, u: nat, e: Entry, drop: bool): map<Entry, Blob> {
    if drop && e in entries && entries[e].owner == u then entries - {e} else entries
  }

  /** A failed publication cleans up what it can and rolls back. */
  function Abandon(s: System, u: nat, dropTarget: bool, dropReservation: bool): System
    requires u in s.uploads
  {
    var a := s.uploads[u];
    var entries := WithoutOwn(s.entries, u, File(a.name), dropTarget);
    To(s.(entries := WithoutOwn(entries, u, Reservation(a.version), dropReservation), lock := None), u, Failed)
  }

  // The invariant.

  /** Every committed version has its file, with its content. */
  ghost predicate FilesExist(s: System) {
    forall v :: v in s.rows ==> RowHasFile(s, v)
  }

  ghost predicate RowHasFile(s: System, v: nat)
    requires v in s.rows
  {
    var row := s.rows[v];
    File(row.name) in s.entries && s.entries[File(row.name)] == Blob(row.owner, row.content)
  }

  ghost predicate RowsHold(s: System) {
    && (forall v :: v in s.rows ==> RowIsOf(s, s.rows[v]))
    && (forall v, w :: v in s.rows && w in s.rows && s.rows[v].name == s.rows[w].name ==> v == w)
  }

  predicate RowIsOf(s: System, row: Row) {
    row.owner in s.uploads && s.uploads[row.owner].phase == Done && s.uploads[row.owner].name == row.name
  }

  /** The committed versions are exactly 1..n. */
  ghost predicate Contiguous(s: System) {
    exists n: nat :: Counts(s.rows, n)
  }

  ghost predicate Counts(rows: map<nat, Row>, n: nat) {
    forall v: nat :: v in rows <==> 1 <= v <= n
  }

  /** The file has been linked, and the version may still be committed. */
  predicate Linked(phase: Phase) {
    phase.DroppingReservation? || phase.Stored? || phase.Inserted?
  }

  predicate CleaningUp(phase: Phase) {
    phase.Cleaning? || phase.Unlinking?
  }

  /** Committed, or never to be committed any more. */
  predicate Through(phase: Phase) {
    CleaningUp(phase) || phase.Done? || phase.Failed?
  }

  ghost predicate UploadHolds(s: System, u: nat)
    requires u in s.uploads
  {
    var a := s.uploads[u];
    && (InTransaction(a.phase) ==> s.lock == Some(u) && a.version > 0 && IsLatest(s.rows, a.version - 1))
    && (a.phase.Inserted? ==> !Referenced(s.rows, a.name))
    && (a.phase.Done? ==> exists v :: v in s.rows && s.rows[v].owner == u)
    && (Linked(a.phase) || CleaningUp(a.phase) ==> OwnerIsKnown(s, a.name))
  }

  /** A file of this name, if there is one, was linked by an upload of this name. */
  predicate OwnerIsKnown(s: System, name: string) {
    File(name) in s.entries ==>
      var w := s.entries[File(name)].owner;
      w in s.uploads && s.uploads[w].name == name && (Linked(s.uploads[w].phase) || Through(s.uploads[w].phase))
  }

  /** What every step keeps, whatever becomes of the files. */
  ghost predicate Base(s: System) {
    RowsHold(s) && Contiguous(s) && forall u :: u in s.uploads ==> UploadHolds(s, u)
  }

  ghost predicate Own(s: System, u: nat)
    requires u in s.uploads
  {
    var e := File(s.uploads[u].name);
    e in s.entries && s.entries[e] == Blob(u, s.uploads[u].content)
  }

  /** Every upload still has the file it is about to commit. */
  ghost predicate AllOwn(s: System) {
    forall u :: u in s.uploads && Linked(s.uploads[u].phase) ==> Own(s, u)
  }

  ghost predicate Invariant(s: System) {
    Base(s) && FilesExist(s) && AllOwn(s)
  }

  ghost predicate Start(s: System) {
    s.rows == map[] && s.lock == None && forall u :: u in s.uploads ==> s.uploads[u].phase == Waiting
  }

  /** The file a cleanup is about to delete is still the upload's own. */
  ghost predicate DeletesOwn(s: System, step: Step) {
    step.DeleteStored? && step.u in s.uploads && File(s.uploads[step.u].name) in s.entries ==>
      s.entries[File(s.uploads[step.u].name)].owner == step.u
  }

  /** A finished upload stays finished, and only a commit touches the rows. */
  lemma RowsChangeByCommit(s: System, step: Step)
    requires Enabled(s, step)
    ensures forall u :: u in s.uploads && s.uploads[u].phase == Done ==>
      u in Next(s, step).uploads && Next(s, step).uploads[u] == s.uploads[u]
    ensures !step.Commit? ==> Next(s, step).rows == s.rows
    ensures step.Commit? ==> Next(s, step).uploads[step.u] == s.uploads[step.u].(phase := Done)
  {
  }

  lemma StepKeepsRows(s: System, step: Step)
    requires Base(s) && Enabled(s, step)
    ensures RowsHold(Next(s, step))
  {
    RowsChangeByCommit(s, step);
    if step.Commit? {
      assert UploadHolds(s, step.u);
    } else {
      hide Next;
    }
  }

  lemma StepKeepsNumbers(s: System, step: Step)
    requires Base(s) && Enabled(s, step)
    ensures Contiguous(Next(s, step))
  {
    hide RowsHold;
    var n: nat :| Counts(s.rows, n);
    if step.Commit? {
      assert UploadHolds(s, step.u);
      assert n > 0 ==> n in s.rows;
      assert Counts(Next(s, step).rows, n + 1);
    } else {
      assert Counts(Next(s, step).rows, n);
    }
  }

  lemma OwnersStayKnown(s: System, step: Step, name: string)
    requires OwnerIsKnown(s, name) && Enabled(s, step)
    ensures OwnerIsKnown(Next(s, step), name)
  {
    hide Referenced, IsLatest, Residue;
  }

  lemma OtherTransactionStays(s: System, step: Step, u: nat)
    requires Base(s) && Enabled(s, step) && u in s.uploads && (step.Crash? || step.u != u)
    requires InTransaction(Next(s, step).uploads[u].phase)
    ensures Next(s, step).uploads[u] == s.uploads[u] && Next(s, step).lock == s.lock && Next(s, step).rows == s.rows
  {
    assert UploadHolds(s, u);
    if !step.Crash? {
      assert UploadHolds(s, step.u);
    }
    hide RowsHold, Contiguous, OwnerIsKnown, Residue, Referenced, IsLatest;
  }

  lemma OtherStaysPut(s: System, step: Step, u: nat)
    requires Enabled(s, step) && u in s.uploads && (step.Crash? || step.u != u)
    ensures Next(s, step).uploads[u] == if step.Crash? then Crashed(s.uploads[u]) else s.uploads[u]
  {
    hide Referenced, IsLatest, Residue;
  }

  /** Another upload's step, or a crash. */
  lemma StepKeepsOtherUploads(s: System, step: Step, u: nat)
    requires Base(s) && Enabled(s, step) && u in s.uploads && (step.Crash? || step.u != u)
    ensures UploadHolds(Next(s, step), u)
  {
    assert UploadHolds(s, u);
    RowsOnlyGrow(s, step);
    OtherStaysPut(s, step, u);
    if OwnerIsKnown(s, s.uploads[u].name) {
      OwnersStayKnown(s, step, s.uploads[u].name);
    }
    if InTransaction(Next(s, step).uploads[u].phase) {
      OtherTransactionStays(s, step, u);
    }
    hide Base, Next, OwnerIsKnown, Referenced, IsLatest;
  }

  /** A commit takes a version of its own. */
  lemma RowsOnlyGrow(s: System, step: Step)
    requires Base(s) && Enabled(s, step)
    ensures forall v :: v in s.rows ==> v in Next(s, step).rows && Next(s, step).rows[v] == s.rows[v]
  {
    RowsChangeByCommit(s, step);
    if step.Commit? {
      assert UploadHolds(s, step.u);
    }
  }

  lemma OwnerIsKnownAfter(s: System, step: Step)
    requires Base(s) && Enabled(s, step) && !step.Crash?
    ensures var b := Next(s, step).uploads[step.u];
      Linked(b.phase) || CleaningUp(b.phase) ==> OwnerIsKnown(Next(s, step), b.name)
  {
    assert UploadHolds(s, step.u);
    if OwnerIsKnown(s, s.uploads[step.u].name) {
      OwnersStayKnown(s, step, s.uploads[step.u].name);
    }
    hide RowsHold, Contiguous, Referenced, IsLatest, Residue;
  }

  lemma OwnTransactionStays(s: System, step: Step)
    requires Enabled(s, step) && !step.Crash? && !step.Begin? && InTransaction(Next(s, step).uploads[step.u].phase)
    ensures var next := Next(s, step); var a, b := s.uploads[step.u], next.uploads[step.u];
      && InTransaction(a.phase) && next.lock == s.lock && next.rows == s.rows && b.version == a.version && b.name == a.name
      && (b.phase.Inserted? ==> !Referenced(s.rows, a.name))
  {
    hide Referenced, IsLatest, Residue;
  }

  lemma TransactionAfter(s: System, step: Step)
    requires Base(s) && Enabled(s, step) && !step.Crash?
    ensures var next := Next(s, step); var b := next.uploads[step.u];
      && (InTransaction(b.phase) ==> next.lock == Some(step.u) && b.version > 0 && IsLatest(next.rows, b.version - 1))
      && (b.phase.Inserted? ==> !Referenced(next.rows, b.name))
  {
    assert UploadHolds(s, step.u);
    hide RowsHold, Contiguous, OwnerIsKnown, Residue, Referenced, IsLatest;
    if !step.Begin? && InTransaction(Next(s, step).uploads[step.u].phase) {
      OwnTransactionStays(s, step);
      hide Next;
    }
  }

  lemma StepKeepsOwnUpload(s: System, step: Step)
    requires Base(s) && Enabled(s, step) && !step.Crash?
    ensures UploadHolds(Next(s, step), step.u)
  {
    OwnerIsKnownAfter(s, step);
    TransactionAfter(s, step);
    hide RowsHold, Contiguous, OwnerIsKnown, Residue, Referenced, IsLatest, InTransaction;
    if step.Commit? {
      assert Next(s, step).rows[s.uploads[step.u].version].owner == step.u;
    }
  }

  lemma StepKeepsBase(s: System, step: Step)
    requires Base(s) && Enabled(s, step)
    ensures Base(Next(s, step))
  {
    StepKeepsRows(s, step);
    StepKeepsNumbers(s, step);
    forall u | u in Next(s, step).uploads ensures UploadHolds(Next(s, step), u) {
      if step.Crash? || step.u != u {
        StepKeepsOtherUploads(s, step, u);
      } else {
        StepKeepsOwnUpload(s, step);
      }
    }
  }

  /** The two ways in which a step can leave a committed version without its file. */
  ghost predicate Loses(s: System, step: Step)
    requires Enabled(s, step)
  {
    || (step.DeleteStored? && Referenced(s.rows, s.uploads[step.u].name))
    || (step.Commit? && !Own(s, step.u))
  }

  /**
    A committed version loses its file to the delete of a cleanup, which finds the name committed
    by another upload, or has lost it before: its upload commits although the file is gone. Nothing
    else, reconciliation in particular, ever takes one away.
  */
  lemma FileIsLostExactlyWhen(s: System, step: Step)
    requires Base(s) && FilesExist(s) && Enabled(s, step)
    ensures FilesExist(Next(s, step)) <==> !Loses(s, step)
  {
    if step.DeleteStored? {
      DeletionLoses(s, step);
    } else if step.Commit? {
      CommitLoses(s, step);
    } else {
      QuietStepKeepsFiles(s, step);
    }
  }

  lemma DeletionLoses(s: System, step: Step)
    requires FilesExist(s) && Enabled(s, step) && step.DeleteStored?
    ensures FilesExist(Next(s, step)) <==> !Referenced(s.rows, s.uploads[step.u].name)
  {
    var next := Next(s, step);
    if Referenced(s.rows, s.uploads[step.u].name) {
      var v :| v in s.rows && s.rows[v].name == s.uploads[step.u].name;
      assert !RowHasFile(next, v);
    } else {
      forall v | v in s.rows ensures RowHasFile(next, v) {
        assert RowHasFile(s, v);
      }
    }
  }

  lemma CommitLoses(s: System, step: Step)
    requires Base(s) && FilesExist(s) && Enabled(s, step) && step.Commit?
    ensures FilesExist(Next(s, step)) <==> Own(s, step.u)
  {
    var next := Next(s, step);
    var version := s.uploads[step.u].version;
    assert RowHasFile(next, version) <==> Own(s, step.u);
    forall v | v in s.rows && v != version ensures RowHasFile(next, v) {
      assert RowHasFile(s, v);
    }
  }

  lemma QuietStepKeepsFiles(s: System, step: Step)
    requires Base(s) && FilesExist(s) && Enabled(s, step) && !step.DeleteStored? && !step.Commit?
    ensures FilesExist(Next(s, step))
  {
    var next := Next(s, step);
    forall v | v in next.rows ensures RowHasFile(next, v) {
      assert RowHasFile(s, v);
    }
  }

  /** A file waits for its commit untouched, but for a delete of another upload's cleanup. */
  lemma OwnFileStays(s: System, step: Step, u: nat)
    requires Base(s) && Enabled(s, step) && u in s.uploads && Linked(s.uploads[u].phase) && Own(s, u)
    requires Linked(Next(s, step).uploads[u].phase)
    ensures Own(Next(s, step), u) || (step.DeleteStored? && step.u != u && s.uploads[step.u].name == s.uploads[u].name)
  {
    assert UploadHolds(s, u);
    if !step.Crash? {
      assert UploadHolds(s, step.u);
    }
    hide RowsHold, Contiguous;
  }

  lemma StepKeepsFiles(s: System, step: Step)
    requires Invariant(s) && Enabled(s, step) && DeletesOwn(s, step)
    ensures FilesExist(Next(s, step))
  {
    FileIsLostExactlyWhen(s, step);
    if step.DeleteStored? {
      forall v | v in s.rows ensures s.rows[v].name != s.uploads[step.u].name {
        CommittedFileIsTheirs(s, v, step.u);
      }
    }
  }

  lemma CommittedFileIsTheirs(s: System, v: nat, u: nat)
    requires RowsHold(s) && FilesExist(s) && v in s.rows && u in s.uploads && !s.uploads[u].phase.Done?
    ensures File(s.rows[v].name) in s.entries && s.entries[File(s.rows[v].name)].owner != u
  {
    assert RowHasFile(s, v) && RowIsOf(s, s.rows[v]);
  }

  lemma StepKeepsAllOwn(s: System, step: Step)
    requires Base(s) && AllOwn(s) && Enabled(s, step) && DeletesOwn(s, step)
    ensures AllOwn(Next(s, step))
  {
    var next := Next(s, step);
    forall u | u in next.uploads && Linked(next.uploads[u].phase) ensures Own(next, u) {
      if Linked(s.uploads[u].phase) {
        OwnFileStays(s, step, u);
      }
    }
  }

  lemma StepKeepsInvariant(s: System, step: Step)
    requires Invariant(s) && Enabled(s, step) && DeletesOwn(s, step)
    ensures Invariant(Next(s, step))
  {
    StepKeepsBase(s, step);
    StepKeepsFiles(s, step);
    StepKeepsAllOwn(s, step);
  }

  // Runs.

  ghost predicate Reaches(s: System, steps: seq<Step>, end: System)
    decreases |steps|
  {
    if steps == [] then s == end
    else Enabled(s, steps[0]) && Reaches(Next(s, steps[0]), steps[1..], end)
  }

  // What an upload that nobody disturbs comes to, and what a failed one leaves.

  /** Reservations go, files go unless a version refers to them, and other dot files stay. */
  lemma ResidueByKind(rows: map<nat, Row>, version: nat, name: string)
    ensures Residue(rows, Reservation(version)) && !Residue(rows, Hidden(name))
    ensures Residue(rows, File(name)) <==> forall v :: v in rows ==> rows[v].name != name
  {
  }

  lemma Prepend(s: System, step: Step, steps: seq<Step>, end: System)
    requires Enabled(s, step) && Reaches(Next(s, step), steps, end)
    ensures Reaches(s, [step] + steps, end)
  {
    assert ([step] + steps)[1..] == steps;
  }

  /** What reconciliation leaves of the directory. */
  ghost function Reconciliation(entries: map<Entry, Blob>, rows: map<nat, Row>, todo: set<Entry>): map<Entry, Blob> {
    map e | e in entries && !(e in todo && Residue(rows, e)) :: entries[e]
  }

  lemma CommitsAlone(s: System, u: nat) returns (steps: seq<Step>, end: System)
    requires u in s.uploads && s.uploads[u].phase == Stored && s.uploads[u].version !in s.rows
    requires !Referenced(s.rows, s.uploads[u].name)
    ensures Reaches(s, steps, end)
    ensures var a := s.uploads[u];
      end == s.(rows := s.rows[a.version := Row(a.name, a.content, u)], lock := None, uploads := s.uploads[u := a.(phase := Done)])
  {
    var s1 := Next(s, Insert(u));
    end := Next(s1, Commit(u));
    assert Reaches(end, [], end);
    Prepend(s1, Commit(u), [], end);
    Prepend(s, Insert(u), [Commit(u)] + [], end);
    steps := [Insert(u)] + ([Commit(u)] + []);
  }

  lemma PublishesAlone(s: System, u: nat) returns (steps: seq<Step>, end: System)
    requires u in s.uploads && s.uploads[u].phase == Reserving
    requires File(s.uploads[u].name) !in s.entries && Reservation(s.uploads[u].version) !in s.entries
    ensures Reaches(s, steps, end)
    ensures var a := s.uploads[u];
      end == s.(entries := s.entries[File(a.name) := Blob(u, a.content)], uploads := s.uploads[u := a.(phase := Stored)])
  {
    var a := s.uploads[u];
    var s1 := Next(s, LinkReservation(u));
    var s2 := Next(s1, LinkTarget(u));
    end := Next(s2, DropReservation(u));
    assert end.entries == s.entries[File(a.name) := Blob(u, a.content)];
    assert Reaches(end, [], end);
    Prepend(s2, DropReservation(u), [], end);
    Prepend(s1, LinkTarget(u), [DropReservation(u)] + [], end);
    Prepend(s, LinkReservation(u), [LinkTarget(u)] + ([DropReservation(u)] + []), end);
    steps := [LinkReservation(u)] + ([LinkTarget(u)] + ([DropReservation(u)] + []));
  }

  lemma {:induction false} ReconcilesAlone(s: System, u: nat) returns (steps: seq<Step>, end: System)
    requires u in s.uploads && s.uploads[u].phase.Reconciling?
    ensures Reaches(s, steps, end)
    ensures end == s.(entries := Reconciliation(s.entries, s.rows, s.uploads[u].phase.todo),
                      uploads := s.uploads[u := s.uploads[u].(phase := Reserving)])
    decreases |s.uploads[u].phase.todo|
  {
    hide Referenced;
    var todo := s.uploads[u].phase.todo;
    if todo == {} {
      end := Next(s, Reconciled(u));
      assert Reaches(end, [], end);
      Prepend(s, Reconciled(u), [], end);
      steps := [Reconciled(u)] + [];
      assert Reconciliation(s.entries, s.rows, todo) == s.entries;
    } else {
      var e :| e in todo;
      var s1 := Next(s, Reconcile(u, e));
      steps, end := ReconcilesAlone(s1, u);
      Prepend(s, Reconcile(u, e), steps, end);
      steps := [Reconcile(u, e)] + steps;
      assert Reconciliation(s1.entries, s.rows, todo - {e}) == Reconciliation(s.entries, s.rows, todo);
    }
  }

  lemma {:induction false} ReachesAppend(s: System, steps: seq<Step>, middle: System, more: seq<Step>, end: System)
    requires Reaches(s, steps, middle) && Reaches(middle, more, end)
    ensures Reaches(s, steps + more, end)
    decreases |steps|
  {
    if steps == [] {
      assert steps + more == more;
    } else {
      ReachesAppend(Next(s, steps[0]), steps[1..], middle, more, end);
      assert (steps + more)[1..] == steps[1..] + more;
    }
  }

  /**
    With n versions committed and the lock free, an upload that nobody disturbs becomes version
    n + 1 under any name no version has, whatever residue lies in the directory; the residue is
    gone, and nothing else has changed.
  */
  lemma UndisturbedUpload(s: System, u: nat, name: string, n: nat) returns (steps: seq<Step>, end: System)
    requires s.lock == None && u in s.uploads && s.uploads[u].phase == Waiting
    requires Counts(s.rows, n) && forall v :: v in s.rows ==> s.rows[v].name != name
    ensures Reaches(s, steps, end) && end.lock == None
    ensures end.rows == s.rows[n + 1 := Row(name, s.uploads[u].content, u)]
    ensures end.uploads == s.uploads[u := Upload(s.uploads[u].content, name, n + 1, Done)]
    ensures end.entries == Reconciliation(s.entries, s.rows, s.entries.Keys)[File(name) := Blob(u, s.uploads[u].content)]
  {
    assert n > 0 ==> n in s.rows;
    assert IsLatest(s.rows, n);
    var begun := Next(s, Begin(u, name, n + 1));
    var first, kept := ReconcilesAlone(begun, u);
    ResidueByKind(s.rows, n + 1, name);
    hide Reaches, Enabled, Next, Residue, Counts, IsLatest;
    var second, stored := PublishesAlone(kept, u);
    steps, end := CommitsAlone(stored, u);
    ReachesAppend(kept, second, stored, steps, end);
    ReachesAppend(begun, first, kept, second + steps, end);
    Prepend(s, Begin(u, name, n + 1), first + (second + steps), end);
    steps := [Begin(u, name, n + 1)] + (first + (second + steps));
  }

  /** Whoever has the lock is inside its transaction. */
  ghost predicate LockHeld(s: System) {
    s.lock.Some? ==> s.lock.value in s.uploads && InTransaction(s.uploads[s.lock.value].phase)
  }

  lemma StepKeepsLockHeld(s: System, step: Step)
    requires Base(s) && LockHeld(s) && Enabled(s, step)
    ensures LockHeld(Next(s, step))
  {
    if !step.Crash? {
      assert UploadHolds(s, step.u);
    }
    hide RowsHold, Contiguous, OwnerIsKnown, Residue, Referenced, IsLatest;
  }

  /** Whatever fails, the lock is free again as soon as the transaction is over. */
  lemma {:induction false} LockIsFreed(s: System, steps: seq<Step>, end: System)
    requires Base(s) && LockHeld(s) && Reaches(s, steps, end)
    ensures LockHeld(end)
    decreases |steps|
  {
    if steps != [] {
      StepKeepsLockHeld(s, steps[0]);
      StepKeepsBase(s, steps[0]);
      LockIsFreed(Next(s, steps[0]), steps[1..], end);
    }
  }

  /** A crash can come at any moment; it frees the lock and ends every upload that is not done. */
  lemma CrashAnywhere(s: System)
    ensures Enabled(s, Crash)
    ensures var next := Next(s, Crash);
      && next.lock == None && next.entries == s.entries && next.rows == s.rows && next.uploads.Keys == s.uploads.Keys
      && forall u :: u in s.uploads ==>
           next.uploads[u] == if s.uploads[u].phase == Done then s.uploads[u] else s.uploads[u].(phase := Failed)
  {
  }

  /**
    A publication that finds a name taken, or fails with cleanups that work, leaves nothing of its
    own behind, takes nothing of anybody else's away, and frees the lock.
  */
  lemma FailedPublicationLeavesNothing(s: System, u: nat, step: Step)
    requires Enabled(s, step) && u in s.uploads
    requires var a := s.uploads[u];
      || step == FailPublication(u, true, true)
      || (step == LinkReservation(u) && Reservation(a.version) in s.entries)
      || (step == LinkTarget(u) && File(a.name) in s.entries)
    requires forall e :: e in s.entries && s.entries[e].owner == u ==>
      e == Reservation(s.uploads[u].version) || e == File(s.uploads[u].name)
    ensures var next := Next(s, step);
      && next.lock == None && next.rows == s.rows && next.uploads == s.uploads[u := s.uploads[u].(phase := Failed)]
      && next.entries == map e | e in s.entries && s.entries[e].owner != u :: s.entries[e]
  {
  }

  /** No cleanup of the run deletes a file that is no longer its upload's own. */
  ghost predicate Guarded(s: System, steps: seq<Step>)
    decreases |steps|
  {
    steps != [] && Enabled(s, steps[0]) ==> DeletesOwn(s, steps[0]) && Guarded(Next(s, steps[0]), steps[1..])
  }

  lemma {:induction false} RunsKeepInvariant(s: System, steps: seq<Step>, end: System)
    requires Invariant(s) && Reaches(s, steps, end) && Guarded(s, steps)
    ensures Invariant(end)
    decreases |steps|
  {
    if steps != [] {
      StepKeepsInvariant(s, steps[0]);
      RunsKeepInvariant(Next(s, steps[0]), steps[1..], end);
    }
  }

  lemma StartHasInvariant(s: System)
    requires Start(s)
    ensures Invariant(s)
  {
    assert Counts(s.rows, 0);
  }

  /**
    Across failures at any step and crashes at any moment: every committed version has its file,
    unchanged, and the version numbers are exactly 1..n, as long as every cleanup deletes its own.
  */
  lemma CommittedVersionsHaveTheirFiles(s: System, steps: seq<Step>, end: System)
    requires Start(s) && Reaches(s, steps, end) && Guarded(s, steps)
    ensures FilesExist(end) && Contiguous(end)
  {
    StartHasInvariant(s);
    RunsKeepInvariant(s, steps, end);
  }

  // Exactly when files are lost.

  /** Every committed version has its file at every moment of the run. */
  ghost predicate AlwaysFiles(s: System, steps: seq<Step>)
    decreases |steps|
  {
    FilesExist(s) && (steps != [] && Enabled(s, steps[0]) ==> AlwaysFiles(Next(s, steps[0]), steps[1..]))
  }

  /** The first step is a cleanup deleting the file of another upload, one that has committed or is still going to. */
  ghost predicate Robs(s: System, steps: seq<Step>)
    requires steps != [] && Enabled(s, steps[0])
  {
    && steps[0].DeleteStored?
    && var e := File(s.uploads[steps[0].u].name);
       && e in s.entries
       && var w := s.entries[e].owner;
          && w != steps[0].u && w in s.uploads
          && (s.uploads[w].phase.Done? || Commit(w) in steps[1..])
  }

  ghost predicate NothingRobbed(s: System, steps: seq<Step>)
    decreases |steps|
  {
    steps != [] && Enabled(s, steps[0]) ==> !Robs(s, steps) && NothingRobbed(Next(s, steps[0]), steps[1..])
  }

  /** Whoever is going to commit still has its file. */
  ghost predicate CommittersOwn(s: System, steps: seq<Step>) {
    forall u :: u in s.uploads && Linked(s.uploads[u].phase) && Commit(u) in steps ==> Own(s, u)
  }

  lemma CommittersKeepTheirs(s: System, steps: seq<Step>)
    requires Base(s) && steps != [] && Enabled(s, steps[0]) && !Robs(s, steps) && CommittersOwn(s, steps)
    ensures CommittersOwn(Next(s, steps[0]), steps[1..])
  {
    var next := Next(s, steps[0]);
    forall u | u in next.uploads && Linked(next.uploads[u].phase) && Commit(u) in steps[1..] ensures Own(next, u) {
      if Linked(s.uploads[u].phase) {
        assert Commit(u) in steps;
        OwnFileStays(s, steps[0], u);
      } else {
        NewlyLinkedIsOwn(s, steps[0], u);
      }
    }
  }

  lemma NewlyLinkedIsOwn(s: System, step: Step, u: nat)
    requires Enabled(s, step) && u in s.uploads && !Linked(s.uploads[u].phase) && Linked(Next(s, step).uploads[u].phase)
    ensures Own(Next(s, step), u)
  {
  }

  lemma UnrobbedStepsLoseNothing(s: System, steps: seq<Step>)
    requires Base(s) && FilesExist(s) && steps != [] && Enabled(s, steps[0]) && !Robs(s, steps) && CommittersOwn(s, steps)
    ensures FilesExist(Next(s, steps[0]))
  {
    var step := steps[0];
    FileIsLostExactlyWhen(s, step);
    if step.DeleteStored? {
      forall v | v in s.rows ensures s.rows[v].name != s.uploads[step.u].name {
        CommittedFileIsTheirs(s, v, step.u);
        assert RowHasFile(s, v) && RowIsOf(s, s.rows[v]);
      }
    }
    assert step.Commit? ==> Commit(step.u) in steps;
  }

  lemma {:induction false} UnrobbedRunsLoseNothing(s: System, steps: seq<Step>, end: System)
    requires Base(s) && FilesExist(s) && CommittersOwn(s, steps) && Reaches(s, steps, end) && NothingRobbed(s, steps)
    ensures AlwaysFiles(s, steps)
    decreases |steps|
  {
    if steps != [] {
      StepKeepsBase(s, steps[0]);
      UnrobbedStepsLoseNothing(s, steps);
      CommittersKeepTheirs(s, steps);
      hide Base, FilesExist, CommittersOwn, Next, Robs;
      UnrobbedRunsLoseNothing(Next(s, steps[0]), steps[1..], end);
    }
  }

  /** An upload that is through never commits again. */
  lemma {:induction false} ThroughStaysThrough(s: System, steps: seq<Step>, end: System, w: nat)
    requires w in s.uploads && Reaches(s, steps, end)
    requires Through(s.uploads[w].phase)
    ensures Commit(w) !in steps
    decreases |steps|
  {
    if steps != [] {
      StaysThrough(s, steps[0], w);
      ThroughStaysThrough(Next(s, steps[0]), steps[1..], end, w);
    }
  }

  lemma StaysThrough(s: System, step: Step, w: nat)
    requires w in s.uploads && Enabled(s, step)
    requires Through(s.uploads[w].phase)
    ensures Through(Next(s, step).uploads[w].phase)
    ensures step != Commit(w)
  {
    hide Referenced, IsLatest, Residue;
  }

  /** Nobody brings back the file of an upload that holds the lock. */
  lemma GoneStaysGone(s: System, step: Step, w: nat)
    requires Base(s) && w in s.uploads && Linked(s.uploads[w].phase) && File(s.uploads[w].name) !in s.entries
    requires Enabled(s, step) && step != Commit(w)
    ensures var b := Next(s, step).uploads[w];
      if Linked(b.phase) then File(b.name) !in Next(s, step).entries else Through(b.phase)
  {
    assert UploadHolds(s, w);
    if !step.Crash? {
      assert UploadHolds(s, step.u);
    }
    hide RowsHold, Contiguous, OwnerIsKnown, Referenced, IsLatest, Residue;
  }

  lemma {:induction false} RobbedCommitLoses(s: System, steps: seq<Step>, end: System, w: nat)
    requires Base(s) && w in s.uploads && Linked(s.uploads[w].phase) && File(s.uploads[w].name) !in s.entries
    requires Reaches(s, steps, end) && Commit(w) in steps
    ensures !AlwaysFiles(s, steps)
    decreases |steps|
  {
    var next := Next(s, steps[0]);
    if FilesExist(s) {
      FileIsLostExactlyWhen(s, steps[0]);
      if steps[0] == Commit(w) {
        assert !FilesExist(next);
      } else {
        GoneStaysGone(s, steps[0], w);
        StepKeepsBase(s, steps[0]);
        hide Base, FilesExist, Next;
        if Linked(next.uploads[w].phase) {
          RobbedCommitLoses(next, steps[1..], end, w);
        } else {
          ThroughStaysThrough(next, steps[1..], end, w);
        }
      }
    }
  }

  lemma RobbedStepLoses(s: System, steps: seq<Step>, end: System)
    requires Base(s) && Reaches(s, steps, end) && steps != [] && Robs(s, steps)
    ensures !AlwaysFiles(s, steps)
  {
    var u := steps[0].u;
    var w := s.entries[File(s.uploads[u].name)].owner;
    var next := Next(s, steps[0]);
    assert UploadHolds(s, u) && UploadHolds(s, w);
    if s.uploads[w].phase.Done? {
      var v :| v in s.rows && s.rows[v].owner == w;
      assert RowIsOf(s, s.rows[v]);
      assert !RowHasFile(next, v);
    } else {
      StepKeepsBase(s, steps[0]);
      if Linked(s.uploads[w].phase) {
        RobbedCommitLoses(next, steps[1..], end, w);
      } else {
        ThroughStaysThrough(next, steps[1..], end, w);
      }
    }
  }

  /**
    Over any run, whatever fails or crashes in it: every committed version has its file at every
    moment if and only if no cleanup deletes a file of another upload that has committed or is
    still going to. The version numbers are exactly 1..n in any case.
  */
  lemma FilesStayExactlyWhen(s: System, steps: seq<Step>, end: System)
    requires Start(s) && Reaches(s, steps, end)
    ensures AlwaysFiles(s, steps) <==> NothingRobbed(s, steps)
    ensures Contiguous(end)
  {
    StartHasInvariant(s);
    RunsKeepBase(s, steps, end);
    FilesStayFrom(s, steps, end);
  }

  lemma {:induction false} RunsKeepBase(s: System, steps: seq<Step>, end: System)
    requires Base(s) && Reaches(s, steps, end)
    ensures Base(end)
    decreases |steps|
  {
    if steps != [] {
      StepKeepsBase(s, steps[0]);
      RunsKeepBase(Next(s, steps[0]), steps[1..], end);
    }
  }

  lemma FilesStayFrom(s: System, steps: seq<Step>, end: System)
    requires Base(s) && FilesExist(s) && CommittersOwn(s, steps) && Reaches(s, steps, end)
    ensures AlwaysFiles(s, steps) <==> NothingRobbed(s, steps)
  {
    if NothingRobbed(s, steps) {
      UnrobbedRunsLoseNothing(s, steps, end);
    }
    if AlwaysFiles(s, steps) {
      KeptRunsAreUnrobbed(s, steps, end);
    }
  }

  lemma {:induction false} KeptRunsAreUnrobbed(s: System, steps: seq<Step>, end: System)
    requires Base(s) && Reaches(s, steps, end) && AlwaysFiles(s, steps)
    ensures NothingRobbed(s, steps)
    decreases |steps|
  {
    if steps != [] {
      if Robs(s, steps) {
        RobbedStepLoses(s, steps, end);
      }
      StepKeepsBase(s, steps[0]);
      hide Base, FilesExist, Robs;
      KeptRunsAreUnrobbed(Next(s, steps[0]), steps[1..], end);
    }
  }

  // When the guard holds.

  /** No upload begins while the cleanup of another is outstanding. */
  ghost predicate Patient(s: System, steps: seq<Step>)
    decreases |steps|
  {
    steps != [] && Enabled(s, steps[0]) ==>
      && (steps[0].Begin? ==> forall u :: u in s.uploads ==> !CleaningUp(s.uploads[u].phase))
      && Patient(Next(s, steps[0]), steps[1..])
  }

  ghost predicate CleansAlone(s: System) {
    forall u :: u in s.uploads && CleaningUp(s.uploads[u].phase) ==> s.lock == None && OwnOrGone(s, u)
  }

  ghost predicate OwnOrGone(s: System, u: nat)
    requires u in s.uploads
  {
    var e := File(s.uploads[u].name);
    e in s.entries ==> s.entries[e].owner == u
  }

  lemma StepKeepsCleansAlone(s: System, step: Step)
    requires Invariant(s) && CleansAlone(s) && Enabled(s, step)
    requires step.Begin? ==> forall u :: u in s.uploads ==> !CleaningUp(s.uploads[u].phase)
    ensures DeletesOwn(s, step) && CleansAlone(Next(s, step))
  {
    if !step.Crash? {
      assert UploadHolds(s, step.u);
    }
  }

  /** Under that discipline the guard takes care of itself, so no committed file is ever lost. */
  lemma {:induction false} PatientRunsAreGuarded(s: System, steps: seq<Step>, end: System)
    requires Invariant(s) && CleansAlone(s) && Reaches(s, steps, end) && Patient(s, steps)
    ensures Guarded(s, steps)
    ensures Invariant(end)
    decreases |steps|
  {
    if steps != [] {
      StepKeepsCleansAlone(s, steps[0]);
      StepKeepsInvariant(s, steps[0]);
      PatientRunsAreGuarded(Next(s, steps[0]), steps[1..], end);
    }
  }

  // Without it.

  /** Two uploads of the same bytes that will be given the same name. */
  function Two(n: string, x: Content, first: Phase, second: Phase, entries: map<Entry, Blob>, rows: map<nat, Row>, lock: Option<nat>)
    : System
  {
    System(entries, rows, lock, map[0 := Upload(x, n, 1, first), 1 := Upload(x, n, 1, second)])
  }

  ghost predicate Leads(s: System, step: Step, next: System) {
    Enabled(s, step) && Next(s, step) == next
  }

  lemma FirstStep(s: System, step: Step, next: System, rest: seq<Step>, end: System)
    requires Leads(s, step, next) && Reaches(next, rest, end)
    ensures Reaches(s, [step] + rest, end)
  {
    assert ([step] + rest)[1..] == rest;
  }

  lemma FourSteps(a: System, x: Step, b: System, y: Step, c: System, z: Step, d: System, w: Step, e: System,
      rest: seq<Step>, end: System)
    requires Leads(a, x, b) && Leads(b, y, c) && Leads(c, z, d) && Leads(d, w, e) && Reaches(e, rest, end)
    ensures Reaches(a, [x] + ([y] + ([z] + ([w] + rest))), end)
  {
    hide Leads;
    FirstStep(d, w, e, rest, end);
    FirstStep(c, z, d, [w] + rest, end);
    FirstStep(b, y, c, [z] + ([w] + rest), end);
    FirstStep(a, x, b, [y] + ([z] + ([w] + rest)), end);
  }

  lemma FirstBegins(n: string, x: Content, none: map<Entry, Blob>, rows: map<nat, Row>)
    requires none == map[] && rows == map[]
    ensures Leads(Two(n, x, Waiting, Waiting, none, rows, None), Begin(0, n, 1),
                  Two(n, x, Reconciling({}), Waiting, none, rows, Some(0)))
    ensures Leads(Two(n, x, Reconciling({}), Waiting, none, rows, Some(0)), Reconciled(0),
                  Two(n, x, Reserving, Waiting, none, rows, Some(0)))
  {
    assert none.Keys == {};
  }

  lemma FirstPublishes(n: string, x: Content, none: map<Entry, Blob>, rows: map<nat, Row>)
    requires none == map[] && rows == map[]
    ensures var r, f := Reservation(1), File(n);
      && Leads(Two(n, x, Reserving, Waiting, none, rows, Some(0)), LinkReservation(0),
               Two(n, x, Targeting, Waiting, map[r := Blob(0, x)], rows, Some(0)))
      && Leads(Two(n, x, Targeting, Waiting, map[r := Blob(0, x)], rows, Some(0)), LinkTarget(0),
               Two(n, x, DroppingReservation, Waiting, map[r := Blob(0, x), f := Blob(0, x)], rows, Some(0)))
      && Leads(Two(n, x, DroppingReservation, Waiting, map[r := Blob(0, x), f := Blob(0, x)], rows, Some(0)),
               DropReservation(0), Two(n, x, Stored, Waiting, map[f := Blob(0, x)], rows, Some(0)))
      && Leads(Two(n, x, Stored, Waiting, map[f := Blob(0, x)], rows, Some(0)), Rollback(0),
               Two(n, x, Cleaning, Waiting, map[f := Blob(0, x)], rows, None))
  {
  }

  lemma SecondBegins(n: string, x: Content, none: map<Entry, Blob>, rows: map<nat, Row>)
    requires none == map[] && rows == map[]
    ensures var f := File(n);
      && Leads(Two(n, x, Cleaning, Waiting, map[f := Blob(0, x)], rows, None), Begin(1, n, 1),
               Two(n, x, Cleaning, Reconciling({f}), map[f := Blob(0, x)], rows, Some(1)))
      && Leads(Two(n, x, Cleaning, Reconciling({f}), map[f := Blob(0, x)], rows, Some(1)), Reconcile(1, f),
               Two(n, x, Cleaning, Reconciling({}), none, rows, Some(1)))
      && Leads(Two(n, x, Cleaning, Reconciling({}), none, rows, Some(1)), Reconciled(1),
               Two(n, x, Cleaning, Reserving, none, rows, Some(1)))
  {
    var f := File(n);
    assert map[f := Blob(0, x)].Keys == {f} && {f} - {f} == {} && map[f := Blob(0, x)] - {f} == none;
  }

  lemma SecondPublishes(n: string, x: Content, none: map<Entry, Blob>, rows: map<nat, Row>)
    requires none == map[] && rows == map[]
    ensures var r, f := Reservation(1), File(n);
      && Leads(Two(n, x, Cleaning, Reserving, none, rows, Some(1)), LinkReservation(1),
               Two(n, x, Cleaning, Targeting, map[r := Blob(1, x)], rows, Some(1)))
      && Leads(Two(n, x, Cleaning, Targeting, map[r := Blob(1, x)], rows, Some(1)), LinkTarget(1),
               Two(n, x, Cleaning, DroppingReservation, map[r := Blob(1, x), f := Blob(1, x)], rows, Some(1)))
      && Leads(Two(n, x, Cleaning, DroppingReservation, map[r := Blob(1, x), f := Blob(1, x)], rows, Some(1)),
               DropReservation(1), Two(n, x, Cleaning, Stored, map[f := Blob(1, x)], rows, Some(1)))
  {
  }

  lemma SecondCommits(n: string, x: Content, none: map<Entry, Blob>, rows: map<nat, Row>)
    requires none == map[] && rows == map[]
    ensures var f, row := File(n), map[1 := Row(n, x, 1)];
      && Leads(Two(n, x, Cleaning, Stored, map[f := Blob(1, x)], rows, Some(1)), Insert(1),
               Two(n, x, Cleaning, Inserted, map[f := Blob(1, x)], rows, Some(1)))
      && Leads(Two(n, x, Cleaning, Inserted, map[f := Blob(1, x)], rows, Some(1)), Commit(1),
               Two(n, x, Cleaning, Done, map[f := Blob(1, x)], row, None))
      && Leads(Two(n, x, Cleaning, Done, map[f := Blob(1, x)], row, None), CompareStored(0),
               Two(n, x, Unlinking, Done, map[f := Blob(1, x)], row, None))
      && Leads(Two(n, x, Unlinking, Done, map[f := Blob(1, x)], row, None), DeleteStored(0),
               Two(n, x, Failed, Done, none, row, None))
  {
    var f := File(n);
    assert rows[1 := Row(n, x, 1)] == map[1 := Row(n, x, 1)] && map[f := Blob(1, x)] - {f} == none;
  }

  predicate NoDeletes(steps: seq<Step>) {
    forall k :: 0 <= k < |steps| ==> !steps[k].DeleteStored?
  }

  lemma FirstHalf(n: string, x: Content, none: map<Entry, Blob>, rows: map<nat, Row>, rest: seq<Step>, end: System)
    returns (steps: seq<Step>)
    requires none == map[] && rows == map[]
    requires Reaches(Two(n, x, Cleaning, Reconciling({}), none, rows, Some(1)), rest, end)
    ensures Reaches(Two(n, x, Waiting, Waiting, none, rows, None), steps, end)
    ensures NoDeletes(rest) ==> NoDeletes(steps)
  {
    var r, f := Reservation(1), File(n);
    FirstBegins(n, x, none, rows);
    FirstPublishes(n, x, none, rows);
    SecondBegins(n, x, none, rows);
    hide Leads, Two, Reaches;
    var s1 := Two(n, x, DroppingReservation, Waiting, map[r := Blob(0, x), f := Blob(0, x)], rows, Some(0));
    FourSteps(s1, DropReservation(0), Two(n, x, Stored, Waiting, map[f := Blob(0, x)], rows, Some(0)),
              Rollback(0), Two(n, x, Cleaning, Waiting, map[f := Blob(0, x)], rows, None),
              Begin(1, n, 1), Two(n, x, Cleaning, Reconciling({f}), map[f := Blob(0, x)], rows, Some(1)),
              Reconcile(1, f), Two(n, x, Cleaning, Reconciling({}), none, rows, Some(1)), rest, end);
    var t1 := [DropReservation(0)] + ([Rollback(0)] + ([Begin(1, n, 1)] + ([Reconcile(1, f)] + rest)));
    FourSteps(Two(n, x, Waiting, Waiting, none, rows, None),
              Begin(0, n, 1), Two(n, x, Reconciling({}), Waiting, none, rows, Some(0)),
              Reconciled(0), Two(n, x, Reserving, Waiting, none, rows, Some(0)),
              LinkReservation(0), Two(n, x, Targeting, Waiting, map[r := Blob(0, x)], rows, Some(0)),
              LinkTarget(0), s1, t1, end);
    steps := [Begin(0, n, 1)] + ([Reconciled(0)] + ([LinkReservation(0)] + ([LinkTarget(0)] + t1)));
  }

  lemma SecondStores(n: string, x: Content, none: map<Entry, Blob>, rows: map<nat, Row>, rest: seq<Step>, end: System)
    returns (steps: seq<Step>)
    requires none == map[] && rows == map[]
    requires Reaches(Two(n, x, Cleaning, Stored, map[File(n) := Blob(1, x)], rows, Some(1)), rest, end)
    ensures Reaches(Two(n, x, Cleaning, Reconciling({}), none, rows, Some(1)), steps, end)
    ensures NoDeletes(rest) ==> NoDeletes(steps)
  {
    hide Leads, Two, Reaches;
    var r, f := Reservation(1), File(n);
    SecondBegins(n, x, none, rows);
    SecondPublishes(n, x, none, rows);
    FourSteps(Two(n, x, Cleaning, Reconciling({}), none, rows, Some(1)),
              Reconciled(1), Two(n, x, Cleaning, Reserving, none, rows, Some(1)),
              LinkReservation(1), Two(n, x, Cleaning, Targeting, map[r := Blob(1, x)], rows, Some(1)), LinkTarget(1),
              Two(n, x, Cleaning, DroppingReservation, map[r := Blob(1, x), f := Blob(1, x)], rows, Some(1)),
              DropReservation(1), Two(n, x, Cleaning, Stored, map[f := Blob(1, x)], rows, Some(1)), rest, end);
    steps := [Reconciled(1)] + ([LinkReservation(1)] + ([LinkTarget(1)] + ([DropReservation(1)] + rest)));
  }

  lemma SecondHalf(n: string, x: Content, none: map<Entry, Blob>, rows: map<nat, Row>) returns (steps: seq<Step>)
    requires none == map[] && rows == map[]
    ensures Reaches(Two(n, x, Cleaning, Reconciling({}), none, rows, Some(1)), steps,
                    Two(n, x, Failed, Done, none, map[1 := Row(n, x, 1)], None))
  {
    hide Leads, Two;
    var f, row := File(n), map[1 := Row(n, x, 1)];
    var end := Two(n, x, Failed, Done, none, row, None);
    assert Reaches(end, [], end);
    hide Reaches;
    SecondCommits(n, x, none, rows);
    FourSteps(Two(n, x, Cleaning, Stored, map[f := Blob(1, x)], rows, Some(1)),
              Insert(1), Two(n, x, Cleaning, Inserted, map[f := Blob(1, x)], rows, Some(1)),
              Commit(1), Two(n, x, Cleaning, Done, map[f := Blob(1, x)], row, None),
              CompareStored(0), Two(n, x, Unlinking, Done, map[f := Blob(1, x)], row, None), DeleteStored(0), end, [], end);
    steps := SecondStores(n, x, none, rows, [Insert(1)] + ([Commit(1)] + ([CompareStored(0)] + ([DeleteStored(0)] + []))), end);
  }

  /**
    Two uploads of the same bytes under the same name. The first fails after storing its file and
    rolls back; before it cleans up, the second stores the file again and commits. The first then
    deletes what the second committed.
  */
  lemma CleanupCanDeleteACommittedFile(n: string, x: Content)
    ensures exists s, steps, end ::
      Start(s) && Reaches(s, steps, end) && end.rows == map[1 := Row(n, x, 1)] && File(n) !in end.entries
  {
    var none: map<Entry, Blob> := map[];
    var rows: map<nat, Row> := map[];
    var s, end := Two(n, x, Waiting, Waiting, none, rows, None), Two(n, x, Failed, Done, none, map[1 := Row(n, x, 1)], None);
    var later := SecondHalf(n, x, none, rows);
    var steps := FirstHalf(n, x, none, rows, later, end);
    assert Start(s) && end.rows == map[1 := Row(n, x, 1)] && File(n) !in end.entries;
  }

  lemma SecondCommitsTooLate(n: string, x: Content, none: map<Entry, Blob>, rows: map<nat, Row>)
    requires none == map[] && rows == map[]
    ensures var f := File(n);
      && Leads(Two(n, x, Cleaning, Stored, map[f := Blob(1, x)], rows, Some(1)), CompareStored(0),
               Two(n, x, Unlinking, Stored, map[f := Blob(1, x)], rows, Some(1)))
      && Leads(Two(n, x, Unlinking, Stored, map[f := Blob(1, x)], rows, Some(1)), DeleteStored(0),
               Two(n, x, Failed, Stored, none, rows, Some(1)))
      && Leads(Two(n, x, Failed, Stored, none, rows, Some(1)), Insert(1), Two(n, x, Failed, Inserted, none, rows, Some(1)))
      && Leads(Two(n, x, Failed, Inserted, none, rows, Some(1)), Commit(1),
               Two(n, x, Failed, Done, none, map[1 := Row(n, x, 1)], None))
  {
    assert rows[1 := Row(n, x, 1)] == map[1 := Row(n, x, 1)];
    assert map[File(n) := Blob(1, x)] - {File(n)} == none;
  }

  /** Up to the delete: the second upload has stored the file and still holds the lock. */
  lemma UpToTheDelete(n: string, x: Content, none: map<Entry, Blob>, rows: map<nat, Row>) returns (steps: seq<Step>)
    requires none == map[] && rows == map[]
    ensures Reaches(Two(n, x, Waiting, Waiting, none, rows, None), steps,
                    Two(n, x, Unlinking, Stored, map[File(n) := Blob(1, x)], rows, Some(1)))
    ensures NoDeletes(steps)
  {
    hide Leads, Two;
    var mid := Two(n, x, Unlinking, Stored, map[File(n) := Blob(1, x)], rows, Some(1));
    assert Reaches(mid, [], mid);
    hide Reaches;
    SecondCommitsTooLate(n, x, none, rows);
    FirstStep(Two(n, x, Cleaning, Stored, map[File(n) := Blob(1, x)], rows, Some(1)), CompareStored(0), mid, [], mid);
    var later := SecondStores(n, x, none, rows, [CompareStored(0)] + [], mid);
    steps := FirstHalf(n, x, none, rows, later, mid);
  }

  /** A run with a single delete, which meets no committed version and still costs one its file. */
  ghost predicate LosesAheadOfCommit(s: System, before: seq<Step>, mid: System, after: seq<Step>, end: System, n: string, x: Content) {
    && Start(s) && Reaches(s, before, mid) && NoDeletes(before) && NoDeletes(after)
    && Enabled(mid, DeleteStored(0)) && mid.rows == map[] && Reaches(Next(mid, DeleteStored(0)), after, end)
    && end.rows == map[1 := Row(n, x, 1)] && File(n) !in end.entries
  }

  /**
    The same two uploads, with the delete before the second one commits: there is no committed
    version yet, and when there is one its file is gone already.
  */
  lemma CleanupCanDeleteAheadOfTheCommit(n: string, x: Content)
    ensures exists s, before, mid, after, end :: LosesAheadOfCommit(s, before, mid, after, end, n, x)
  {
    var none: map<Entry, Blob> := map[];
    var rows: map<nat, Row> := map[];
    var s, end := Two(n, x, Waiting, Waiting, none, rows, None), Two(n, x, Failed, Done, none, map[1 := Row(n, x, 1)], None);
    var mid := Two(n, x, Unlinking, Stored, map[File(n) := Blob(1, x)], rows, Some(1));
    var before := UpToTheDelete(n, x, none, rows);
    SecondCommitsTooLate(n, x, none, rows);
    assert Start(s) && mid.rows == map[] && end.rows == map[1 := Row(n, x, 1)] && File(n) !in end.entries;
    assert Reaches(end, [], end);
    FirstStep(Two(n, x, Failed, Inserted, none, rows, Some(1)), Commit(1), end, [], end);
    FirstStep(Two(n, x, Failed, Stored, none, rows, Some(1)), Insert(1), Two(n, x, Failed, Inserted, none, rows, Some(1)),
              [Commit(1)] + [], end);
    assert LosesAheadOfCommit(s, before, mid, [Insert(1)] + ([Commit(1)] + []), end, n, x);
  }

  // The directory as one request works on it.

  class Store {
    var entries: map<Entry, Blob>
    var rows: map<nat, Row>

    ghost predicate Valid()
      reads this
    {
      && (exists n: nat :: Counts(rows, n))
      && (forall v :: v in rows ==> Kept(entries, rows[v]))
      && (forall v, w :: v in rows && w in rows && rows[v].name == rows[w].name ==> v == w)
    }

    /** reconcile_document_versions: goes through the names once and deletes what no version refers to. */
    method ReconcileVersions(names: seq<Entry>)
      requires Valid() && (set e | e in names) == entries.Keys
      modifies `entries
      ensures Valid()
      ensures forall e :: e in old(entries) && !Residue(rows, e) ==> e in entries && entries[e] == old(entries)[e]
      ensures forall e :: e in entries ==> e in old(entries) && !Residue(rows, e)
    {
      for k := 0 to |names|
        invariant forall e :: e in old(entries) && !Residue(rows, e) ==> e in entries && entries[e] == old(entries)[e]
        invariant forall e :: e in entries ==> e in old(entries)
        invariant forall j :: 0 <= j < k && Residue(rows, names[j]) ==> names[j] !in entries
      {
        var e := names[k];
        var referenced := e.File? && exists v :: v in rows && rows[v].name == e.name;
        if !referenced && !e.Hidden? && e in entries {
          entries := entries - {e};
        }
      }
      assert forall e :: e in entries ==> e in names;
      forall v | v in rows ensures Kept(entries, rows[v]) {
        assert Kept(old(entries), rows[v]);
        assert Referenced(rows, rows[v].name);
      }
    }

    /** _unlink_bound_owned_name. */
    method UnlinkOwned(e: Entry, u: nat, works: bool)
      modifies `entries
      ensures entries == if works && e in old(entries) && old(entries)[e].owner == u then old(entries) - {e} else old(entries)
    {
      if works && e in entries && entries[e].owner == u {
        entries := entries - {e};
      }
    }

    /** _publish_exact_in_bound_directory: reservation, target, verification, and the reservation goes again. */
    method PublishExact(u: nat, name: string, content: Content, version: nat, failsAt: Option<Point>, cleanups: Cleanups)
      returns (ok: bool)
      requires forall e :: e in entries ==> entries[e].owner != u
      modifies `entries
      ensures ok <==> !InPublication(failsAt) && Reservation(version) !in old(entries) && File(name) !in old(entries)
      ensures ok ==> entries == old(entries)[File(name) := Blob(u, content)]
      ensures !ok ==> LeftOver(old(entries), entries, u, version, name, cleanups)
      ensures !ok && Reservation(version) in old(entries) ==> entries == old(entries)
      ensures !ok && Reservation(version) !in old(entries) ==>
        (Reservation(version) in entries <==> failsAt != Some(ReservationLink) && !cleanups.reservation)
      ensures !ok && File(name) !in old(entries) && Reservation(version) !in old(entries) ==>
        (File(name) in entries <==> failsAt in {Some(Verification), Some(ReservationUnlink)} && !cleanups.target)
    {
      ghost var before := entries;
      if Reservation(version) in entries || failsAt == Some(ReservationLink) {
        UnlinkOwned(Reservation(version), u, cleanups.reservation);
        return false;
      }
      entries := entries[Reservation(version) := Blob(u, content)];
      if File(name) in entries || failsAt == Some(TargetLink) {
        UnlinkOwned(Reservation(version), u, cleanups.reservation);
        assert cleanups.reservation ==> entries == before;
        return false;
      }
      entries := entries[File(name) := Blob(u, content)];
      if failsAt == Some(Verification) || failsAt == Some(ReservationUnlink) {
        UnlinkOwned(File(name), u, cleanups.target);
        UnlinkOwned(Reservation(version), u, cleanups.reservation);
        assert cleanups.target && cleanups.reservation ==> entries == before;
        return false;
      }
      UnlinkOwned(Reservation(version), u, true);
      assert entries == before[File(name) := Blob(u, content)];
      ok := true;
    }

    /** delete_stored_version: by name, size and hash. */
    method DeleteStored(name: string, content: Content, works: bool)
      modifies `entries
      ensures entries == if works && File(name) in old(entries) && old(entries)[File(name)].content == content
                         then old(entries) - {File(name)} else old(entries)
    {
      if works && File(name) in entries && entries[File(name)].content == content {
        entries := entries - {File(name)};
      }
    }

    /**
      The whole of add_document_version, or of create_document when there is no version yet, with
      the point at which something fails and the cleanups that then work.
    */
    method AddVersion(names: seq<Entry>, u: nat, name: string, content: Content, latest: nat,
        failsAt: Option<Point>, cleanups: Cleanups) returns (ok: bool)
      requires Valid() && (set e | e in names) == entries.Keys && Counts(rows, latest)
      requires forall e :: e in entries ==> entries[e].owner != u
      modifies this
      ensures Valid()
      ensures ok <==> failsAt.None? && !Referenced(old(rows), name)
      ensures ok ==> rows == old(rows)[latest + 1 := Row(name, content, u)] && Counts(rows, latest + 1)
      ensures ok ==> WithoutResidue(old(entries), old(rows), entries - {File(name)}) && Kept(entries, rows[latest + 1])
      ensures !ok ==> rows == old(rows)
      ensures !ok && AllWork(cleanups) ==> WithoutResidue(old(entries), old(rows), entries)
      ensures !ok ==> forall e :: e in entries && !Residue(rows, e) ==> e in old(entries) && entries[e] == old(entries)[e]
      ensures !ok ==> forall e :: e in old(entries) && !Residue(rows, e) ==> e in entries
    {
      hide Counts;
      ReconcileVersions(names);
      ghost var reconciled := entries;
      ok := AddToReconciled(u, name, content, latest, failsAt, cleanups);
      assert ok ==> entries - {File(name)} == reconciled;
    }

    method AddToReconciled(u: nat, name: string, content: Content, latest: nat, failsAt: Option<Point>, cleanups: Cleanups)
      returns (ok: bool)
      requires Valid() && Counts(rows, latest) && forall e :: e in entries ==> !Residue(rows, e) && entries[e].owner != u
      modifies this
      ensures Valid()
      ensures ok <==> failsAt.None? && !Referenced(old(rows), name)
      ensures ok ==> rows == old(rows)[latest + 1 := Row(name, content, u)] && Counts(rows, latest + 1)
      ensures ok ==> entries == old(entries)[File(name) := Blob(u, content)] && File(name) !in old(entries)
      ensures !ok ==> rows == old(rows) && (AllWork(cleanups) ==> entries == old(entries))
      ensures !ok ==> forall e :: e in old(entries) ==> e in entries && entries[e] == old(entries)[e]
      ensures !ok ==> forall e :: e in entries ==> e in old(entries) || Residue(rows, e)
    {
      hide Counts;
      ReconciledIsFree(entries, rows, name, latest + 1);
      ghost var before := entries;
      ok := PublishExact(u, name, content, latest + 1, failsAt, cleanups);
      forall v | v in rows ensures Kept(entries, rows[v]) {
        assert Kept(before, rows[v]);
      }
      assert Counts(rows, latest);
      if ok {
        ok := RecordVersion(u, name, content, latest, failsAt, cleanups.stored);
      }
    }

    /** The row and the commit behind a published file; after a failure the rollback and the cleanup. */
    method RecordVersion(u: nat, name: string, content: Content, latest: nat, failsAt: Option<Point>, works: bool)
      returns (ok: bool)
      requires Valid() && Counts(rows, latest)
      requires File(name) in entries && entries[File(name)] == Blob(u, content) && !Referenced(rows, name)
      modifies this
      ensures Valid()
      ensures ok <==> failsAt != Some(RowInsert) && failsAt != Some(Commitment)
      ensures ok ==> rows == old(rows)[latest + 1 := Row(name, content, u)] && Counts(rows, latest + 1)
      ensures ok ==> entries == old(entries)
      ensures !ok ==> rows == old(rows) && entries == if works then old(entries) - {File(name)} else old(entries)
    {
      ghost var before, rowsBefore := entries, rows;
      assert forall v :: v in rows ==> rows[v].name != name;
      if failsAt != Some(RowInsert) {
        rows := rows[latest + 1 := Row(name, content, u)];
        assert Counts(rows, latest + 1);
        if failsAt != Some(Commitment) {
          return true;
        }
        rows := rows - {latest + 1};
      }
      assert rows == rowsBefore;
      DeleteStored(name, content, works);
      forall v | v in rows ensures Kept(entries, rows[v]) {
        assert Kept(before, rows[v]);
      }
      ok := false;
    }
  }

  /** Where an upload can fail. */
  datatype Point = ReservationLink | TargetLink | Verification | ReservationUnlink | RowInsert | Commitment

  predicate InPublication(failsAt: Option<Point>) {
    failsAt.Some? && failsAt.value != RowInsert && failsAt.value != Commitment
  }

  /** Which of the deletions after a failure work. */
  datatype Cleanups = Cleanups(target: bool, reservation: bool, stored: bool)

  predicate AllWork(cleanups: Cleanups) {
    cleanups.target && cleanups.reservation && cleanups.stored
  }

  /** Everything is as before but for what the upload itself linked, and not even that if its cleanups worked. */
  ghost predicate LeftOver(
    before: map<Entry, Blob>, after: map<Entry, Blob>, u: nat, version: nat, name: string, cleanups: Cleanups)
  {
    && (forall e :: e in before ==> e in after && after[e] == before[e])
    && (forall e :: e in after ==> e in before || ((e == Reservation(version) || e == File(name)) && after[e].owner == u))
    && (cleanups.target && cleanups.reservation ==> after == before)
  }

  /** What was residue is gone, everything else is as it was. */
  ghost predicate WithoutResidue(before: map<Entry, Blob>, rows: map<nat, Row>, after: map<Entry, Blob>) {
    && (forall e :: e in after <==> e in before && !Residue(rows, e))
    && (forall e :: e in after ==> after[e] == before[e])
  }

  /** After reconciliation nothing but a committed version can be in the way of a new one. */
  lemma ReconciledIsFree(entries: map<Entry, Blob>, rows: map<nat, Row>, name: string, version: nat)
    requires forall e :: e in entries ==> !Residue(rows, e)
    requires forall v :: v in rows ==> Kept(entries, rows[v])
    ensures Reservation(version) !in entries && (File(name) in entries <==> Referenced(rows, name))
  {
    assert Residue(rows, Reservation(version));
    if Referenced(rows, name) {
      var v :| v in rows && rows[v].name == name;
      assert Kept(entries, rows[v]);
    } else {
      assert Residue(rows, File(name));
    }
  }

  ghost predicate Kept(entries: map<Entry, Blob>, row: Row) {
    File(row.name) in entries && entries[File(row.name)] == Blob(row.owner, row.content)
  }
}
