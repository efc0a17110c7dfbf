/**
  Migrating one database, backend/app/core/migrations.py.

  First the migrator as one process runs it, a class over the ledger table and the effects of the
  migrations' statements. Then any number of processes at once, as a state machine whose steps
  are single statements: a process reads the ledger once at the start, so what it knows may be
  stale by the time it gets the write lock.
*/
module Migrations {
  type Version = string

  const SAFE_BACKFILLS: set<Version> :=
    {"016_inventory_procurement_corrections", "017_acceptance_corrections"}

  datatype Option<T> = None | Some(value: T)

  /** One statement of one migration taking effect. */
  datatype Effect = Effect(version: Version, statement: nat)

  /** A migration file: how many statements it has. */
  datatype File = File(version: Version, statements: nat)

  function Versions(files: seq<File>): (r: set<Version>) {
    set f | f in files :: f.version
  }

  ghost predicate Distinct(files: seq<File>) {
    forall i, j :: 0 <= i < j < |files| ==> files[i].version != files[j].version
  }

  ghost predicate NoDuplicates(ledger: seq<Version>) {
    forall i, j :: 0 <= i < j < |ledger| ==> ledger[i] != ledger[j]
  }

  /** Not applied although a later file is. */
  ghost predicate Gap(files: seq<File>, applied: set<Version>, i: int) {
    && 0 <= i < |files| && files[i].version !in applied
    && exists j :: i < j < |files| && files[j].version in applied
  }

  /** The ledger names known files only and is a filename prefix, except for the safe backfills. */
  ghost predicate Sane(files: seq<File>, applied: set<Version>) {
    && applied <= Versions(files)
    && forall i :: Gap(files, applied, i) ==> files[i].version in SAFE_BACKFILLS
  }

  /** A file may be missing in front of a recorded one only if it is one of the two backfills. */
  lemma SaneExactlyWhen(files: seq<File>, applied: set<Version>)
    ensures Sane(files, applied) <==>
      && (forall v :: v in applied ==> v in Versions(files))
      && forall i, j :: 0 <= i < j < |files| && files[i].version !in applied && files[j].version in applied ==>
           files[i].version == "016_inventory_procurement_corrections" || files[i].version == "017_acceptance_corrections"
  {
    forall i, j | 0 <= i < j < |files| && files[i].version !in applied && files[j].version in applied
      ensures Gap(files, applied, i)
    {
    }
  }

  function Rows(ledger: seq<Version>): (r: set<Version>) {
    set v | v in ledger
  }

  /** The first n statements of a migration, in order. */
  function Prefix(v: Version, n: nat): (r: seq<Effect>) {
    seq(n, k requires 0 <= k => Effect(v, k))
  }

  function StatementsOf(files: seq<File>, v: Version): (r: nat) {
    if files == [] then 0 else if files[0].version == v then files[0].statements else StatementsOf(files[1..], v)
  }

  lemma {:induction false} StatementsOfFile(files: seq<File>, i: nat)
    requires Distinct(files) && i < |files|
    ensures StatementsOf(files, files[i].version) == files[i].statements
  {
    if i > 0 {
      StatementsOfFile(files[1..], i - 1);
    }
  }

  /** Every statement of every recorded migration, once and in order, and nothing else. */
  function AllEffects(files: seq<File>, ledger: seq<Version>): (r: seq<Effect>) {
    if ledger == [] then []
    else
      var last := ledger[|ledger| - 1];
      AllEffects(files, ledger[..|ledger| - 1]) + Prefix(last, StatementsOf(files, last))
  }

  lemma RecordingAddsItsStatements(files: seq<File>, ledger: seq<Version>, i: nat)
    requires Distinct(files) && i < |files|
    ensures AllEffects(files, ledger + [files[i].version])
         == AllEffects(files, ledger) + Prefix(files[i].version, files[i].statements)
  {
    StatementsOfFile(files, i);
    assert (ledger + [files[i].version])[..|ledger|] == ledger;
  }

  /** Recording a file whose predecessors are all recorded opens no gap. */
  lemma RecordingOpensNoGap(files: seq<File>, applied: set<Version>, i: nat)
    requires Distinct(files) && i < |files| && forall k :: 0 <= k < i ==> files[k].version in applied
    ensures forall k :: Gap(files, applied + {files[i].version}, k) ==> Gap(files, applied, k)
    ensures Sane(files, applied) ==> Sane(files, applied + {files[i].version})
  {
    var more := applied + {files[i].version};
    assert files[i] in files;
    forall k | Gap(files, more, k) ensures Gap(files, applied, k) {
      var j :| k < j < |files| && files[j].version in more;
      assert j != i;
    }
  }

  /** The files not in the ledger, in their order. */
  function Unrecorded(files: seq<File>, ledger: seq<Version>): (r: seq<Version>)
  {
    if files == [] then []
    else
      var last := files[|files| - 1].version;
      Unrecorded(files[..|files| - 1], ledger) + if last in ledger then [] else [last]
  }

  ghost predicate InFileOrder(files: seq<File>, versions: seq<Version>) {
    forall i, j, k, m :: 0 <= i < j < |versions| && 0 <= k < |files| && 0 <= m < |files| ==>
      files[k].version == versions[i] && files[m].version == versions[j] ==> k < m
  }

  lemma {:induction false} UnrecordedAreMissing(files: seq<File>, ledger: seq<Version>)
    ensures forall v :: v in Unrecorded(files, ledger) <==> v in Versions(files) && v !in ledger
  {
    if files != [] {
      var front, last := files[..|files| - 1], files[|files| - 1];
      UnrecordedAreMissing(front, ledger);
      assert files == front + [last];
      assert Versions(files) == Versions(front) + {last.version};
    }
  }

  lemma LastIsNew(files: seq<File>, ledger: seq<Version>)
    requires Distinct(files) && files != []
    ensures files[|files| - 1].version !in Unrecorded(files[..|files| - 1], ledger)
  {
    var front, last := files[..|files| - 1], files[|files| - 1];
    UnrecordedAreMissing(front, ledger);
    forall f | f in front ensures f.version != last.version {
      var k :| 0 <= k < |front| && front[k] == f;
      assert files[k] == f && files[|front|] == last;
    }
  }

  /** What is still to be done is each missing file once, in file order. */
  lemma {:induction false} UnrecordedAreTheMissing(files: seq<File>, ledger: seq<Version>)
    requires Distinct(files)
    ensures var r := Unrecorded(files, ledger);
      && NoDuplicates(r) && InFileOrder(files, r)
      && (forall v :: v in r <==> v in Versions(files) && v !in ledger)
  {
    hide InFileOrder, Versions;
    UnrecordedAreMissing(files, ledger);
    NothingInOrder(files);
    if files != [] {
      var front, last := files[..|files| - 1], files[|files| - 1];
      assert files == front + [last];
      UnrecordedAreTheMissing(front, ledger);
      var r := Unrecorded(front, ledger);
      LastIsNew(files, ledger);
      assert Unrecorded(files, ledger) == if last.version in ledger then r else r + [last.version];
      LastInFileOrder(front, last, r);
    }
  }

  lemma NothingInOrder(files: seq<File>)
    ensures InFileOrder(files, [])
  {
  }

  lemma LastInFileOrder(front: seq<File>, last: File, r: seq<Version>)
    requires Distinct(front + [last]) && InFileOrder(front, r) && last.version !in r
    ensures InFileOrder(front + [last], r) && InFileOrder(front + [last], r + [last.version])
  {
    var files, more := front + [last], r + [last.version];
    assert forall n :: 0 <= n < |front| ==> files[n].version != files[|front|].version;
    forall i, j, k, m | 0 <= i < j < |more| && 0 <= k < |files| && 0 <= m < |files| && files[k].version == more[i]
                        && files[m].version == more[j]
      ensures k < m
    {
      assert more[i] == r[i] && k < |front|;
      if j < |r| {
        assert m < |front| && front[k].version == r[i] && front[m].version == r[j];
      }
    }
    forall i, j, k, m | 0 <= i < j < |r| && 0 <= k < |files| && 0 <= m < |files| && files[k].version == r[i]
                        && files[m].version == r[j]
      ensures k < m
    {
      assert more[i] == r[i] && more[j] == r[j];
    }
  }

  /** The first file that is not in the ledger and has a statement, or its ledger row, that raises. */
  ghost predicate BreaksAt(files: seq<File>, ledger: seq<Version>, failures: map<nat, nat>, i: nat) {
    Raises(files, ledger, failures, i) && forall k: nat :: k < i ==> !Raises(files, ledger, failures, k)
  }

  predicate Raises(files: seq<File>, ledger: seq<Version>, failures: map<nat, nat>, i: nat) {
    i < |files| && files[i].version !in ledger && i in failures && failures[i] <= files[i].statements
  }

  datatype Outcome = Done(now: seq<Version>) | Drift | Broken

  lemma NothingUnrecorded(ledger: seq<Version>)
    ensures Unrecorded([], ledger) == []
  {
  }

  lemma SaneNamesFiles(files: seq<File>, applied: set<Version>)
    ensures Sane(files, applied) ==> applied <= Versions(files)
  {
  }

  lemma BreakRaises(files: seq<File>, ledger: seq<Version>, failures: map<nat, nat>, i: nat)
    ensures BreaksAt(files, ledger, failures, i) ==> Raises(files, ledger, failures, i) && i < |files|
  {
  }

  lemma RaisesHere(files: seq<File>, ledger: seq<Version>, failures: map<nat, nat>, i: nat)
    requires i < |files|
    ensures Raises(files, ledger, failures, i) <==>
      files[i].version !in ledger && i in failures && failures[i] <= files[i].statements
  {
  }

  lemma OneBreak(files: seq<File>, ledger: seq<Version>, failures: map<nat, nat>, i: nat)
    requires Raises(files, ledger, failures, i) && forall k: nat :: k < i ==> !Raises(files, ledger, failures, k)
    ensures forall k: nat :: BreaksAt(files, ledger, failures, k) <==> k == i
  {
  }

  lemma NextUnrecorded(files: seq<File>, ledger: seq<Version>, i: nat)
    requires Distinct(files) && i < |files|
    ensures Unrecorded(files[..i + 1], ledger)
         == Unrecorded(files[..i], ledger) + if files[i].version in ledger then [] else [files[i].version]
    ensures Versions(files[..i + 1]) == Versions(files[..i]) + {files[i].version}
    ensures files[i].version !in Versions(files[..i])
  {
    assert files[..i + 1][..i] == files[..i];
    assert files[..i + 1] == files[..i] + [files[i]];
    forall f | f in files[..i] ensures f.version != files[i].version {
      var k :| 0 <= k < i && files[..i][k] == f;
    }
  }

  /** The database as one migrator sees it while nobody else writes. */
  class Database {
    const files: seq<File>
    var ledger: seq<Version>
    var effects: seq<Effect>

    ghost predicate Valid()
      reads this
    {
      Distinct(files) && NoDuplicates(ledger) && effects == AllEffects(files, ledger)
    }

    /** The drift check at the head of apply_migrations. */
    method InPrefixOrder() returns (ok: bool)
      requires Distinct(files)
      ensures ok <==> Sane(files, Rows(ledger))
    {
      var applied := Rows(ledger);
      if !(applied <= Versions(files)) {
        return false;
      }
      var last := |files|;
      while last > 0 && files[last - 1].version !in applied
        invariant 0 <= last <= |files|
        invariant forall k :: last <= k < |files| ==> files[k].version !in applied
      {
        last := last - 1;
      }
      assert forall i :: Gap(files, applied, i) ==> i < last;
      for i := 0 to last
        invariant forall k :: 0 <= k < i ==> files[k].version in applied || files[k].version in SAFE_BACKFILLS
      {
        if files[i].version !in applied && files[i].version !in SAFE_BACKFILLS {
          assert files[last - 1].version in applied;
          assert Gap(files, applied, i);
          return false;
        }
      }
      ok := true;
    }

    /**
      _apply_one. `failsAt` is the statement that raises, if any; the ledger row counts as the
      statement after the last. The rollback leaves nothing behind.
    */
    method ApplyOne(i: nat, failsAt: Option<nat>) returns (applied: Option<bool>)
      requires Valid() && i < |files|
      modifies this
      ensures Valid()
      ensures applied == Some(false) <==> files[i].version in old(ledger)
      ensures applied == Some(true) ==> ledger == old(ledger) + [files[i].version]
      ensures applied != Some(true) ==> ledger == old(ledger) && effects == old(effects)
      ensures applied == None <==>
        files[i].version !in old(ledger) && failsAt.Some? && failsAt.value <= files[i].statements
    {
      if files[i].version in ledger {
        return Some(false);
      }
      var effectsBefore := effects;
      for n := 0 to files[i].statements
        invariant ledger == old(ledger) && effects == effectsBefore + Prefix(files[i].version, n)
        invariant failsAt.Some? ==> n <= failsAt.value
      {
        if failsAt == Some(n) {
          effects := effectsBefore;
          return None;
        }
        effects := effects + [Effect(files[i].version, n)];
      }
      if failsAt == Some(files[i].statements) {
        effects := effectsBefore;
        return None;
      }
      RecordingAddsItsStatements(files, ledger, i);
      ledger := ledger + [files[i].version];
      applied := Some(true);
    }

    /** apply_migrations: refuses a drifted ledger untouched; otherwise records every file, or stops at a failure. */
    method Apply(failures: map<nat, nat>) returns (r: Outcome)
      requires Valid()
      modifies this
      ensures Valid()
      ensures r == Drift <==> !Sane(files, Rows(old(ledger)))
      ensures r == Drift ==> ledger == old(ledger) && effects == old(effects)
      ensures r != Drift ==> old(ledger) <= ledger && Sane(files, Rows(ledger))
      ensures r.Done? ==> Rows(ledger) == Versions(files) && ledger == old(ledger) + r.now
      ensures r.Done? ==> r.now == Unrecorded(files, old(ledger))
      ensures r == Broken <==> Sane(files, Rows(old(ledger))) && exists i: nat :: BreaksAt(files, old(ledger), failures, i)
      ensures r == Broken ==> forall i: nat :: BreaksAt(files, old(ledger), failures, i) ==>
        ledger == old(ledger) + Unrecorded(files[..i], old(ledger))
    {
      hide Sane, AllEffects, NoDuplicates, Unrecorded, BreaksAt, Raises;
      var ok := InPrefixOrder();
      if !ok {
        return Drift;
      }
      var appliedVersions := Rows(ledger);
      var now: seq<Version> := [];
      assert Unrecorded([], ledger) == [] by { NothingUnrecorded(ledger); }
      assert files[..0] == [];
      for i := 0 to |files|
        invariant Valid() && ledger == old(ledger) + now && Sane(files, Rows(ledger))
        invariant forall k :: 0 <= k < i ==> files[k].version in ledger
        invariant now == Unrecorded(files[..i], old(ledger))
        invariant forall v :: v in now ==> v in Versions(files[..i])
        invariant forall k: nat :: k < i ==> !Raises(files, old(ledger), failures, k)
      {
        NextUnrecorded(files, old(ledger), i);
        RaisesHere(files, old(ledger), failures, i);
        if files[i].version !in appliedVersions {
          var one := ApplyOne(i, if i in failures then Some(failures[i]) else None);
          if one.None? {
            OneBreak(files, old(ledger), failures, i);
            assert BreaksAt(files, old(ledger), failures, i);
            return Broken;
          }
          if one.value {
            ghost var before := old(ledger) + now;
            now := now + [files[i].version];
            RecordingOpensNoGap(files, Rows(before), i);
            assert Rows(ledger) == Rows(before) + {files[i].version};
          }
        }
      }
      assert files[..|files|] == files;
      SaneNamesFiles(files, Rows(ledger));
      forall i: nat ensures !BreaksAt(files, old(ledger), failures, i) {
        BreakRaises(files, old(ledger), failures, i);
      }
      r := Done(now);
    }
  }

  // Many processes at once.

  datatype Process =
    | Refused
    | Applying(next: nat, seen: set<Version>, now: seq<Version>)
    | Executing(next: nat, seen: set<Version>, now: seq<Version>, done: nat)
    | Finished(now: seq<Version>)
    | Failed(now: seq<Version>)

  datatype System = System(
    files: seq<File>, ledger: seq<Version>, effects: seq<Effect>,
    pending: seq<Effect>, writer: Option<nat>, processes: map<nat, Process>)

  datatype Step =
    | Start(p: nat)         // the drift check, on what the ledger holds now
    | Skip(p: nat)          // the file was in the ledger when the process started
    | Begin(p: nat)         // BEGIN IMMEDIATE
    | AlreadyApplied(p: nat) // another process got there first
    | Execute(p: nat)       // one statement
    | Commit(p: nat)        // the ledger row and COMMIT
    | Fail(p: nat)          // any failure or crash, with the rollback that follows
    | Finish(p: nat)

  ghost predicate Enabled(s: System, step: Step) {
    var p := step.p;
    match step
    case Start(_) => p !in s.processes
    case Skip(_) => At(s, p) && s.files[s.processes[p].next].version in s.processes[p].seen
    case Begin(_) => At(s, p) && s.files[s.processes[p].next].version !in s.processes[p].seen && s.writer == None
    case AlreadyApplied(_) =>
      In(s, p) && s.processes[p].done == 0 && s.files[s.processes[p].next].version in s.ledger
    case Execute(_) =>
      && In(s, p) && s.processes[p].done < s.files[s.processes[p].next].statements
      && (s.processes[p].done == 0 ==> s.files[s.processes[p].next].version !in s.ledger)
    case Commit(_) =>
      && In(s, p) && s.processes[p].done == s.files[s.processes[p].next].statements
      && (s.processes[p].done == 0 ==> s.files[s.processes[p].next].version !in s.ledger)
    case Fail(_) => p in s.processes && (s.processes[p].Applying? || s.processes[p].Executing?)
    case Finish(_) => p in s.processes && s.processes[p].Applying? && s.processes[p].next == |s.files|
  }

  predicate At(s: System, p: nat) {
    p in s.processes && s.processes[p].Applying? && s.processes[p].next < |s.files|
  }

  predicate In(s: System, p: nat) {
    p in s.processes && s.processes[p].Executing? && s.processes[p].next < |s.files|
  }

  ghost function Next(s: System, step: Step): System
    requires Enabled(s, step)
  {
    var p := step.p;
    match step
    case Start(_) =>
      To(s, p, if Sane(s.files, Rows(s.ledger)) then Applying(0, Rows(s.ledger), []) else Refused)
    case Skip(_) =>
      var a := s.processes[p];
      To(s, p, Applying(a.next + 1, a.seen, a.now))
    case Begin(_) =>
      var a := s.processes[p];
      To(s.(writer := Some(p), pending := []), p, Executing(a.next, a.seen, a.now, 0))
    case AlreadyApplied(_) =>
      var a := s.processes[p];
      To(s.(writer := None), p, Applying(a.next + 1, a.seen, a.now))
    case Execute(_) =>
      var a := s.processes[p];
      To(s.(pending := s.pending + [Effect(s.files[a.next].version, a.done)]), p, a.(done := a.done + 1))
    case Commit(_) =>
      var a := s.processes[p];
      var v := s.files[a.next].version;
      To(s.(ledger := s.ledger + [v], effects := s.effects + s.pending, pending := [], writer := None),
         p, Applying(a.next + 1, a.seen, a.now + [v]))
    case Fail(_) =>
      var free := if s.processes[p].Executing? then s.(writer := None, pending := []) else s;
      To(free, p, Failed(s.processes[p].now))
    case Finish(_) => To(s, p, Finished(s.processes[p].now))
  }

  function To(s: System, p: nat, process: Process): System {
    s.(processes := s.processes[p := process])
  }

  function Now(process: Process): (r: seq<Version>) {
    if process.Refused? then [] else process.now
  }

  // The invariant, in parts.

  /** The effects are those of the recorded migrations, each recorded once. */
  ghost predicate ExactlyOnce(s: System) {
    Distinct(s.files) && NoDuplicates(s.ledger) && s.effects == AllEffects(s.files, s.ledger)
  }

  /** The write lock belongs to the one process inside a transaction, and what it has done so far is pending. */
  ghost predicate LockHolds(s: System) {
    && (s.writer.Some? ==> s.writer.value in s.processes && s.processes[s.writer.value].Executing?)
    && (s.writer.None? ==> s.pending == [])
    && forall p :: p in s.processes && s.processes[p].Executing? ==>
      var a := s.processes[p];
      && s.writer == Some(p) && a.next < |s.files|
      && s.pending == Prefix(s.files[a.next].version, a.done)
      && (a.done > 0 ==> s.files[a.next].version !in s.ledger)
  }

  /** A process has everything before its position recorded; what it saw and what it did is still there. */
  ghost predicate ProgressHolds(s: System) {
    forall p :: p in s.processes ==> ProcessHolds(s, s.processes[p])
  }

  ghost predicate ProcessHolds(s: System, a: Process) {
    && (forall v :: v in Now(a) ==> v in s.ledger)
    && (a.Finished? ==> forall k :: 0 <= k < |s.files| ==> s.files[k].version in s.ledger)
    && (a.Applying? || a.Executing? ==>
          && a.next <= |s.files|
          && (forall v :: v in a.seen ==> v in s.ledger)
          && (forall k :: 0 <= k < a.next ==> s.files[k].version in s.ledger))
  }

  /** No migration is reported by two processes. */
  ghost predicate ReportsDisjoint(s: System) {
    forall p, q, v :: p in s.processes && q in s.processes && p != q && v in Now(s.processes[p]) ==>
      v !in Now(s.processes[q])
  }

  ghost predicate Invariant(s: System) {
    ExactlyOnce(s) && LockHolds(s) && ProgressHolds(s) && ReportsDisjoint(s)
  }

  ghost predicate Startable(s: System) {
    && s.processes == map[] && s.writer == None && s.pending == []
    && Distinct(s.files) && NoDuplicates(s.ledger) && s.effects == AllEffects(s.files, s.ledger)
  }

  ghost predicate Reaches(s: System, steps: seq<Step>, end: System)
    decreases |steps|
  {
    if steps == [] then s == end
    else Enabled(s, steps[0]) && Reaches(Next(s, steps[0]), steps[1..], end)
  }

  lemma CommitKeepsExactlyOnce(s: System, p: nat)
    requires Invariant(s) && Enabled(s, Commit(p))
    ensures ExactlyOnce(Next(s, Commit(p)))
    ensures s.files[s.processes[p].next].version !in s.ledger
  {
    RecordingAddsItsStatements(s.files, s.ledger, s.processes[p].next);
  }

  lemma StepKeepsLock(s: System, step: Step)
    requires Invariant(s) && Enabled(s, step)
    ensures LockHolds(Next(s, step))
  {
  }

  lemma StepKeepsProgress(s: System, step: Step)
    requires Invariant(s) && Enabled(s, step)
    ensures ProgressHolds(Next(s, step))
  {
    hide ExactlyOnce, ReportsDisjoint, LockHolds;
    var next := Next(s, step);
    forall p | p in next.processes ensures ProcessHolds(next, next.processes[p]) {
      if p in s.processes {
        assert ProcessHolds(s, s.processes[p]);
      }
    }
  }

  lemma StepKeepsReports(s: System, step: Step)
    requires Invariant(s) && Enabled(s, step)
    ensures ReportsDisjoint(Next(s, step))
  {
    if step.Commit? {
      CommitKeepsExactlyOnce(s, step.p);
      var v := s.files[s.processes[step.p].next].version;
      forall q | q in s.processes ensures v !in Now(s.processes[q]) {
        assert ProcessHolds(s, s.processes[q]);
      }
    }
  }

  lemma StepKeepsInvariant(s: System, step: Step)
    requires Invariant(s) && Enabled(s, step)
    ensures Invariant(Next(s, step))
    ensures Next(s, step).files == s.files && s.ledger <= Next(s, step).ledger
  {
    if step.Commit? {
      CommitKeepsExactlyOnce(s, step.p);
    }
    StepKeepsLock(s, step);
    StepKeepsProgress(s, step);
    StepKeepsReports(s, step);
  }

  lemma {:induction false} RunsKeepInvariant(s: System, steps: seq<Step>, end: System)
    requires Invariant(s) && Reaches(s, steps, end)
    ensures Invariant(end) && end.files == s.files && s.ledger <= end.ledger
    decreases |steps|
  {
    if steps != [] {
      StepKeepsInvariant(s, steps[0]);
      RunsKeepInvariant(Next(s, steps[0]), steps[1..], end);
    }
  }

  lemma StartableHasInvariant(s: System)
    requires Startable(s)
    ensures Invariant(s)
  {
  }

  /**
    However many processes start, stop and crash, every statement of every recorded migration has
    taken effect exactly once, in file order and in ledger order, and no statement of any other.
    A process that finished leaves every file recorded, and no migration is reported twice.
  */
  lemma EachMigrationTakesEffectOnce(s: System, steps: seq<Step>, end: System)
    requires Startable(s) && Reaches(s, steps, end)
    ensures end.effects == AllEffects(s.files, end.ledger) && NoDuplicates(end.ledger)
    ensures forall p, v :: p in end.processes && end.processes[p].Finished? && v in Versions(s.files) ==> v in end.ledger
    ensures forall p, q, v :: p in end.processes && q in end.processes && p != q && v in Now(end.processes[p]) ==>
      v in end.ledger && v !in Now(end.processes[q])
  {
    StartableHasInvariant(s);
    RunsKeepInvariant(s, steps, end);
    forall p, v | p in end.processes && end.processes[p].Finished? && v in Versions(s.files) ensures v in end.ledger {
      assert ProcessHolds(end, end.processes[p]);
    }
    forall p, v | p in end.processes && v in Now(end.processes[p]) ensures v in end.ledger {
      assert ProcessHolds(end, end.processes[p]);
    }
  }

  lemma StepOpensNoGap(s: System, step: Step)
    requires Invariant(s) && Enabled(s, step) && Sane(s.files, Rows(s.ledger))
    ensures Sane(s.files, Rows(Next(s, step).ledger))
  {
    if step.Commit? {
      var i := s.processes[step.p].next;
      assert ProcessHolds(s, s.processes[step.p]);
      RecordingOpensNoGap(s.files, Rows(s.ledger), i);
      assert Rows(Next(s, step).ledger) == Rows(s.ledger) + {s.files[i].version};
    }
  }

  /** A ledger that is a prefix but for the safe backfills stays one at every moment of every run. */
  lemma {:induction false} SaneLedgerStaysSane(s: System, steps: seq<Step>, end: System)
    requires Invariant(s) && Sane(s.files, Rows(s.ledger)) && Reaches(s, steps, end)
    ensures Sane(s.files, Rows(end.ledger))
    decreases |steps|
  {
    if steps != [] {
      StepOpensNoGap(s, steps[0]);
      StepKeepsInvariant(s, steps[0]);
      SaneLedgerStaysSane(Next(s, steps[0]), steps[1..], end);
    }
  }

  /** A drifted ledger is left alone: every process refuses it. */
  lemma {:induction false} DriftedLedgerIsNeverTouched(s: System, steps: seq<Step>, end: System)
    requires !Sane(s.files, Rows(s.ledger)) && Reaches(s, steps, end)
    requires forall p :: p in s.processes ==> s.processes[p] == Refused
    ensures end.ledger == s.ledger && end.effects == s.effects
    ensures forall p :: p in end.processes ==> end.processes[p] == Refused
    decreases |steps|
  {
    if steps != [] {
      DriftedLedgerIsNeverTouched(Next(s, steps[0]), steps[1..], end);
    }
  }

  /** The ledger is exactly the first files, in order. */
  ghost predicate IsPrefix(s: System) {
    && |s.ledger| <= |s.files|
    && forall k :: 0 <= k < |s.ledger| ==> s.ledger[k] == s.files[k].version
  }

  lemma RecordedInPrefix(s: System, i: nat)
    requires Distinct(s.files) && IsPrefix(s) && i < |s.files|
    ensures s.files[i].version in s.ledger <==> i < |s.ledger|
  {
    if i < |s.ledger| {
      assert s.ledger[i] == s.files[i].version;
    }
  }

  lemma StepKeepsPrefix(s: System, step: Step)
    requires Invariant(s) && Enabled(s, step) && IsPrefix(s)
    ensures IsPrefix(Next(s, step))
  {
    if step.Commit? {
      var i := s.processes[step.p].next;
      CommitKeepsExactlyOnce(s, step.p);
      assert ProcessHolds(s, s.processes[step.p]);
      RecordedInPrefix(s, i);
      if |s.ledger| < |s.files| {
        RecordedInPrefix(s, |s.ledger|);
      }
    }
  }

  /** Migrating a fresh database records the files in exactly their order, with no gap at all. */
  lemma {:induction false} FreshLedgerIsAPrefix(s: System, steps: seq<Step>, end: System)
    requires Invariant(s) && IsPrefix(s) && Reaches(s, steps, end)
    ensures IsPrefix(end)
    decreases |steps|
  {
    if steps != [] {
      StepKeepsPrefix(s, steps[0]);
      StepKeepsInvariant(s, steps[0]);
      FreshLedgerIsAPrefix(Next(s, steps[0]), steps[1..], end);
    }
  }

  // A process that nobody disturbs.

  lemma Prepend(s: System, step: Step, steps: seq<Step>, end: System)
    requires Enabled(s, step) && Reaches(Next(s, step), steps, end)
    ensures Reaches(s, [step] + steps, end)
  {
    assert ([step] + steps)[1..] == steps;
  }

  lemma {:induction false} ReachesAppend(s: System, steps: seq<Step>, middle: System, more: seq<Step>, end: System)
    requires Reaches(s, steps, middle) && Reaches(middle, more, end)
    ensures Reaches(s, steps + more, end)
    decreases |steps|
  {
    if steps == [] {
      assert steps + more == more;
    } else {
      ReachesAppend(Next(s, steps[0]), steps[1..], middle, more, end);
      assert (steps + more)[1..] == steps[1..] + more;
    }
  }

  /** What the file at the position of `p` adds to the ledger. */
  function Adds(s: System, p: nat): (r: seq<Version>)
    requires p in s.processes && (s.processes[p].Applying? || s.processes[p].Executing?) && s.processes[p].next < |s.files|
  {
    var v := s.files[s.processes[p].next].version;
    if v in s.ledger then [] else [v]
  }

  /** `end` is `s` with `p` one file further, and that file recorded. */
  predicate OneFurther(s: System, p: nat, end: System) {
    && p in s.processes && (s.processes[p].Applying? || s.processes[p].Executing?) && s.processes[p].next < |s.files|
    && var a := s.processes[p];
       end == s.(ledger := s.ledger + Adds(s, p), effects := end.effects, pending := end.pending, writer := None,
                 processes := s.processes[p := Applying(a.next + 1, a.seen, a.now + Adds(s, p))])
  }

  lemma {:induction false} CommitsAlone(s: System, p: nat) returns (steps: seq<Step>, end: System)
    requires In(s, p) && s.files[s.processes[p].next].version !in s.ledger
    requires s.processes[p].done <= s.files[s.processes[p].next].statements
    ensures Reaches(s, steps, end) && OneFurther(s, p, end)
    decreases s.files[s.processes[p].next].statements - s.processes[p].done
  {
    if s.processes[p].done == s.files[s.processes[p].next].statements {
      steps, end := [Commit(p)], Next(s, Commit(p));
      Prepend(s, Commit(p), [], end);
      assert [Commit(p)] + [] == [Commit(p)];
    } else {
      steps, end := CommitsAlone(Next(s, Execute(p)), p);
      Prepend(s, Execute(p), steps, end);
      steps := [Execute(p)] + steps;
    }
  }

  lemma SkippedOneFurther(s: System, p: nat)
    requires At(s, p) && Enabled(s, Skip(p)) && s.files[s.processes[p].next].version in s.ledger && s.writer == None
    ensures OneFurther(s, p, Next(s, Skip(p)))
  {
    assert s.ledger + [] == s.ledger && s.processes[p].now + [] == s.processes[p].now;
  }

  lemma AlreadyOneFurther(s: System, p: nat)
    requires Enabled(s, AlreadyApplied(p))
    ensures OneFurther(s, p, Next(s, AlreadyApplied(p)))
  {
    assert s.ledger + [] == s.ledger && s.processes[p].now + [] == s.processes[p].now;
  }

  lemma BegunOneFurther(s: System, p: nat, end: System)
    requires Enabled(s, Begin(p)) && OneFurther(Next(s, Begin(p)), p, end)
    ensures OneFurther(s, p, end)
  {
    var begun := Next(s, Begin(p));
    assert begun.processes[p := end.processes[p]] == s.processes[p := end.processes[p]];
  }

  lemma OneFileAlone(s: System, p: nat) returns (steps: seq<Step>, end: System)
    requires Invariant(s) && At(s, p) && s.writer == None
    ensures Reaches(s, steps, end) && OneFurther(s, p, end)
  {
    hide Reaches, ExactlyOnce, ReportsDisjoint, OneFurther;
    assert ProcessHolds(s, s.processes[p]);
    var v := s.files[s.processes[p].next].version;
    if v in s.processes[p].seen {
      steps, end := [Skip(p)], Next(s, Skip(p));
      OneStep(s, Skip(p));
      SkippedOneFurther(s, p);
    } else {
      var begun := Next(s, Begin(p));
      if v in s.ledger {
        end := Next(begun, AlreadyApplied(p));
        OneStep(begun, AlreadyApplied(p));
        AlreadyOneFurther(begun, p);
        steps := [AlreadyApplied(p)];
      } else {
        steps, end := CommitsAlone(begun, p);
      }
      BegunOneFurther(s, p, end);
      Prepend(s, Begin(p), steps, end);
      steps := [Begin(p)] + steps;
    }
  }

  lemma OneStep(s: System, step: Step)
    requires Enabled(s, step)
    ensures Reaches(s, [step], Next(s, step))
  {
    Prepend(s, step, [], Next(s, step));
    assert [step] + [] == [step];
  }

  lemma {:induction false} UnrecordedFromTheFront(f: File, rest: seq<File>, ledger: seq<Version>)
    ensures Unrecorded([f] + rest, ledger) == (if f.version in ledger then [] else [f.version]) + Unrecorded(rest, ledger)
  {
    if rest == [] {
      assert [f] + rest == [f];
    } else {
      assert ([f] + rest)[..|rest|] == [f] + rest[..|rest| - 1];
      UnrecordedFromTheFront(f, rest[..|rest| - 1], ledger);
    }
  }

  lemma {:induction false} UnrecordedElsewhere(files: seq<File>, ledger: seq<Version>, more: seq<Version>)
    requires forall i :: 0 <= i < |files| ==> files[i].version !in more
    ensures Unrecorded(files, ledger + more) == Unrecorded(files, ledger)
  {
    if files != [] {
      UnrecordedElsewhere(files[..|files| - 1], ledger, more);
    }
  }

  lemma RestUnrecorded(s: System, p: nat, end: System)
    requires OneFurther(s, p, end) && Distinct(s.files)
    ensures var next := s.processes[p].next;
      Unrecorded(s.files[next..], s.ledger) == Adds(s, p) + Unrecorded(s.files[next + 1..], end.ledger)
  {
    var next := s.processes[p].next;
    assert s.files[next..] == [s.files[next]] + s.files[next + 1..];
    UnrecordedFromTheFront(s.files[next], s.files[next + 1..], s.ledger);
    UnrecordedElsewhere(s.files[next + 1..], s.ledger, Adds(s, p));
  }

  lemma {:induction false} FinishesAlone(s: System, p: nat) returns (steps: seq<Step>, end: System)
    requires Invariant(s) && p in s.processes && s.processes[p].Applying? && s.processes[p].next <= |s.files| && s.writer == None
    ensures Reaches(s, steps, end) && end.files == s.files && end.writer == None
    ensures var missing := Unrecorded(s.files[s.processes[p].next..], s.ledger);
      && end.ledger == s.ledger + missing
      && end.processes == s.processes[p := Finished(s.processes[p].now + missing)]
    decreases |s.files| - s.processes[p].next
  {
    if s.processes[p].next == |s.files| {
      steps, end := [Finish(p)], Next(s, Finish(p));
      OneStep(s, Finish(p));
      assert s.files[|s.files|..] == [] && s.ledger + [] == s.ledger && s.processes[p].now + [] == s.processes[p].now;
    } else {
      hide Reaches, Invariant, Unrecorded, Enabled, Next, Adds, OneFurther;
      var first, middle := OneFileAlone(s, p);
      RunsKeepInvariant(s, first, middle);
      RestUnrecorded(s, p, middle);
      FurtherFacts(s, p, middle);
      steps, end := FinishesAlone(middle, p);
      ReachesAppend(s, first, middle, steps, end);
      steps := first + steps;
      FurtherStill(s, p, middle, end, Unrecorded(s.files[s.processes[p].next + 1..], middle.ledger));
    }
  }

  lemma FurtherFacts(s: System, p: nat, middle: System)
    requires OneFurther(s, p, middle)
    ensures middle.files == s.files && middle.writer == None && p in middle.processes
    ensures middle.processes[p].Applying? && middle.processes[p].next == s.processes[p].next + 1
  {
  }

  lemma FurtherStill(s: System, p: nat, middle: System, end: System, rest: seq<Version>)
    requires OneFurther(s, p, middle) && end.ledger == middle.ledger + rest
    requires end.processes == middle.processes[p := Finished(middle.processes[p].now + rest)]
    ensures end.ledger == s.ledger + (Adds(s, p) + rest)
    ensures end.processes == s.processes[p := Finished(s.processes[p].now + (Adds(s, p) + rest))]
  {
    var now := s.processes[p].now;
    assert s.ledger + Adds(s, p) + rest == s.ledger + (Adds(s, p) + rest) && now + Adds(s, p) + rest == now + (Adds(s, p) + rest);
  }

  /**
    Whatever other processes have left unfinished, once nobody has the write lock a new process that
    nobody disturbs records exactly the missing files, in file order, and reports them.
  */
  lemma UndisturbedMigration(s: System, p: nat) returns (steps: seq<Step>, end: System)
    requires Invariant(s) && s.writer == None && p !in s.processes && Sane(s.files, Rows(s.ledger))
    ensures Reaches(s, steps, end)
    ensures end.ledger == s.ledger + Unrecorded(s.files, s.ledger)
    ensures end.processes == s.processes[p := Finished(Unrecorded(s.files, s.ledger))]
  {
    hide Reaches, Invariant, Sane, Unrecorded, Enabled, Next, Rows;
    var started := StartsAlone(s, p);
    var missing := Unrecorded(s.files, s.ledger);
    assert s.files[0..] == s.files && [] + missing == missing;
    steps, end := FinishesAlone(started, p);
    Prepend(s, Start(p), steps, end);
    steps := [Start(p)] + steps;
    assert started.processes[p := Finished(missing)] == s.processes[p := Finished(missing)];
  }

  lemma StartsAlone(s: System, p: nat) returns (started: System)
    requires Invariant(s) && p !in s.processes && Sane(s.files, Rows(s.ledger))
    ensures Enabled(s, Start(p)) && started == Next(s, Start(p)) && Invariant(started)
    ensures started == s.(processes := s.processes[p := Applying(0, Rows(s.ledger), [])])
  {
    StepKeepsInvariant(s, Start(p));
    started := Next(s, Start(p));
    hide Sane;
  }

  /** On a drifted ledger it can do nothing else but refuse. */
  lemma DriftIsRefused(s: System, p: nat, step: Step)
    requires p !in s.processes && !Sane(s.files, Rows(s.ledger)) && step.p == p && Enabled(s, step)
    ensures Next(s, step) == s.(processes := s.processes[p := Refused])
    ensures forall other: Step :: other.p == p ==> !Enabled(Next(s, step), other)
  {
  }
}
