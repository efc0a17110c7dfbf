/**
  The crash-safe update transaction: updater/transaction.go, driven by updater/engine.go, with the
  write barrier as backend/app/features/updates.py honours it.

  `World` is everything that survives a crash. The updater changes it one durable step at a time;
  any step can fail, with or without having taken effect, and a crash can follow any step. A
  running program changes DATA and the configuration between the steps. `Invariant` holds of the
  world at every such moment, and `Safe` is what it means for the user.
*/
module Updater {
  datatype Option<T> = None | Some(value: T)

  // What is on disk.

  /** Contents of a file; the hash of a file stands for this. `rows` are the business writes it holds. */
  datatype Bytes = Bytes(rows: set<nat>, rest: nat)

  /** A path inside DATA, by its components. */
  type Path = seq<string>

  datatype Tree = Tree(identity: nat, files: map<Path, Bytes>, dirs: set<Path>)

  datatype Name = Main | Updater

  /** config.json; `dataDir` is the DATA location it leads to, unless it is unreadable or refused. */
  datatype Config = Config(dataDir: Option<nat>, text: string)

  /** `size` is what its text takes in bytes. */
  datatype Snapshot = Snapshot(
    job: nat, dataDir: nat, identity: nat, existed: bool, files: map<Path, Bytes>, dirs: set<Path>,
    program: map<Name, Bytes>, config: Option<Config>, size: nat)

  datatype Backup = Backup(
    snapshot: Option<Snapshot>, files: map<Path, Bytes>, dirs: set<Path>,
    program: map<Name, Bytes>, config: Option<Config>)

  datatype State = Preparing | BackedUp | Replacing | Starting | Verified | Complete | Restoring | RolledBack

  datatype RestorePhase = Untouched | RestoringData | RestoringProgram | RestoreComplete

  /** `rest` is what its text takes in bytes besides the snapshot and the names of the state and the phase. */
  datatype Transaction = Transaction(
    job: nat, state: State, manifest: map<Name, Bytes>, snapshot: Option<Snapshot>, phase: RestorePhase, rest: nat)

  /** install.json: absent, "installing", or "verified". */
  datatype Barrier = NoBarrier | Installing | Cleared

  datatype Write = Write(location: nat, row: nat)

  /**
    The last five are bookkeeping of the model: business writes acknowledged so far, the program
    files when the current transaction began, the jobs begun, those whose outcome was persisted,
    and whether the backup of a pending transaction has been deleted.
  */
  datatype World = World(
    tx: Option<Transaction>, barrier: Barrier, programs: map<Name, Bytes>, config: Option<Config>,
    data: map<nat, Tree>, backups: map<nat, Backup>, partials: map<nat, Backup>,
    running: bool, trusted: bool, inflight: nat,
    accepted: set<Write>, before: map<Name, Bytes>, jobs: set<nat>, settled: set<nat>, lost: bool)

  const DEFAULT_DATA: nat := 0

  /** readJSON gives up on a longer state file. */
  const READ_LIMIT: nat := 8 * 1024 * 1024

  function StateLength(state: State): (r: nat)
    ensures r > 0
  {
    match state
    case Preparing | BackedUp | Replacing | Restoring => 9
    case Starting | Verified | Complete => 8
    case RolledBack => 11
  }

  function PhaseLength(phase: RestorePhase): (r: nat) {
    match phase
    case Untouched => 0
    case RestoringData => 4
    case RestoringProgram => 7
    case RestoreComplete => 8
  }

  /** transaction.json repeats the snapshot, so it is longer than snapshot.json. */
  function TransactionSize(t: Transaction): (r: nat)
    ensures t.snapshot.Some? ==> r > t.snapshot.value.size
  {
    (if t.snapshot.Some? then t.snapshot.value.size else 0) + t.rest + StateLength(t.state) + PhaseLength(t.phase)
  }

  /** transaction.json is short enough to be read back. */
  predicate Readable(w: World) {
    w.tx.Some? ==> TransactionSize(w.tx.value) <= READ_LIMIT
  }

  /** dataPathFrom. */
  function DataPath(config: Option<Config>): (r: Option<nat>) {
    if config.None? then Some(DEFAULT_DATA) else config.value.dataDir
  }

  function Parents(p: Path): (r: set<Path>) {
    set k | 0 < k < |p| :: p[..k]
  }

  predicate WellFormed(files: map<Path, Bytes>, dirs: set<Path>) {
    && (forall p :: p in files ==> Parents(p) <= dirs)
    && (forall p :: p in dirs ==> Parents(p) <= dirs)
  }

  function Rows(files: map<Path, Bytes>): (r: set<nat>) {
    set p, row | p in files && row in files[p].rows :: row
  }

  // What the user cares about.

  /** Writes are admitted unless install.json says otherwise. */
  predicate Open(w: World) {
    w.barrier != Installing
  }

  predicate Present(data: map<nat, Tree>, a: Write) {
    a.location in data && a.row in Rows(data[a.location].files)
  }

  /** Every acknowledged business write is in DATA. */
  predicate Kept(w: World) {
    forall a :: a in w.accepted ==> Present(w.data, a)
  }

  /** The program files the transaction found are in place. */
  predicate OldPrograms(w: World) {
    forall n :: n in w.before ==> n in w.programs && w.programs[n] == w.before[n]
  }

  predicate NewPrograms(w: World, manifest: map<Name, Bytes>) {
    forall n :: n in manifest ==> n in w.programs && w.programs[n] == manifest[n]
  }

  /**
    Whenever business writes are admitted, the programs are no mix. Whenever no restore is still to
    come, so in particular whenever writes are admitted, no acknowledged write is missing.
  */
  predicate Safe(w: World) {
    && (Open(w) && w.tx.Some? ==> OldPrograms(w) || NewPrograms(w, w.tx.value.manifest))
    && (Open(w) ==> !Pending(w))
    && (!Pending(w) ==> Kept(w))
  }

  // The invariant.

  predicate PendingState(state: State) {
    state == BackedUp || state == Replacing || state == Starting || state == Restoring
  }

  /** The outcome of the transaction is decided. */
  predicate SettledState(state: State) {
    state == Verified || state == Complete || state == RolledBack
  }

  /** A restore of DATA may follow. */
  predicate Pending(w: World) {
    w.tx.Some? && PendingState(w.tx.value.state)
  }

  predicate In(w: World, state: State) {
    w.tx.Some? && w.tx.value.state == state
  }

  /** Every acknowledged write to the snapshot's DATA is in the snapshot. */
  predicate Covers(snap: Snapshot, accepted: set<Write>) {
    forall a :: a in accepted && a.location == snap.dataDir ==> snap.existed && a.row in Rows(snap.files)
  }

  function BackupOf(snap: Snapshot): (r: Backup) {
    Backup(Some(snap), snap.files, snap.dirs, snap.program, snap.config)
  }

  predicate SnapshotHolds(w: World, t: Transaction) {
    && t.snapshot.Some?
    && var snap := t.snapshot.value;
       && snap.job == t.job && snap.program == w.before
       && WellFormed(snap.files, snap.dirs)
       && Covers(snap, w.accepted)
  }

  /** No acknowledged write outside the snapshot's DATA is missing. */
  predicate KeptElsewhere(w: World, snap: Snapshot) {
    forall a :: a in w.accepted && a.location != snap.dataDir ==> Present(w.data, a)
  }

  predicate PendingHolds(w: World) {
    Pending(w) ==>
      var t := w.tx.value;
      && w.barrier == Installing && w.inflight == 0
      && SnapshotHolds(w, t) && KeptElsewhere(w, t.snapshot.value)
      && t.job !in w.settled
      && (!w.lost ==> t.job in w.backups && w.backups[t.job] == BackupOf(t.snapshot.value))
  }

  predicate ProgramsHold(w: World) {
    && (In(w, Preparing) || In(w, BackedUp) || In(w, RolledBack) ==> OldPrograms(w))
    && (In(w, Verified) || In(w, Complete) ==> NewPrograms(w, w.tx.value.manifest))
  }

  predicate WritesHold(w: World) {
    && (!Pending(w) ==> Kept(w))
    && (w.trusted ==> w.running)
    && (w.inflight > 0 ==> w.running)
  }

  predicate RecordsHold(w: World) {
    && (w.tx.None? ==> Open(w))
    && (In(w, Complete) ==> Open(w))
    && (w.tx.Some? ==> w.tx.value.job in w.jobs)
    && (In(w, Preparing) ==> w.tx.value.job !in w.settled)
    && (w.tx.Some? && SettledState(w.tx.value.state) ==> w.tx.value.job in w.settled)
    && w.settled <= w.jobs
    && TreesHold(w)
  }

  /** DATA trees are well formed, but for one that is just being restored. */
  predicate TreesHold(w: World) {
    forall l :: l in w.data && !BeingRestored(w, l) ==> WellFormed(w.data[l].files, w.data[l].dirs)
  }

  predicate BeingRestored(w: World, l: nat) {
    && In(w, Restoring) && w.tx.value.snapshot.Some?
    && w.tx.value.snapshot.value.existed && w.tx.value.snapshot.value.dataDir == l
  }

  predicate Invariant(w: World) {
    PendingHolds(w) && ProgramsHold(w) && WritesHold(w) && RecordsHold(w)
  }

  /** A system that has never been updated, whatever its programs, configuration and DATA. */
  lemma FreshSystemHolds(w: World)
    requires w.tx == None && w.barrier == NoBarrier && w.settled == {} && w.inflight == 0 && !w.trusted && w.accepted == {}
    requires forall l :: l in w.data ==> WellFormed(w.data[l].files, w.data[l].dirs)
    ensures Invariant(w)
  {
  }

  lemma InvariantIsSafe(w: World)
    requires Invariant(w)
    ensures Safe(w)
  {
  }

  // What happens between the updater's steps.

  /** Only DATA, the configuration and what the programs do have changed. */
  predicate Framed(w: World, v: World) {
    v == w.(config := v.config, data := v.data, running := v.running, trusted := v.trusted,
            inflight := v.inflight, accepted := v.accepted)
  }

  /** Writes are acknowledged only if admitted, and admitted only while the barrier is open. */
  predicate Admitted(w: World, v: World) {
    && w.accepted <= v.accepted
    && (v.accepted != w.accepted ==> Open(w) || w.inflight > 0)
    && (v.inflight > 0 ==> v.running && (Open(w) || w.inflight > 0))
    && (v.trusted ==> v.running)
    && (forall l :: l in v.data ==> (l in w.data && v.data[l] == w.data[l]) || WellFormed(v.data[l].files, v.data[l].dirs))
  }

  /** A write that was there stays there, and a newly acknowledged one is there. */
  predicate Carried(w: World, v: World, a: Write) {
    (a in w.accepted ==> Present(w.data, a)) ==> Present(v.data, a)
  }

  /**
    A program loses no write that is there, and acknowledges none that is not. While a restore is
    still to come a program that has not passed the start check may do anything to the DATA of the
    snapshot, but not to other DATA.
  */
  predicate Careful(w: World, v: World, proven: bool) {
    forall a :: a in v.accepted && !(Pending(w) && !proven && AtRisk(w, a)) ==> Carried(w, v, a)
  }

  predicate AtRisk(w: World, a: Write)
    requires w.tx.Some?
  {
    w.tx.value.snapshot.Some? && a.location == w.tx.value.snapshot.value.dataDir
  }

  /** A running program at work while the updater is busy; it may also exit. */
  predicate EnvironmentStep(w: World, v: World) {
    && Framed(w, v) && Admitted(w, v) && Careful(w, v, w.trusted)
    && (!w.running ==> v == w)
    && (v.running ==> w.running) && (v.trusted <==> w.trusted && v.running)
  }

  /** Between two runs of the updater, anyone may start and stop the program. */
  predicate Interlude(w: World, v: World) {
    Framed(w, v) && Admitted(w, v) && Careful(w, v, false) && !v.trusted
  }

  /**
    The updater starts the program. The start check says nothing about DATA; that the new version
    has lost nothing if it passes is what its migrations are trusted with, and only in `starting`.
  */
  predicate Launched(w: World, v: World, ok: bool) {
    && Framed(w, v) && Admitted(w, v) && Careful(w, v, ok && In(w, Starting))
    && (ok ==> v.running)
    && (v.trusted <==> ok && In(w, Starting))
  }

  lemma InterludeKeeps(w: World, v: World)
    requires Invariant(w) && Interlude(w, v)
    ensures Invariant(v) && v.settled == w.settled
  {
  }

  lemma EnvironmentKeeps(w: World, v: World)
    requires Invariant(w) && EnvironmentStep(w, v)
    ensures Invariant(v) && v.settled == w.settled
  {
  }

  // The updater's own steps.

  function Stopped(w: World): (r: World) {
    w.(running := false, trusted := false, inflight := 0)
  }

  /** saveTx. */
  function Saved(w: World, t: Transaction): (r: World) {
    var begins := t.state == Preparing;
    w.(tx := Some(t),
       before := if begins then w.programs else w.before,
       lost := if begins then false else w.lost,
       jobs := w.jobs + {t.job},
       settled := if SettledState(t.state) then w.settled + {t.job} else w.settled)
  }

  predicate DataRestored(w: World, snap: Snapshot) {
    snap.existed ==>
      && snap.dataDir in w.data
      && w.data[snap.dataDir] == Tree(snap.identity, snap.files, snap.dirs)
  }

  /** When each state may be persisted. */
  predicate MaySave(w: World, t: Transaction) {
    match t.state
    case Preparing => Kept(w) && t.job !in w.jobs && Open(w)
    case BackedUp =>
      && In(w, Preparing) && w.tx.value.job == t.job && t.job !in w.settled
      && w.barrier == Installing && w.inflight == 0
      && SnapshotHolds(w, t) && t.job in w.backups && w.backups[t.job] == BackupOf(t.snapshot.value)
    case Replacing => In(w, BackedUp) && t == w.tx.value.(state := Replacing)
    case Starting => In(w, Replacing) && t == w.tx.value.(state := Starting)
    case Restoring => Pending(w) && t == w.tx.value.(state := Restoring, phase := t.phase)
    case Verified => In(w, Starting) && t == w.tx.value.(state := Verified) && NewPrograms(w, t.manifest) && Kept(w)
    case Complete => (In(w, Verified) || In(w, Complete)) && t == w.tx.value.(state := Complete) && Open(w)
    case RolledBack =>
      && w.tx.Some? && w.tx.value.job == t.job && OldPrograms(w) && Kept(w)
      && (In(w, Restoring) ==> w.tx.value.snapshot.Some? && DataRestored(w, w.tx.value.snapshot.value))
  }

  lemma SaveKeeps(w: World, t: Transaction)
    requires Invariant(w) && MaySave(w, t)
    ensures Invariant(Saved(w, t))
  {
  }

  function Started(w: World): (r: World) {
    w.(running := true, trusted := In(w, Starting))
  }

  lemma StopKeeps(w: World)
    requires Invariant(w)
    ensures Invariant(Stopped(w))
  {
  }

  lemma CloseKeeps(w: World)
    requires Invariant(w) && In(w, Preparing)
    ensures Invariant(w.(barrier := Installing))
  {
  }

  /** The barrier may be opened only when no restore may follow. */
  lemma OpenKeeps(w: World)
    requires Invariant(w) && w.tx.Some? && !Pending(w)
    ensures Invariant(w.(barrier := Cleared))
  {
  }

  /** Program files change only while the persisted state says that they are being replaced or restored. */
  lemma ProgramKeeps(w: World, n: Name, b: Bytes)
    requires Invariant(w) && (In(w, Replacing) || In(w, Restoring))
    ensures Invariant(w.(programs := w.programs[n := b]))
  {
  }

  /** DATA is overwritten only while the persisted state is "restoring" and nothing runs. */
  lemma DataKeeps(w: World, l: nat, tree: Tree)
    requires Invariant(w) && BeingRestored(w, l) && !w.running
    ensures Invariant(w.(data := w.data[l := tree]))
  {
  }

  lemma ConfigKeeps(w: World, c: Option<Config>)
    requires Invariant(w) && In(w, Restoring)
    ensures Invariant(w.(config := c))
  {
  }

  lemma PartialKeeps(w: World, partials: map<nat, Backup>)
    requires Invariant(w)
    ensures Invariant(w.(partials := partials))
  {
  }

  /** A backup may appear or disappear at will as long as it is not the one a pending transaction needs. */
  lemma BackupsKeep(w: World, backups: map<nat, Backup>, lost: bool)
    requires Invariant(w)
    requires Pending(w) && !lost ==> var job := w.tx.value.job;
      !w.lost && job in backups && job in w.backups && backups[job] == w.backups[job]
    ensures Invariant(w.(backups := backups, lost := lost))
  {
  }

  // Restoring.

  /** What restore checks before it touches anything, apart from the reading itself. */
  predicate MayRestore(w: World, t: Transaction) {
    && t.snapshot.Some?
    && t.job in w.backups
    && var snap, b := t.snapshot.value, w.backups[t.job];
       && b.snapshot == Some(snap) && snap.job == t.job && snap.size <= READ_LIMIT
       && DataPath(if snap.config.Some? then b.config else w.config) == Some(snap.dataDir)
       && (forall n :: n in snap.program ==> n in b.program && b.program[n] == snap.program[n])
       && (snap.config.Some? ==> b.config == snap.config)
       && (snap.existed ==> b.files == snap.files && b.dirs == snap.dirs)
       && (snap.existed ==> snap.dataDir in w.data && w.data[snap.dataDir].identity == snap.identity)
       && (!snap.existed ==> snap.dataDir !in w.data)
  }

  /** The restore has got to this phase, and that is persisted. */
  predicate InPhase(w: World, t: Transaction, phase: RestorePhase) {
    w.tx == Some(t) && t.state == Restoring && t.phase == phase
  }

  predicate ProgramsRestored(w: World, snap: Snapshot, names: set<Name>) {
    forall n :: n in names && n in snap.program ==> n in w.programs && w.programs[n] == snap.program[n]
  }

  /** DATA, the recorded programs and the recorded configuration are those of the snapshot. */
  predicate Restored(w: World, snap: Snapshot) {
    && DataRestored(w, snap)
    && ProgramsRestored(w, snap, snap.program.Keys)
    && (snap.config.Some? ==> w.config == snap.config)
    && (!snap.existed ==> snap.dataDir !in w.data)
  }

  /** A completed restore has brought back every acknowledged write to the DATA it restored. */
  lemma RestoredHasEveryWrite(w: World, snap: Snapshot, a: Write)
    requires Restored(w, snap) && Covers(snap, w.accepted) && a in w.accepted && a.location == snap.dataDir
    ensures Present(w.data, a)
  {
  }

  // The engine.

  datatype Outcome = Succeeds | Fails(applied: bool) | Crashes(applied: bool)

  /** How one step turns out, and what the running program has made of the world after it. */
  datatype Event = Event(outcome: Outcome, world: World)

  /** A step to `next` and what a running program, if the event is possible at all, makes of it. */
  function AfterEvent(w: World, next: World, e: Event): (r: World) {
    var there := if e.outcome.Succeeds? || e.outcome.applied then next else w;
    if EnvironmentStep(there, e.world) then e.world else there
  }

  datatype RestoreResult = Refused | Interrupted | Done

  /**
    How far an installation went. `NotStopped`: not even the services. `Resumed`: to the stop, and
    nothing was replaced. `Undone`: behind the backup, and `at` is the world that was rolled back.
    `Proven`: the new version passed its checks, and `at` is the world in which it did. `failed` is
    how many steps had failed by then.
  */
  datatype Fate = NotStopped | Resumed(failed: nat) | Undone(at: World, failed: nat) | Proven(at: World)

  /** No failure is in store for the first `n` steps. */
  predicate Begins(script: seq<Event>, n: nat) {
    forall k :: 0 <= k < n && k < |script| ==> script[k].outcome.Succeeds?
  }

  /** What is left of the script behind `n` steps. */
  function Rest(script: seq<Event>, n: nat): (r: seq<Event>) {
    if |script| <= n then [] else script[n..]
  }

  lemma BeginsStepwise(script: seq<Event>, m: nat, n: nat)
    ensures Begins(script, m + n) <==> Begins(script, m) && Begins(Rest(script, m), n)
    ensures Rest(Rest(script, m), n) == Rest(script, m + n)
  {
    if Begins(script, m) && Begins(Rest(script, m), n) {
      forall k | 0 <= k < m + n && k < |script| ensures script[k].outcome.Succeeds? {
        assert k >= m ==> script[k] == Rest(script, m)[k - m];
      }
    }
    if Begins(script, m + n) {
      forall k | 0 <= k < n && k < |Rest(script, m)| ensures Rest(script, m)[k].outcome.Succeeds? {
        assert Rest(script, m)[k] == script[m + k];
      }
    }
  }

  /** What a step from `w` to `v` can leave behind, success or not. */
  ghost predicate Stepped(w: World, v: World, end: World, ok: bool) {
    EnvironmentStep(v, end) || (!ok && EnvironmentStep(w, end))
  }

  lemma EnvironmentIdles(w: World)
    requires Invariant(w)
    ensures EnvironmentStep(w, w)
  {
  }

  /** Every moment so far satisfied the invariant, and what was settled stayed settled. */
  ghost predicate Chronicle(moments: seq<World>, now: World) {
    && (forall k :: 0 <= k < |moments| ==> Invariant(moments[k]) && moments[k].settled <= now.settled)
    && (forall i, k :: 0 <= i <= k < |moments| ==> moments[i].settled <= moments[k].settled)
  }

  /** At every moment of every run: no mix of programs and no lost write while writes are admitted. */
  lemma EveryMomentIsSafe(moments: seq<World>, now: World, k: nat)
    requires Chronicle(moments, now) && k < |moments|
    ensures Safe(moments[k])
    ensures Pending(moments[k]) ==> !Open(moments[k]) && moments[k].inflight == 0
  {
    InvariantIsSafe(moments[k]);
  }

  /** Once the outcome of a job has been persisted, no later moment can restore DATA for it. */
  lemma NoRestoreAfterTheOutcome(moments: seq<World>, now: World, i: nat, k: nat)
    requires Chronicle(moments, now) && i <= k < |moments|
    requires moments[i].tx.Some? && SettledState(moments[i].tx.value.state)
    ensures moments[k].tx.Some? && moments[k].tx.value.job == moments[i].tx.value.job ==> !Pending(moments[k])
  {
    assert Invariant(moments[i]) && Invariant(moments[k]);
  }

  /** Where copyInventory copies to: the partial backup of a job, or a DATA location. */
  datatype Target = ToPartial(job: nat) | ToData(location: nat)

  predicate HasTarget(w: World, target: Target) {
    match target
    case ToPartial(job) => job in w.partials
    case ToData(l) => l in w.data && BeingRestored(w, l)
  }

  function FilesAt(w: World, target: Target): (r: map<Path, Bytes>)
    requires HasTarget(w, target)
  {
    match target
    case ToPartial(job) => w.partials[job].files
    case ToData(l) => w.data[l].files
  }

  function DirsAt(w: World, target: Target): (r: set<Path>)
    requires HasTarget(w, target)
  {
    match target
    case ToPartial(job) => w.partials[job].dirs
    case ToData(l) => w.data[l].dirs
  }

  function Put(w: World, target: Target, files: map<Path, Bytes>, dirs: set<Path>): (r: World)
    requires HasTarget(w, target)
    ensures HasTarget(r, target) && FilesAt(r, target) == files && DirsAt(r, target) == dirs
  {
    match target
    case ToPartial(job) => w.(partials := w.partials[job := w.partials[job].(files := files, dirs := dirs)])
    case ToData(l) => w.(data := w.data[l := w.data[l].(files := files, dirs := dirs)])
  }

  lemma PutKeeps(w: World, target: Target, files: map<Path, Bytes>, dirs: set<Path>)
    requires Invariant(w) && !w.running && HasTarget(w, target)
    ensures Invariant(Put(w, target, files, dirs))
  {
    hide Invariant;
    match target
    case ToPartial(job) => PartialKeeps(w, Put(w, target, files, dirs).partials);
    case ToData(l) => DataKeeps(w, l, w.data[l].(files := files, dirs := dirs));
  }

  lemma PutTwice(w: World, target: Target, files: map<Path, Bytes>, dirs: set<Path>, more: map<Path, Bytes>, others: set<Path>)
    requires HasTarget(w, target)
    ensures Put(Put(w, target, files, dirs), target, more, others) == Put(w, target, more, others)
  {
    match target
    case ToPartial(job) =>
      assert Put(Put(w, target, files, dirs), target, more, others).partials == Put(w, target, more, others).partials;
    case ToData(l) =>
      assert Put(Put(w, target, files, dirs), target, more, others).data == Put(w, target, more, others).data;
  }

  lemma PutSame(w: World, target: Target)
    requires HasTarget(w, target)
    ensures Put(w, target, FilesAt(w, target), DirsAt(w, target)) == w
  {
    match target
    case ToPartial(job) => assert w.partials[job := w.partials[job]] == w.partials;
    case ToData(l) => assert w.data[l := w.data[l]] == w.data;
  }

  /** Only the target differs. */
  predicate Rewritten(w: World, v: World, target: Target) {
    HasTarget(w, target) && HasTarget(v, target) && v == Put(w, target, FilesAt(v, target), DirsAt(v, target))
  }

  predicate Shrunk(w: World, v: World, target: Target)
    requires HasTarget(w, target) && HasTarget(v, target)
  {
    FilesAt(v, target).Keys <= FilesAt(w, target).Keys && DirsAt(v, target) <= DirsAt(w, target)
  }

  lemma RewrittenIdly(w: World, target: Target)
    requires HasTarget(w, target)
    ensures Rewritten(w, w, target)
  {
    PutSame(w, target);
  }

  lemma RewrittenTwice(w: World, v: World, u: World, target: Target)
    requires Rewritten(w, v, target) && Rewritten(v, u, target)
    ensures Rewritten(w, u, target)
  {
    PutTwice(w, target, FilesAt(v, target), DirsAt(v, target), FilesAt(u, target), DirsAt(u, target));
  }

  /** Nothing runs, so a step leaves exactly one of the two worlds. */
  lemma Undisturbed(w: World, v: World, end: World, ok: bool)
    requires Stepped(w, v, end, ok) && !v.running && (ok || !w.running)
    ensures ok ==> end == v
    ensures end == v || end == w
  {
  }

  lemma StepFramed(w: World, v: World, end: World, ok: bool)
    requires Stepped(w, v, end, ok)
    ensures Framed(v, end) || (!ok && Framed(w, end))
  {
  }

  /** The top-level entry a path lies under. */
  function Top(p: Path): (r: string) {
    if p == [] then "" else p[0]
  }

  function WithoutFiles(files: map<Path, Bytes>, gone: set<Path>): (r: map<Path, Bytes>)
    ensures r.Keys == files.Keys - gone
  {
    files - gone
  }

  /** A transaction in memory and one on disk that differ at most in their progress. */
  predicate SameJob(t: Transaction, u: Transaction) {
    t.job == u.job && t.manifest == u.manifest && t.snapshot == u.snapshot && t.rest == u.rest
  }

  /** A restore of `t` is under way or may begin. */
  predicate Restorable(w: World, t: Transaction) {
    Pending(w) && SameJob(w.tx.value, t) && t.snapshot.Some?
  }

  /** Everything a restore leaves alone. */
  ghost predicate RestoreFrame(w: World, v: World, snap: Snapshot) {
    && v == w.(tx := v.tx, data := v.data, programs := v.programs, config := v.config)
    && (forall l :: l != snap.dataDir ==> (l in v.data <==> l in w.data) && (l in w.data ==> v.data[l] == w.data[l]))
    && (snap.dataDir in v.data <==> snap.dataDir in w.data)
    && (snap.dataDir in w.data ==> v.data[snap.dataDir].identity == w.data[snap.dataDir].identity)
    && (v.config == w.config || (snap.config.Some? && v.config == snap.config))
    && SameUnrecorded(w, v, snap)
  }

  /** A program file that the snapshot does not record stays as it is, replaced or not. */
  ghost predicate SameUnrecorded(w: World, v: World, snap: Snapshot) {
    forall n :: n !in snap.program ==> (n in v.programs <==> n in w.programs) && (n in w.programs ==> v.programs[n] == w.programs[n])
  }

  /**
    Re-entering a restore changes nothing about its result: whatever two restores of one snapshot
    went through, they end with the same DATA, programs and configuration.
  */
  lemma EndStatesAgree(w: World, v: World, u: World, snap: Snapshot)
    requires RestoreFrame(w, v, snap) && Restored(v, snap)
    requires RestoreFrame(w, u, snap) && Restored(u, snap)
    ensures v.data == u.data && v.programs == u.programs && v.config == u.config
  {
    forall n: Name ensures n in v.programs <==> n in u.programs {
      assert n in snap.program || n !in snap.program;
    }
    assert forall l :: l in v.data ==> l == snap.dataDir || l in w.data;
  }

  /** What a restore is to end with, but for its own progress in the transaction. */
  function EndState(w: World, snap: Snapshot): (r: World) {
    w.(data := if snap.existed then w.data[snap.dataDir := Tree(snap.identity, snap.files, snap.dirs)] else w.data,
       programs := w.programs + snap.program,
       config := if snap.config.Some? then snap.config else w.config)
  }

  lemma EndStateReached(w: World, v: World, snap: Snapshot)
    requires RestoreFrame(w, v, snap) && Restored(v, snap)
    ensures v == EndState(w, snap).(tx := v.tx)
  {
    var u := EndState(w, snap);
    forall n: Name ensures n in v.programs <==> n in u.programs {
      assert n in snap.program || n !in snap.program;
    }
    assert v.programs == u.programs;
    assert forall l :: l in v.data ==> l == snap.dataDir || l in w.data;
    assert v.data == u.data;
  }

  /** Half a restore does not change what the whole one ends with. */
  lemma EndStateStays(w: World, v: World, snap: Snapshot)
    requires RestoreFrame(w, v, snap) && (!snap.existed ==> snap.dataDir !in w.data)
    ensures EndState(v, snap) == EndState(w, snap).(tx := v.tx)
  {
    var x, y := EndState(w, snap), EndState(v, snap);
    forall n: Name ensures n in x.programs <==> n in y.programs {
      assert n in snap.program || n !in snap.program;
    }
    assert x.programs == y.programs;
    assert x.data == y.data;
  }

  /** The restore of `t` that is to turn `w` into its end state is complete, or can be entered again. */
  ghost predicate RestoredOrStillTo(w: World, v: World, restored: Option<World>, t: Transaction)
  {
    t.snapshot.Some? && if Pending(v) then
      !v.running && SameJob(v.tx.value, t) && RestoreFrame(w, v, t.snapshot.value) && MayRestore(v, t)
    else
      restored.Some? && restored.value == EndState(w, t.snapshot.value).(tx := restored.value.tx)
  }

  /** The same with a program to be stopped first; if that fails nothing has been restored yet. */
  ghost predicate GoneBackOrStillTo(w: World, v: World, restored: Option<World>, t: Transaction) {
    RestoredOrStillTo(Stopped(w), v, restored, t) || (w.running && Pending(v) && Framed(w, v))
  }

  lemma RestoreFrameComposes(w: World, v: World, u: World, snap: Snapshot)
    requires RestoreFrame(w, v, snap) && RestoreFrame(v, u, snap)
    ensures RestoreFrame(w, u, snap)
  {
  }

  /** Whatever a restore has done so far, the checks it began with still hold. */
  lemma ChecksSurvive(w: World, v: World, t: Transaction)
    requires MayRestore(w, t) && RestoreFrame(w, v, t.snapshot.value)
    ensures MayRestore(v, t)
  {
  }

  lemma MayRestoreSameJob(w: World, t: Transaction, u: Transaction)
    requires SameJob(t, u)
    ensures MayRestore(w, t) <==> MayRestore(w, u)
  {
  }

  lemma NothingRestoredYet(w: World, restored: Option<World>, t: Transaction)
    requires Pending(w) && !w.running && SameJob(w.tx.value, t) && MayRestore(w, t)
    ensures RestoredOrStillTo(w, w, restored, t)
  {
  }

  lemma OutstandingFacts(w: World, v: World, restored: Option<World>, t: Transaction)
    requires Pending(v) && RestoredOrStillTo(w, v, restored, t)
    ensures !v.running && SameJob(v.tx.value, t) && MayRestore(v, v.tx.value) && RestoredOrStillTo(w, v, None, t)
  {
    MayRestoreSameJob(v, v.tx.value, t);
  }

  lemma StillToRestore(w: World, v: World, restored: Option<World>, t: Transaction)
    requires Restorable(v, t) && !v.running && RestoreFrame(w, v, t.snapshot.value) && (MayRestore(w, t) ==> MayRestore(v, t))
    ensures MayRestore(w, t) ==> RestoredOrStillTo(w, v, restored, t)
  {
  }

  /** Behind a complete restore the transaction is still pending, and then it is not. */
  lemma CompleteRestore(w: World, v: World, t: Transaction)
    requires Restorable(v, t) && !v.running && RestoreFrame(w, v, t.snapshot.value) && MayRestore(v, t)
    requires Restored(v, t.snapshot.value)
    ensures RestoredOrStillTo(w, v, Some(v), t)
    ensures forall u :: !Pending(u) ==> RestoredOrStillTo(w, u, Some(v), t)
  {
    EndStateReached(w, v, t.snapshot.value);
  }

  /** A restore that is entered again ends where the first one would have ended. */
  lemma AgainIsTheSame(w: World, v: World, u: World, restored: Option<World>, t: Transaction, again: Transaction)
    requires Pending(v) && RestoredOrStillTo(w, v, None, t) && again == v.tx.value
    requires MayRestore(w, t) && RestoredOrStillTo(v, u, restored, again)
    ensures RestoredOrStillTo(w, u, restored, t)
  {
    var snap := t.snapshot.value;
    if Pending(u) {
      RestoreFrameComposes(w, v, u, snap);
      MayRestoreSameJob(u, again, t);
    } else {
      EndStateStays(w, v, snap);
    }
  }

  const EMPTY := Backup(None, map[], {}, map[], None)

  /** transaction.json stays short enough to be read whatever its state and phase. */
  predicate AlwaysReadable(t: Transaction) {
    t.snapshot.Some? && t.snapshot.value.size + t.rest + 17 <= READ_LIMIT
  }

  lemma SizeOfTheSameJob(w: World, t: Transaction)
    requires w.tx.Some? && PendingState(w.tx.value.state) && SameJob(w.tx.value, t)
    ensures AlwaysReadable(t) ==> Readable(w)
  {
  }

  /** A backup before its configuration and its snapshot.json have been written. */
  function WithoutConfig(snap: Snapshot): (r: Backup) {
    BackupOf(snap).(snapshot := None, config := None)
  }

  predicate PartialIs(w: World, job: nat, b: Backup) {
    job in w.partials && w.partials[job] == b
  }

  lemma BothNames(programs: map<Name, Bytes>)
    requires Main in programs
    ensures Updater in programs ==> programs == map[Main := programs[Main], Updater := programs[Updater]]
    ensures Updater !in programs ==> programs == map[Main := programs[Main]]
  {
    forall n | n in programs ensures n == Main || n == Updater {
      match n
      case Main =>
      case Updater =>
    }
  }

  /** The rename of a finished partial backup. */
  function Renamed(w: World, job: nat): (r: World)
    requires job in w.partials
  {
    w.(backups := w.backups[job := w.partials[job]], partials := w.partials - {job})
  }

  /** What backup records of the world in front of it. */
  predicate SnapshotOf(w: World, snap: Snapshot, job: nat, location: nat) {
    && snap.job == job && snap.dataDir == location
    && (snap.existed <==> location in w.data)
    && (snap.existed ==> w.data[location] == Tree(snap.identity, snap.files, snap.dirs))
    && (!snap.existed ==> snap.files == map[] && snap.dirs == {})
    && snap.program == w.programs && snap.config == w.config
  }

  lemma SameDataKept(w: World, v: World)
    requires Kept(w) && v.data == w.data && v.accepted == w.accepted
    ensures Kept(v)
  {
  }

  ghost predicate BackupFrame(w: World, v: World) {
    && v.barrier == w.barrier && v.programs == w.programs && v.config == w.config && v.data == w.data
    && v.accepted == w.accepted && v.before == w.before && v.running == w.running && v.inflight == w.inflight
    && v.lost == w.lost
  }

  lemma PreparingTrees(w: World, location: nat)
    requires Invariant(w) && In(w, Preparing) && location in w.data
    ensures WellFormed(w.data[location].files, w.data[location].dirs)
  {
  }

  lemma BackedUpMaySave(w: World, t: Transaction)
    requires Invariant(w) && In(w, Preparing) && w.tx.value.job == t.job && t.state == BackedUp && t.snapshot.Some?
    requires w.barrier == Installing && w.inflight == 0
    requires t.snapshot.value.job == t.job && t.snapshot.value.program == w.before
    requires WellFormed(t.snapshot.value.files, t.snapshot.value.dirs) && Covers(t.snapshot.value, w.accepted)
    requires t.job in w.backups && w.backups[t.job] == BackupOf(t.snapshot.value)
    ensures MaySave(w, t)
  {
  }

  lemma SnapshotCovers(w: World, snap: Snapshot, job: nat, location: nat)
    requires Invariant(w) && In(w, Preparing) && SnapshotOf(w, snap, job, location) && w.programs == w.before
    ensures WellFormed(snap.files, snap.dirs) && Covers(snap, w.accepted)
  {
  }

  lemma RecordedMaySave(w: World, t: Transaction, snap: Snapshot, location: nat)
    requires Invariant(w) && In(w, Preparing) && w.tx.value.job == t.job && t.state == BackedUp && t.snapshot == Some(snap)
    requires w.barrier == Installing && w.inflight == 0 && w.programs == w.before
    requires SnapshotOf(w, snap, t.job, location) && t.job in w.backups && w.backups[t.job] == BackupOf(snap)
    ensures MaySave(w, t)
  {
    SnapshotCovers(w, snap, t.job, location);
    BackedUpMaySave(w, t);
  }

  lemma RecordSteps(w: World, t: Transaction, snap: Snapshot, location: nat)
    requires In(w, Preparing) && w.tx.value.job == t.job && t.state == BackedUp && PartialIs(w, t.job, BackupOf(snap))
    requires SnapshotOf(w, snap, t.job, location)
    ensures BackupFrame(w, w)
    ensures var v := Renamed(w, t.job);
      && BackupFrame(w, v) && v.tx == w.tx && v.jobs == w.jobs && SnapshotOf(v, snap, t.job, location)
      && t.job in v.backups && v.backups[t.job] == BackupOf(snap)
    ensures var v := Saved(Renamed(w, t.job), t); BackupFrame(w, v) && v.tx == Some(t) && v.jobs == w.jobs + {t.job}
    ensures Renamed(w, t.job).running == w.running && Renamed(w, t.job).barrier == w.barrier
    ensures Renamed(w, t.job).inflight == w.inflight && Renamed(w, t.job).programs == w.programs && Renamed(w, t.job).before == w.before
  {
  }

  lemma PendingSnapshot(w: World)
    requires Invariant(w) && Pending(w)
    ensures w.barrier == Installing && w.inflight == 0 && SnapshotHolds(w, w.tx.value) && w.tx.value.job in w.jobs
  {
  }

  lemma RewrittenFrame(w: World, v: World, snap: Snapshot)
    requires Rewritten(w, v, ToData(snap.dataDir))
    ensures RestoreFrame(w, v, snap) && v == w.(data := v.data)
  {
  }

  lemma TransactionFrame(w: World, v: World, snap: Snapshot)
    requires v == w.(tx := v.tx)
    ensures RestoreFrame(w, v, snap)
  {
  }

  lemma PhaseMaySave(w: World, t: Transaction, phase: RestorePhase)
    requires Invariant(w) && Restorable(w, t)
    ensures var u := t.(state := Restoring, phase := phase);
      MaySave(w, u) && Restorable(w, u) && (MayRestore(w, t) ==> MayRestore(w, u)) && w.jobs + {t.job} == w.jobs
  {
  }

  lemma PhaseSaved(w: World, v: World, t: Transaction)
    requires Restorable(w, t) && MayRestore(w, t) && t.state == Restoring && (v == w || v == Saved(w, t))
    requires w.jobs + {t.job} == w.jobs
    ensures RestoreFrame(w, v, t.snapshot.value) && MayRestore(v, t) && Restorable(v, t) && v == w.(tx := v.tx)
    ensures v == Saved(w, t) ==> v.tx == Some(t) && In(v, Restoring)
    ensures In(w, Restoring) ==> In(v, Restoring)
  {
    TransactionFrame(w, v, t.snapshot.value);
    ChecksSurvive(w, v, t);
  }

  lemma ProgramFrame(w: World, v: World, snap: Snapshot)
    requires v == w.(programs := v.programs) && SameUnrecorded(w, v, snap)
    ensures RestoreFrame(w, v, snap)
  {
  }

  lemma OneRestored(w: World, v: World, u: World, snap: Snapshot, n: Name, names: set<Name>, more: set<Name>)
    requires v == w.(programs := v.programs) && SameUnrecorded(w, v, snap) && ProgramsRestored(v, snap, names)
    requires more <= names + {n}
    requires n in snap.program && (u == v || u == v.(programs := v.programs[n := snap.program[n]]))
    ensures u == w.(programs := u.programs) && SameUnrecorded(w, u, snap) && ProgramsRestored(u, snap, names)
    ensures u == v.(programs := v.programs[n := snap.program[n]]) ==> ProgramsRestored(u, snap, more)
  {
  }

  lemma ConfigFrame(w: World, v: World, snap: Snapshot)
    requires v == w.(config := v.config) && (v.config == w.config || (snap.config.Some? && v.config == snap.config))
    ensures RestoreFrame(w, v, snap)
  {
  }

  lemma RewrittenData(w: World, v: World, snap: Snapshot)
    requires Rewritten(w, v, ToData(snap.dataDir)) && w.data[snap.dataDir].identity == snap.identity
    requires FilesAt(v, ToData(snap.dataDir)) == snap.files && DirsAt(v, ToData(snap.dataDir)) == snap.dirs
    ensures DataRestored(v, snap)
  {
  }

  lemma AllRestored(w: World, t: Transaction, snap: Snapshot)
    requires MayRestore(w, t) && t.snapshot == Some(snap) && DataRestored(w, snap)
    requires ProgramsRestored(w, snap, snap.program.Keys) && (snap.config.Some? ==> w.config == snap.config)
    ensures Restored(w, snap)
  {
  }

  /** The transaction has an outcome and writes are admitted again. */
  predicate Settled(w: World) {
    (In(w, RolledBack) || In(w, Complete)) && Open(w)
  }

  /** The last program that passed its start check ran under the persisted transaction of `w`. */
  predicate Relaunched(launched: Option<World>, w: World) {
    launched.Some? && launched.value.running && launched.value.tx == w.tx
  }

  /**
    The job has been given up for good: that is persisted, the programs it found are in place and
    have been started again, no acknowledged write is missing, and writes are admitted.
  */
  predicate WentBack(launched: Option<World>, w: World, job: nat) {
    In(w, RolledBack) && w.tx.value.job == job && Open(w) && Relaunched(launched, w) && OldPrograms(w) && Kept(w)
  }

  /** A new version has been launched in `starting` and, when it was looked at, had left the configuration alone. */
  ghost predicate Passed(launched: Option<World>, looked: World, job: nat, manifest: map<Name, Bytes>) {
    && launched.Some? && launched.value.running && launched.value.trusted && In(launched.value, Starting)
    && var t := launched.value.tx.value;
       && t.job == job && t.manifest == manifest && NewPrograms(launched.value, manifest)
       && Framed(launched.value, looked) && Kept(looked) && !Reconfigured(looked)
  }

  /** The configuration is not the one the pending transaction has recorded. */
  predicate Reconfigured(w: World) {
    && w.tx.Some? && w.tx.value.snapshot.Some?
    && w.tx.value.snapshot.value.config.Some? && w.config != w.tx.value.snapshot.value.config
  }

  /**
    `w` is what a rollback has made of `at`. It refuses exactly if the checks of restore fail. If
    they hold it leads back, unless a step of its own fails, and then it can be entered again.
  */
  ghost predicate Undoes(at: World, w: World, launched: Option<World>, restored: Option<World>, undisturbed: bool) {
    && Pending(at)
    && var t := at.tx.value;
       if MayRestore(at, t) then
         GoneBackOrStillTo(at, w, restored, t) && (undisturbed ==> WentBack(launched, w, t.job))
       else
         Pending(w)
  }

  /**
    What an installation that began with `failed` failures in `start`, and has stopped the services,
    has come to by now. If one step failed and none after it, the job has been given up and the
    programs are those of `start`; behind the proof there is no way back.
  */
  ghost predicate Explained(
      fate: Fate, start: Start, w: World, failures: nat, launched: Option<World>, restored: Option<World>,
      job: nat, manifest: map<Name, Bytes>) {
    match fate
    case NotStopped => false
    case Resumed(n) =>
      && start.failed <= n <= failures && (n == start.failed ==> start.blocked)
      && w.programs == start.programs
      && (failures == n ==> WentBack(launched, w, job))
    case Undone(at, n) =>
      && start.failed <= n <= failures && (n == start.failed ==> Reconfigured(at))
      && Pending(at) && at.tx.value.job == job && at.before == start.programs && w.before == start.programs
      && Undoes(at, w, launched, restored, failures == n)
    case Proven(at) =>
      Passed(launched, at, job, manifest) && Advanced(w, job) && NewPrograms(w, manifest)
  }

  /** A backup of the job cannot be made: no main program, or traces of the same job. */
  predicate Blocked(w: World, job: nat) {
    Main !in w.programs || job in w.partials || job in w.backups
  }

  /** What matters of the beginning of an installation: the programs, whether it is blocked, and the failures before it. */
  datatype Start = Start(programs: map<Name, Bytes>, blocked: bool, failed: nat)

  function StartOf(w: World, job: nat, failed: nat): (r: Start) {
    Start(w.programs, Blocked(w, job), failed)
  }

  /** The job is complete and writes are admitted. */
  predicate Installed(w: World, job: nat, manifest: map<Name, Bytes>) {
    In(w, Complete) && Open(w) && w.tx.value.job == job && w.tx.value.manifest == manifest
  }

  /** The transaction is where the proof has left it, or further on. */
  predicate Advanced(w: World, job: nat) {
    (In(w, Starting) || In(w, Verified) || In(w, Complete)) && w.tx.value.job == job
  }

  lemma UndoneExplained(
      at: World, n: nat, start: Start, w: World, failures: nat, launched: Option<World>, restored: Option<World>,
      t: Transaction)
    requires Restorable(at, t) && start.failed <= n <= failures && (n == start.failed ==> Reconfigured(at))
    requires at.before == start.programs && w.before == start.programs
    requires MayRestore(at, t) ==> GoneBackOrStillTo(at, w, restored, t)
    requires MayRestore(at, t) && failures == n ==> WentBack(launched, w, t.job)
    requires !MayRestore(at, t) ==> Pending(w)
    ensures Explained(Undone(at, n), start, w, failures, launched, restored, t.job, t.manifest)
  {
    hide WentBack, NewPrograms, Passed;
    MayRestoreSameJob(at, at.tx.value, t);
  }

  /** What has been explained from further on is explained from the start. */
  lemma ExplainedFrom(
      fate: Fate, middle: Start, start: Start, w: World, failures: nat, launched: Option<World>, restored: Option<World>,
      job: nat, manifest: map<Name, Bytes>)
    requires Explained(fate, middle, w, failures, launched, restored, job, manifest)
    requires middle.programs == start.programs && start.failed <= middle.failed
    requires fate.Undone? || fate.Proven?
    ensures Explained(fate, start, w, failures, launched, restored, job, manifest)
  {
  }

  lemma ProvenExplained(
      at: World, start: Start, w: World, failures: nat, launched: Option<World>, restored: Option<World>,
      job: nat, manifest: map<Name, Bytes>)
    requires Passed(launched, at, job, manifest) && Advanced(w, job) && NewPrograms(w, manifest)
    ensures Explained(Proven(at), start, w, failures, launched, restored, job, manifest)
  {
  }

  lemma ResumedExplained(
      n: nat, start: Start, w: World, failures: nat, launched: Option<World>, restored: Option<World>,
      job: nat, manifest: map<Name, Bytes>)
    requires start.failed <= n <= failures && (n == start.failed ==> start.blocked) && w.programs == start.programs
    requires failures == n ==> WentBack(launched, w, job)
    ensures Explained(Resumed(n), start, w, failures, launched, restored, job, manifest)
  {
  }

  /** The job has been given up with the program still running, or at least not known to have stopped. */
  predicate WithdrawnUnstopped(w: World, job: nat) {
    In(w, RolledBack) && w.tx.value.job == job && w.barrier == Cleared
  }

  lemma UnreplacedMaySave(w: World, t: Transaction)
    requires Invariant(w) && (In(w, Preparing) || In(w, BackedUp)) && w.tx.value.job == t.job && Kept(w) && t.state == RolledBack
    ensures MaySave(w, t)
  {
  }

  lemma GivenUpIsOld(w: World)
    requires Invariant(w)
    ensures In(w, RolledBack) ==> OldPrograms(w) && Kept(w)
  {
  }

  /**
    If one step of an installation failed, and none of the rollback it led to, then the programs of
    the beginning are back, started, and open for writes. The checks of restore are what can prevent it.
  */
  lemma OneFailureIsUndone(
      fate: Fate, start: Start, w: World, launched: Option<World>, restored: Option<World>, job: nat, manifest: map<Name, Bytes>)
    requires Explained(fate, start, w, start.failed + 1, launched, restored, job, manifest) && !start.blocked
    ensures fate.Resumed? ==> WentBack(launched, w, job) && w.programs == start.programs
    ensures fate.Undone? && !Reconfigured(fate.at) ==>
      w.before == start.programs && (WentBack(launched, w, job) <==> MayRestore(fate.at, fate.at.tx.value))
  {
  }

  /** A launch or a stop leaves the updater's own records alone. */
  predicate SameRecords(w: World, v: World) {
    && v.tx == w.tx && v.barrier == w.barrier && v.programs == w.programs && v.backups == w.backups
    && v.before == w.before && v.jobs == w.jobs && v.lost == w.lost
  }

  lemma KeptUnlessPending(w: World)
    requires Invariant(w) && !Pending(w)
    ensures Kept(w)
  {
  }

  /** In front of the first replacement, and once undone, the old programs are in place. */
  lemma OldInPlace(w: World)
    requires Invariant(w) && (In(w, Preparing) || In(w, BackedUp))
    ensures OldPrograms(w)
  {
  }

  lemma LaunchedFacts(w: World, v: World, ok: bool)
    requires Invariant(w) && Launched(w, v, ok)
    ensures Invariant(v) && Framed(w, v) && SameRecords(w, v) && v.settled == w.settled
  {
  }

  lemma StartedLaunched(w: World)
    requires Invariant(w)
    ensures Launched(w, Started(w), true) && SameRecords(w, w) && Framed(w, w)
  {
  }

  /** A new version that passes its start check has kept what was there. */
  lemma StartedKeeps(w: World, v: World)
    requires Invariant(w) && Kept(w) && In(w, Starting) && Launched(w, v, true)
    ensures Kept(v) && v.trusted && v.running && In(v, Starting)
  {
    PendingSnapshot(w);
  }

  lemma WorkingKeeps(w: World, v: World)
    requires Invariant(w) && Kept(w) && w.trusted && EnvironmentStep(w, v)
    ensures Kept(v)
  {
  }

  lemma StoppedIsIdle(w: World)
    requires Invariant(w) && !w.running
    ensures Stopped(w) == w
  {
  }

  lemma StoppedMayRestore(w: World, t: Transaction)
    ensures MayRestore(w, t) <==> MayRestore(Stopped(w), t)
  {
  }

  lemma RestoredMaySettle(w: World, t: Transaction, snap: Snapshot)
    requires Invariant(w) && In(w, Restoring) && SameJob(w.tx.value, t) && t.snapshot == Some(snap) && t.state == RolledBack
    requires Restored(w, snap)
    ensures MaySave(w, t)
  {
    forall a | a in w.accepted ensures Present(w.data, a) {
      if a.location == snap.dataDir {
        RestoredHasEveryWrite(w, snap, a);
      }
    }
  }

  /** An earlier run has left something to be brought to an end. */
  predicate Unfinished(w: World) {
    w.tx.Some? && !Settled(w)
  }

  /** The transaction can be read, and there is nothing about it to be brought to an end. */
  predicate Idle(w: World) {
    Readable(w) && !Unfinished(w)
  }

  /** Cleanup would delete the backup of the transaction if it did not know of it. */
  predicate Exposed(w: World) {
    w.tx.Some? && Recognised(w, w.tx.value.job) && DataPath(w.config).Some?
  }

  /** The backup of the transaction is as it was. */
  predicate Survived(w: World, v: World) {
    w.tx.Some? && w.tx.value.job in w.backups ==>
      w.tx.value.job in v.backups && v.backups[w.tx.value.job] == w.backups[w.tx.value.job]
  }

  /** Nothing failed but the reading of the transaction. */
  predicate Unnoticed(read: bool, failures: int, w: World) {
    !read && failures == if Readable(w) then 1 else 0
  }

  predicate Swept(w: World, v: World) {
    forall job: nat :: Recognised(w, job) ==> job !in v.backups
  }

  /** The backup of the transaction survives if and only if the transaction can be read; otherwise no backup does. */
  predicate DecidedByReading(w: World, v: World) {
    (Survived(w, v) <==> Readable(w)) && (Swept(w, v) <==> !Readable(w))
  }

  /** Cleaning up leaves the transaction, the barrier and the programs alone. */
  predicate CleanupFrame(w: World, v: World) {
    v.tx == w.tx && v.barrier == w.barrier && v.programs == w.programs && v.before == w.before && v.jobs == w.jobs
  }

  /** Nothing but backups and partial backups has gone. */
  predicate Tidied(w: World, v: World) {
    && v == w.(backups := v.backups, partials := v.partials, lost := v.lost)
    && v.backups.Keys <= w.backups.Keys && v.partials.Keys <= w.partials.Keys
  }

  lemma CleanupComposes(w: World, v: World, u: World)
    ensures CleanupFrame(w, v) && CleanupFrame(v, u) ==> CleanupFrame(w, u)
    ensures Tidied(w, v) && Tidied(v, u) ==> Tidied(w, u)
    ensures CleanupFrame(w, w) && Tidied(w, w)
  {
  }

  lemma TidiedIsReady(w: World, v: World, job: nat, manifest: map<Name, Bytes>, stage: map<Name, Bytes>)
    requires Tidied(w, v)
    ensures Ready(w, job, manifest, stage) ==> Ready(v, job, manifest, stage)
  {
  }

  /** What the deletion of a backup means for a pending transaction. */
  function LostAfter(w: World, job: nat): (r: bool) {
    w.lost || (Pending(w) && w.tx.value.job == job)
  }

  function Removed(w: World, job: nat): (r: World) {
    w.(backups := w.backups - {job}, lost := LostAfter(w, job))
  }

  function Damaged(w: World, job: nat, remains: Backup): (r: World) {
    w.(backups := w.backups[job := remains], lost := LostAfter(w, job))
  }

  lemma RemovalKeeps(w: World, job: nat, remains: Backup)
    requires Invariant(w)
    ensures Invariant(Removed(w, job)) && Invariant(Damaged(w, job, remains))
  {
    BackupsKeep(w, Removed(w, job).backups, LostAfter(w, job));
    BackupsKeep(w, Damaged(w, job, remains).backups, LostAfter(w, job));
  }

  /** A backup that cleanup recognises as one of its own. */
  predicate Recognised(w: World, job: int) {
    && job >= 0 && job in w.backups && w.backups[job].snapshot.Some?
    && w.backups[job].snapshot.value.job == job && w.backups[job].snapshot.value.size <= READ_LIMIT
  }

  /** The transaction can be read, and passes the checks of restore if it is pending. */
  predicate Recoverable(w: World) {
    w.tx.Some? && Readable(w) && (Pending(w) ==> MayRestore(w, w.tx.value))
  }

  lemma AbsentIsOpen(w: World)
    requires Invariant(w) && w.tx.None?
    ensures Open(w)
  {
  }

  lemma CompleteIsOpen(w: World)
    requires Invariant(w) && In(w, Complete)
    ensures Open(w)
  {
  }

  /** A pending transaction whose backup nobody deleted passes every check that does not look outside the backup. */
  lemma KeptBackupMayBeRestored(w: World)
    requires Invariant(w) && Pending(w) && !w.lost
    ensures w.tx.value.snapshot.Some?
    ensures var snap := w.tx.value.snapshot.value;
      MayRestore(w, w.tx.value) <==>
        && snap.size <= READ_LIMIT
        && DataPath(if snap.config.Some? then snap.config else w.config) == Some(snap.dataDir)
        && (snap.existed ==> snap.dataDir in w.data && w.data[snap.dataDir].identity == snap.identity)
        && (!snap.existed ==> snap.dataDir !in w.data)
  {
  }

  lemma MayBegin(w: World, t: Transaction)
    requires Invariant(w) && !Pending(w) && Open(w) && t.job !in w.jobs && t.state == Preparing
    ensures MaySave(w, t)
  {
  }

  /** DATA, the configuration and what has been acknowledged are the same. */
  predicate SameBusiness(w: World, v: World) {
    v.data == w.data && v.config == w.config && v.accepted == w.accepted
  }

  predicate Staged(manifest: map<Name, Bytes>, stage: map<Name, Bytes>) {
    forall n :: n in manifest ==> n in stage && stage[n] == manifest[n]
  }

  /** Everything an installation needs: a DATA location, a main program, the staged files, no earlier traces of the job. */
  predicate Ready(w: World, job: nat, manifest: map<Name, Bytes>, stage: map<Name, Bytes>) {
    && DataPath(w.config).Some? && Main in w.programs && Staged(manifest, stage)
    && job !in w.partials && job !in w.backups
  }

  /** Nothing acknowledged is missing and the configuration is the one recorded. */
  predicate Sound(w: World, snap: Snapshot) {
    Kept(w) && (snap.config.Some? ==> w.config == snap.config)
  }

  lemma SavedOnTheWay(w: World, t: Transaction)
    requires Restorable(w, t) && PendingState(t.state)
    ensures var v := Saved(w, t);
      && v.tx == Some(t) && Restorable(v, t) && v.running == w.running && v.programs == w.programs
      && v.before == w.before && v.backups == w.backups && SameBusiness(w, v)
    ensures SameBusiness(w, w)
  {
  }

  lemma BackedUpSound(w: World, v: World, t: Transaction, location: nat)
    requires Invariant(v) && v.tx == Some(t) && t.state == BackedUp && Kept(v) && BackupFrame(w, v)
    requires t.snapshot.Some? ==> SnapshotOf(w, t.snapshot.value, t.job, location)
    ensures t.snapshot.Some? && Sound(v, t.snapshot.value)
  {
  }

  lemma StaysSound(w: World, v: World, snap: Snapshot)
    requires SameBusiness(w, v)
    ensures Sound(w, snap) ==> Sound(v, snap)
  {
  }

  class Engine {
    var world: World
    var script: seq<Event>
    var alive: bool
    var failures: nat
    var tx: Transaction
    var snapshotSize: nat     // what the text of the next snapshot will take
    var transactionRest: nat  // and that of the transaction besides it
    ghost var moments: seq<World>
    ghost var since: seq<World>  // the moments when this run began
    ghost var seen: World        // what the recovery read, and which moment that was
    ghost var seenAt: nat
    ghost var restored: Option<World>  // the moment at which the last complete restore ended
    ghost var launched: Option<World>  // that at which a program last passed its start check
    ghost var fate: Fate               // of the last installation

    /** The last moment is now, and the ones marked are among them. */
    ghost predicate Recorded(now: World)
      reads `moments, `since, `seen, `seenAt, `restored, `launched, `fate
    {
      && since <= moments && moments != [] && moments[|moments| - 1] == now
      && seenAt < |moments| && moments[seenAt] == seen
      && (restored.Some? ==> restored.value in moments)
      && (launched.Some? ==> launched.value in moments)
      && (fate.Undone? || fate.Proven? ==> fate.at in moments)
    }

    /** The invariant now and at every moment so far. */
    ghost predicate Valid()
      reads this
    {
      Invariant(world) && Chronicle(moments, world) && Recorded(world)
    }

    constructor (w: World, script: seq<Event>, snapshotSize: nat, transactionRest: nat)
      requires Invariant(w)
      ensures Valid() && world == w && this.script == script && alive && failures == 0 && moments == since == [w]
      ensures this.snapshotSize == snapshotSize && this.transactionRest == transactionRest
    {
      world, this.script, alive, failures, moments, since := w, script, true, 0, [w], [w];
      seen, seenAt, restored, launched, fate := w, 0, None, None, NotStopped;
      this.snapshotSize, this.transactionRest := snapshotSize, transactionRest;
      tx := Transaction(0, RolledBack, map[], None, Untouched, 0);
    }

    /** No failure is in store and no program interferes. */
    predicate Quiet()
      reads this
    {
      alive && script == []
    }

    /** One durable step. A crashed process takes no more of them. */
    method Do(next: World) returns (ok: bool)
      requires Valid() && Invariant(next) && world.settled <= next.settled
      modifies `world, `script, `alive, `failures, `moments
      ensures old(Quiet()) ==> Quiet() && failures == old(failures)
      ensures old(Quiet()) ==> ok && world == next
      ensures ok ==> old(alive) && alive
      ensures old(alive) ==> script == Rest(old(script), 1) && (ok <==> Begins(old(script), 1))
      ensures Valid() && Stepped(old(world), next, world, ok)
      ensures old(failures) <= failures && (ok <==> failures == old(failures))
      ensures old(alive) && old(script) != [] ==> world == AfterEvent(old(world), next, old(script)[0])
      ensures alive <==> old(alive) && (old(script) == [] || !old(script)[0].outcome.Crashes?)
      ensures !old(alive) ==> world == old(world)
      ensures |old(moments)| <= |moments| <= |old(moments)| + 2
    {
      hide Invariant, Chronicle, Recorded, EnvironmentStep;
      EnvironmentIdles(world);
      EnvironmentIdles(next);
      if !alive {
        failures := failures + 1;
        return false;
      }
      var outcome, after := Succeeds, next;
      if script != [] {
        outcome, after := script[0].outcome, script[0].world;
        script := script[1..];
      }
      if outcome.Succeeds? || outcome.applied {
        Move(next);
      }
      ok := outcome.Succeeds?;
      alive := !outcome.Crashes?;
      failures := if ok then failures else failures + 1;
      if EnvironmentStep(world, after) {
        EnvironmentKeeps(world, after);
        Move(after);
      }
    }

    method Move(next: World)
      requires Valid() && Invariant(next) && world.settled <= next.settled
      modifies `world, `moments
      ensures Valid() && world == next && moments == old(moments) + [next]
    {
      hide Invariant;
      world := next;
      moments := moments + [next];
    }

    ghost method BeginRun()
      requires Valid()
      modifies `since, `seen, `seenAt
      ensures Valid() && since == moments && seen == world && seenAt == |moments| - 1
    {
      hide Invariant, Chronicle, Begins;
      since, seen, seenAt := moments, world, |moments| - 1;
    }

    ghost method MarkRead()
      requires Valid()
      modifies `seen, `seenAt
      ensures Valid() && seen == world && seenAt == |moments| - 1
    {
      hide Invariant, Chronicle, Begins;
      seen, seenAt := world, |moments| - 1;
    }

    ghost method MarkRestored()
      requires Valid()
      modifies `restored
      ensures Valid() && restored == Some(world)
    {
      hide Invariant, Chronicle, Begins;
      restored := Some(world);
    }

    ghost method MarkLaunched()
      requires Valid()
      modifies `launched
      ensures Valid() && launched == Some(world)
    {
      hide Invariant, Chronicle, Begins;
      launched := Some(world);
    }

    ghost method MarkFate(fate: Fate)
      requires Valid() && (fate.Undone? || fate.Proven? ==> fate.at == world)
      modifies `fate
      ensures Valid() && this.fate == fate
    {
      hide Invariant, Chronicle;
      this.fate := fate;
    }

    /** A step that only reads, or writes something the protocol does not depend on. */
    method Probe() returns (ok: bool)
      requires Valid()
      modifies `world, `script, `alive, `failures, `moments
      ensures old(Quiet()) ==> Quiet() && failures == old(failures)
      ensures Valid() && EnvironmentStep(old(world), world)
      ensures old(failures) <= failures && (ok <==> failures == old(failures))
      ensures old(Quiet()) ==> world == old(world)
      ensures ok ==> old(alive) && alive
      ensures old(alive) ==> script == Rest(old(script), 1) && (ok <==> Begins(old(script), 1))
      ensures Framed(old(world), world)
      ensures |old(moments)| <= |moments| <= |old(moments)| + 2
    {
      ok := Do(world);
    }

    /** The same while nothing runs. */
    method QuietProbe() returns (ok: bool)
      requires Valid() && !world.running
      modifies `world, `script, `alive, `failures, `moments
      ensures old(Quiet()) ==> Quiet() && failures == old(failures)
      ensures Valid() && world == old(world)
      ensures old(failures) <= failures && (ok <==> failures == old(failures))
    {
      ok := Probe();
    }

    /**
      copyInventory: makes the directories, then copies the files and compares each with what it
      should be. The target starts out empty.
    */
    method CopyInventory(source: map<Path, Bytes>, files: map<Path, Bytes>, dirs: set<Path>, target: Target) returns (ok: bool)
      requires Valid() && !world.running && HasTarget(world, target) && WellFormed(files, dirs)
      requires FilesAt(world, target) == map[] && DirsAt(world, target) == {}
      modifies `world, `script, `alive, `failures, `moments
      ensures old(Quiet()) ==> Quiet() && failures == old(failures)
      ensures Valid() && old(failures) <= failures
      ensures HasTarget(world, target) && !world.running && Rewritten(old(world), world, target)
      ensures ok ==> FilesAt(world, target) == files && DirsAt(world, target) == dirs && failures == old(failures)
      ensures failures == old(failures) && source == files ==> ok
    {
      hide Invariant, Chronicle, Recorded, EnvironmentStep, Begins;
      ok := CopyDirectories(dirs, target);
      if ok {
        ghost var before := world;
        ok := CopyFiles(source, files, dirs, target);
        RewrittenTwice(old(world), before, world, target);
      }
    }

    method CopyDirectories(dirs: set<Path>, target: Target) returns (ok: bool)
      requires Valid() && !world.running && HasTarget(world, target)
      requires forall p :: p in dirs ==> Parents(p) <= dirs
      requires FilesAt(world, target) == map[] && DirsAt(world, target) == {}
      modifies `world, `script, `alive, `failures, `moments
      ensures old(Quiet()) ==> Quiet() && failures == old(failures)
      ensures Valid() && old(failures) <= failures && (ok <==> failures == old(failures))
      ensures HasTarget(world, target) && !world.running && Rewritten(old(world), world, target)
      ensures ok ==> FilesAt(world, target) == map[] && DirsAt(world, target) == dirs
    {
      hide Invariant, Chronicle, Recorded, EnvironmentStep, Put, FilesAt, DirsAt, HasTarget, Rewritten, Begins;
      RewrittenIdly(world, target);
      var todo := dirs;
      while todo != {}
        invariant Valid() && failures == old(failures) && !world.running
        invariant old(Quiet()) ==> Quiet()
        invariant HasTarget(world, target) && Rewritten(old(world), world, target) && FilesAt(world, target) == map[]
        invariant todo <= dirs && dirs - todo <= DirsAt(world, target) <= dirs
        decreases |todo|
      {
        var p :| p in todo;
        todo := todo - {p};
        ghost var before := world;
        ok := PutStep(target, map[], DirsAt(world, target) + Parents(p) + {p});
        RewrittenTwice(old(world), before, world, target);
        if !ok {
          return;
        }
      }
      ok := true;
    }

    method CopyFiles(source: map<Path, Bytes>, files: map<Path, Bytes>, dirs: set<Path>, target: Target) returns (ok: bool)
      requires Valid() && !world.running && HasTarget(world, target) && WellFormed(files, dirs)
      requires FilesAt(world, target) == map[] && DirsAt(world, target) == dirs
      modifies `world, `script, `alive, `failures, `moments
      ensures old(Quiet()) ==> Quiet() && failures == old(failures)
      ensures Valid() && old(failures) <= failures
      ensures HasTarget(world, target) && !world.running && Rewritten(old(world), world, target)
      ensures ok ==> FilesAt(world, target) == files && DirsAt(world, target) == dirs && failures == old(failures)
      ensures failures == old(failures) && source == files ==> ok
    {
      hide Invariant, Chronicle, Recorded, EnvironmentStep, Put, FilesAt, DirsAt, HasTarget, Rewritten, Begins;
      RewrittenIdly(world, target);
      var todo := files.Keys;
      while todo != {}
        invariant Valid() && failures == old(failures) && !world.running
        invariant old(Quiet()) ==> Quiet()
        invariant HasTarget(world, target) && Rewritten(old(world), world, target) && DirsAt(world, target) == dirs
        invariant todo <= files.Keys && FilesAt(world, target).Keys == files.Keys - todo
        invariant forall p :: p in FilesAt(world, target) ==> FilesAt(world, target)[p] == files[p]
        decreases |todo|
      {
        var p :| p in todo;
        todo := todo - {p};
        if p !in source {
          return false;
        }
        ghost var before := world;
        ok := PutStep(target, FilesAt(world, target)[p := source[p]], DirsAt(world, target) + Parents(p));
        RewrittenTwice(old(world), before, world, target);
        if !ok || source[p] != files[p] {
          return false;
        }
      }
      assert FilesAt(world, target) == files;
      ok := true;
    }

    /** What restore checks before it changes anything. */
    method CheckRestore() returns (ok: bool)
      requires Valid() && !world.running
      modifies `world, `script, `alive, `failures, `moments
      ensures old(Quiet()) ==> Quiet() && failures == old(failures)
      ensures Valid() && world == old(world) && old(failures) <= failures
      ensures ok ==> MayRestore(world, tx) && failures == old(failures)
      ensures failures == old(failures) && MayRestore(world, tx) ==> ok
    {
      ok := QuietProbe();
      if !ok || tx.snapshot.None? || tx.job !in world.backups {
        return false;
      }
      var snap, b := tx.snapshot.value, world.backups[tx.job];
      if b.snapshot != Some(snap) || snap.job != tx.job || snap.size > READ_LIMIT {
        return false;
      }
      if DataPath(if snap.config.Some? then b.config else world.config) != Some(snap.dataDir) {
        return false;
      }
      if exists n :: n in snap.program && !(n in b.program && b.program[n] == snap.program[n]) {
        return false;
      }
      if snap.config.Some? && b.config != snap.config {
        return false;
      }
      if snap.existed {
        if b.files != snap.files || b.dirs != snap.dirs {
          return false;
        }
        if snap.dataDir !in world.data || world.data[snap.dataDir].identity != snap.identity {
          return false;
        }
      } else if snap.dataDir in world.data {
        return false;
      }
      ok := true;
    }

    /** saveTx. */
    method SaveTx() returns (ok: bool)
      requires Valid() && MaySave(world, tx)
      modifies `world, `script, `alive, `failures, `moments
      ensures old(Quiet()) ==> Quiet() && failures == old(failures)
      ensures Valid() && Stepped(old(world), Saved(old(world), tx), world, ok)
      ensures old(failures) <= failures && (ok <==> failures == old(failures))
      ensures old(Quiet()) ==> world == Saved(old(world), tx)
      ensures ok ==> old(alive) && alive
      ensures old(alive) ==> script == Rest(old(script), 1) && (ok <==> Begins(old(script), 1))
    {
      SaveKeeps(world, tx);
      ok := Do(Saved(world, tx));
    }

    /** RemoveAll on every top-level entry of DATA, path by path. */
    method RemoveEntries(l: nat) returns (ok: bool)
      requires Valid() && !world.running && HasTarget(world, ToData(l))
      modifies `world, `script, `alive, `failures, `moments
      ensures old(Quiet()) ==> Quiet() && failures == old(failures)
      ensures Valid() && old(failures) <= failures && (ok <==> failures == old(failures))
      ensures HasTarget(world, ToData(l)) && !world.running && Rewritten(old(world), world, ToData(l))
      ensures ok ==> FilesAt(world, ToData(l)) == map[] && DirsAt(world, ToData(l)) == {}
    {
      var target := ToData(l);
      hide Invariant, Chronicle, Recorded, EnvironmentStep, Put, FilesAt, DirsAt, HasTarget, Rewritten, Begins;
      RewrittenIdly(world, target);
      var names := set p | p in FilesAt(world, target).Keys + DirsAt(world, target) :: Top(p);
      while names != {}
        invariant Valid() && failures == old(failures) && !world.running
        invariant old(Quiet()) ==> Quiet()
        invariant HasTarget(world, target) && Rewritten(old(world), world, target)
        invariant forall p :: p in FilesAt(world, target).Keys + DirsAt(world, target) ==> Top(p) in names
        decreases |names|
      {
        var name :| name in names;
        ghost var before := world;
        ok := RemoveAll(target, name);
        RewrittenTwice(old(world), before, world, target);
        if !ok {
          return;
        }
        names := names - {name};
      }
      assert FilesAt(world, target).Keys + DirsAt(world, target) == {};
      assert FilesAt(world, target) == map[] && DirsAt(world, target) == {};
      ok := true;
    }

    method RemoveAll(target: Target, name: string) returns (ok: bool)
      requires Valid() && !world.running && HasTarget(world, target)
      modifies `world, `script, `alive, `failures, `moments
      ensures old(Quiet()) ==> Quiet() && failures == old(failures)
      ensures Valid() && old(failures) <= failures && (ok <==> failures == old(failures))
      ensures HasTarget(world, target) && !world.running && Rewritten(old(world), world, target) && Shrunk(old(world), world, target)
      ensures ok ==> forall p :: p in FilesAt(world, target).Keys + DirsAt(world, target) ==> Top(p) != name
    {
      hide Invariant, Chronicle, Recorded, EnvironmentStep, Put, FilesAt, DirsAt, HasTarget, Rewritten, Begins;
      RewrittenIdly(world, target);
      var below := set p | p in FilesAt(world, target).Keys + DirsAt(world, target) && Top(p) == name;
      while below != {}
        invariant Valid() && failures == old(failures) && !world.running
        invariant old(Quiet()) ==> Quiet()
        invariant HasTarget(world, target) && Rewritten(old(world), world, target) && Shrunk(old(world), world, target)
        invariant forall p :: p in FilesAt(world, target).Keys + DirsAt(world, target) && Top(p) == name ==> p in below
        decreases |below|
      {
        var p :| p in below;
        below := below - {p};
        ghost var before := world;
        ok := PutStep(target, WithoutFiles(FilesAt(world, target), {p}), DirsAt(world, target) - {p});
        RewrittenTwice(old(world), before, world, target);
        if !ok {
          return;
        }
      }
      ok := true;
    }

    method PutStep(target: Target, files: map<Path, Bytes>, dirs: set<Path>) returns (ok: bool)
      requires Valid() && !world.running && HasTarget(world, target)
      modifies `world, `script, `alive, `failures, `moments
      ensures old(Quiet()) ==> Quiet() && failures == old(failures)
      ensures Valid() && old(failures) <= failures && (ok <==> failures == old(failures))
      ensures HasTarget(world, target) && !world.running && Rewritten(old(world), world, target)
      ensures ok ==> FilesAt(world, target) == files && DirsAt(world, target) == dirs
      ensures !ok ==> world == old(world) || (FilesAt(world, target) == files && DirsAt(world, target) == dirs)
    {
      PutKeeps(world, target, files, dirs);
      RewrittenIdly(world, target);
      hide Invariant, Chronicle, Recorded, EnvironmentStep, Begins;
      ok := Do(Put(world, target, files, dirs));
      Undisturbed(old(world), Put(old(world), target, files, dirs), world, ok);
    }

    /** The DATA part of restore: empties the directory and copies the snapshot into it. */
    method RestoreData(b: Backup, snap: Snapshot) returns (ok: bool)
      requires Valid() && !world.running && Restorable(world, tx) && In(world, Restoring) && MayRestore(world, tx)
      requires tx.snapshot == Some(snap) && world.backups[tx.job] == b
      modifies `world, `script, `alive, `failures, `moments
      ensures old(Quiet()) ==> Quiet() && failures == old(failures)
      ensures Valid() && old(failures) <= failures && (ok <==> failures == old(failures))
      ensures !world.running && RestoreFrame(old(world), world, snap) && MayRestore(world, tx)
      ensures world.tx == old(world).tx && world.backups == old(world).backups
      ensures ok ==> DataRestored(world, snap)
    {
      PendingSnapshot(world);
      if !snap.existed {
        return true;
      }
      ok := RefillData(snap.dataDir, b.files, snap.files, snap.dirs);
      hide Invariant, Chronicle, Recorded, EnvironmentStep, Rewritten, HasTarget, FilesAt, DirsAt, Begins;
      RewrittenFrame(old(world), world, snap);
      ChecksSurvive(old(world), world, tx);
      if ok {
        RewrittenData(old(world), world, snap);
      }
    }

    method RefillData(l: nat, source: map<Path, Bytes>, files: map<Path, Bytes>, dirs: set<Path>) returns (ok: bool)
      requires Valid() && !world.running && HasTarget(world, ToData(l)) && WellFormed(files, dirs) && source == files
      modifies `world, `script, `alive, `failures, `moments
      ensures old(Quiet()) ==> Quiet() && failures == old(failures)
      ensures Valid() && old(failures) <= failures && (ok <==> failures == old(failures))
      ensures HasTarget(world, ToData(l)) && Rewritten(old(world), world, ToData(l))
      ensures ok ==> FilesAt(world, ToData(l)) == files && DirsAt(world, ToData(l)) == dirs
    {
      hide Invariant, Chronicle, Recorded, EnvironmentStep, HasTarget, FilesAt, DirsAt, Rewritten, Begins;
      var target := ToData(l);
      ok := QuietProbe();
      RewrittenIdly(world, target);
      if ok {
        ok := RemoveEntries(l);
      }
      if ok {
        ghost var emptied := world;
        ok := CopyInventory(source, files, dirs, target);
        RewrittenTwice(old(world), emptied, world, target);
      }
    }

    /** The program part of restore. */
    method RestorePrograms(b: Backup, snap: Snapshot) returns (ok: bool)
      requires Valid() && !world.running && In(world, Restoring)
      requires forall n :: n in snap.program ==> n in b.program && b.program[n] == snap.program[n]
      modifies `world, `script, `alive, `failures, `moments
      ensures old(Quiet()) ==> Quiet() && failures == old(failures)
      ensures Valid() && old(failures) <= failures && (ok <==> failures == old(failures))
      ensures !world.running && world == old(world).(programs := world.programs)
      ensures SameUnrecorded(old(world), world, snap)
      ensures ok ==> ProgramsRestored(world, snap, snap.program.Keys)
    {
      var todo := snap.program.Keys;
      assert SameUnrecorded(world, world, snap) && ProgramsRestored(world, snap, snap.program.Keys - todo);
      hide Invariant, Chronicle, Recorded, EnvironmentStep, SameUnrecorded, ProgramsRestored, Begins;
      while todo != {}
        invariant Valid() && failures == old(failures)
        invariant old(Quiet()) ==> Quiet()
        invariant world == old(world).(programs := world.programs)
        invariant SameUnrecorded(old(world), world, snap)
        invariant todo <= snap.program.Keys && ProgramsRestored(world, snap, snap.program.Keys - todo)
        decreases |todo|
      {
        var n :| n in todo;
        ghost var before := world;
        ok := CopyProgram(n, b.program[n]);
        OneRestored(old(world), before, world, snap, n, snap.program.Keys - todo, snap.program.Keys - (todo - {n}));
        todo := todo - {n};
        if !ok {
          return;
        }
      }
      assert snap.program.Keys - todo == snap.program.Keys;
      ok := true;
    }

    /** copyFile onto a program file. */
    method CopyProgram(n: Name, b: Bytes) returns (ok: bool)
      requires Valid() && !world.running && (In(world, Replacing) || In(world, Restoring))
      modifies `world, `script, `alive, `failures, `moments
      ensures old(Quiet()) ==> Quiet() && failures == old(failures)
      ensures Valid() && old(failures) <= failures && (ok <==> failures == old(failures))
      ensures ok ==> world == old(world).(programs := old(world).programs[n := b])
      ensures !ok ==> world == old(world) || world == old(world).(programs := old(world).programs[n := b])
    {
      ProgramKeeps(world, n, b);
      hide Invariant, Chronicle, Recorded, EnvironmentStep, Begins;
      ok := Do(world.(programs := world.programs[n := b]));
      Undisturbed(old(world), old(world).(programs := old(world).programs[n := b]), world, ok);
    }

    /** saveTx while nothing runs. */
    method SaveQuietly() returns (ok: bool)
      requires Valid() && !world.running && MaySave(world, tx)
      modifies `world, `script, `alive, `failures, `moments
      ensures old(Quiet()) ==> Quiet() && failures == old(failures)
      ensures Valid() && old(failures) <= failures && (ok <==> failures == old(failures))
      ensures ok ==> world == Saved(old(world), tx)
      ensures !ok ==> world == old(world) || world == Saved(old(world), tx)
    {
      ok := SaveTx();
      Undisturbed(old(world), Saved(old(world), tx), world, ok);
    }

    /**
      restore. It refuses with nothing changed, or ends with the snapshot in place, or is
      interrupted somewhere in between; then the checks it began with still hold, so that it can
      be entered again.
    */
    method Restore() returns (r: RestoreResult)
      requires Valid() && !world.running && Restorable(world, tx)
      modifies `world, `script, `alive, `failures, `moments, `tx
      ensures old(Quiet()) ==> Quiet() && failures == old(failures)
      ensures Valid() && old(failures) <= failures && !world.running
      ensures tx == old(tx).(state := tx.state, phase := tx.phase) && Restorable(world, tx)
      ensures r.Refused? ==> world == old(world)
      ensures RestoreFrame(old(world), world, tx.snapshot.value)
      ensures r != Refused ==> MayRestore(old(world), tx) && MayRestore(world, tx)
      ensures r.Done? ==> InPhase(world, tx, RestoreComplete) && Restored(world, tx.snapshot.value) && failures == old(failures)
      ensures old(tx).state == Verified || old(tx).state == Complete ==> r.Refused?
      ensures failures == old(failures) && MayRestore(old(world), tx) && old(tx).state != Verified && old(tx).state != Complete ==>
        r.Done?
    {
      if tx.state == Verified || tx.state == Complete {
        return Refused;
      }
      var ok := CheckRestore();
      if !ok {
        return Refused;
      }
      r := RestoreEverything(tx.snapshot.value, world.backups[tx.job]);
    }

    /** restore behind its checks. */
    method RestoreEverything(snap: Snapshot, b: Backup) returns (r: RestoreResult)
      requires Valid() && !world.running && Restorable(world, tx) && MayRestore(world, tx)
      requires tx.snapshot == Some(snap) && world.backups[tx.job] == b
      modifies `world, `script, `alive, `failures, `moments, `tx
      ensures old(Quiet()) ==> Quiet() && failures == old(failures)
      ensures Valid() && old(failures) <= failures && !world.running
      ensures tx == old(tx).(state := tx.state, phase := tx.phase) && Restorable(world, tx)
      ensures RestoreFrame(old(world), world, snap)
      ensures r.Done? ==> InPhase(world, tx, RestoreComplete) && Restored(world, snap)
      ensures r.Done? <==> failures == old(failures)
      ensures !r.Refused?
    {
      hide Invariant, Chronicle, Recorded, EnvironmentStep, RestoreFrame, MayRestore, Restored, Begins;
      r := Interrupted;
      var ok := RestoreDataPhase(snap, b);
      if !ok {
        return;
      }
      ghost var middle := world;
      ok := RestoreFilesPhase(snap, b);
      RestoreFrameComposes(old(world), middle, world, snap);
      if ok {
        r := Done;
      }
    }

    method RestoreDataPhase(snap: Snapshot, b: Backup) returns (ok: bool)
      requires Valid() && !world.running && Restorable(world, tx) && MayRestore(world, tx)
      requires tx.snapshot == Some(snap) && world.backups[tx.job] == b
      modifies `world, `script, `alive, `failures, `moments, `tx
      ensures old(Quiet()) ==> Quiet() && failures == old(failures)
      ensures Valid() && old(failures) <= failures && !world.running && (ok <==> failures == old(failures))
      ensures tx == old(tx).(state := tx.state, phase := tx.phase) && Restorable(world, tx) && MayRestore(world, tx)
      ensures RestoreFrame(old(world), world, snap) && world.backups == old(world).backups
      ensures ok ==> InPhase(world, tx, RestoringProgram) && DataRestored(world, snap)
    {
      hide Invariant, Chronicle, Recorded, EnvironmentStep, RestoreFrame, MayRestore, Begins;
      ok := SavePhase(RestoringData);
      if !ok {
        return;
      }
      ghost var w1 := world;
      ok := RestoreData(b, snap);
      RestoreFrameComposes(old(world), w1, world, snap);
      if !ok {
        return;
      }
      ghost var w2 := world;
      ok := SavePhase(RestoringProgram);
      RestoreFrameComposes(old(world), w2, world, snap);
    }

    method RestoreFilesPhase(snap: Snapshot, b: Backup) returns (ok: bool)
      requires Valid() && !world.running && Restorable(world, tx) && MayRestore(world, tx)
      requires tx.snapshot == Some(snap) && world.backups[tx.job] == b
      requires InPhase(world, tx, RestoringProgram) && DataRestored(world, snap)
      modifies `world, `script, `alive, `failures, `moments, `tx
      ensures old(Quiet()) ==> Quiet() && failures == old(failures)
      ensures Valid() && old(failures) <= failures && !world.running && (ok <==> failures == old(failures))
      ensures tx == old(tx).(state := tx.state, phase := tx.phase) && Restorable(world, tx) && MayRestore(world, tx)
      ensures RestoreFrame(old(world), world, snap)
      ensures ok ==> InPhase(world, tx, RestoreComplete) && Restored(world, snap)
    {
      hide Invariant, Chronicle, Recorded, EnvironmentStep, RestoreFrame, MayRestore, Restored, Begins;
      ok := RestoreFiles(b, snap);
      if !ok {
        return;
      }
      ghost var w4 := world;
      ok := SavePhase(RestoreComplete);
      RestoreFrameComposes(old(world), w4, world, snap);
      if ok {
        AllRestored(world, tx, snap);
      }
    }

    /** saveTx on the way through a restore. */
    method SavePhase(phase: RestorePhase) returns (ok: bool)
      requires Valid() && !world.running && Restorable(world, tx) && MayRestore(world, tx)
      modifies `world, `script, `alive, `failures, `moments, `tx
      ensures old(Quiet()) ==> Quiet() && failures == old(failures)
      ensures Valid() && old(failures) <= failures && (ok <==> failures == old(failures))
      ensures tx == old(tx).(state := Restoring, phase := phase) && Restorable(world, tx) && MayRestore(world, tx)
      ensures !world.running && RestoreFrame(old(world), world, tx.snapshot.value)
      ensures world.data == old(world).data && world.programs == old(world).programs
      ensures world.config == old(world).config && world.backups == old(world).backups
      ensures ok ==> world.tx == Some(tx)
      ensures In(old(world), Restoring) ==> In(world, Restoring)
    {
      hide Invariant, Chronicle, Recorded, EnvironmentStep, RestoreFrame, MayRestore, MaySave, Saved, Begins;
      PhaseMaySave(world, tx, phase);
      tx := tx.(state := Restoring, phase := phase);
      ok := SaveQuietly();
      PhaseSaved(old(world), world, tx);
    }

    /** Programs and configuration. */
    method RestoreFiles(b: Backup, snap: Snapshot) returns (ok: bool)
      requires Valid() && !world.running && In(world, Restoring) && MayRestore(world, tx)
      requires tx.snapshot == Some(snap) && world.backups[tx.job] == b
      modifies `world, `script, `alive, `failures, `moments
      ensures old(Quiet()) ==> Quiet() && failures == old(failures)
      ensures Valid() && old(failures) <= failures && (ok <==> failures == old(failures))
      ensures !world.running && world.tx == old(world).tx && world.data == old(world).data && world.backups == old(world).backups
      ensures RestoreFrame(old(world), world, snap) && MayRestore(world, tx)
      ensures ok ==> ProgramsRestored(world, snap, snap.program.Keys) && (snap.config.Some? ==> world.config == snap.config)
    {
      hide Invariant, Chronicle, Recorded, EnvironmentStep, RestoreFrame, Begins;
      ok := RestoreProgramsPhase(b, snap);
      ghost var middle := world;
      if ok && snap.config.Some? {
        ok := RestoreConfig(b.config);
        ConfigFrame(middle, world, snap);
        RestoreFrameComposes(old(world), middle, world, snap);
        ChecksSurvive(middle, world, tx);
      }
    }

    method RestoreProgramsPhase(b: Backup, snap: Snapshot) returns (ok: bool)
      requires Valid() && !world.running && In(world, Restoring) && MayRestore(world, tx)
      requires tx.snapshot == Some(snap) && world.backups[tx.job] == b
      modifies `world, `script, `alive, `failures, `moments
      ensures old(Quiet()) ==> Quiet() && failures == old(failures)
      ensures Valid() && old(failures) <= failures && (ok <==> failures == old(failures))
      ensures world == old(world).(programs := world.programs)
      ensures RestoreFrame(old(world), world, snap) && MayRestore(world, tx)
      ensures ok ==> ProgramsRestored(world, snap, snap.program.Keys)
    {
      ok := RestorePrograms(b, snap);
      hide Invariant, Chronicle, Recorded, EnvironmentStep, RestoreFrame, MayRestore, SameUnrecorded, Begins;
      ProgramFrame(old(world), world, snap);
      ChecksSurvive(old(world), world, tx);
    }

    method RestoreConfig(config: Option<Config>) returns (ok: bool)
      requires Valid() && !world.running && In(world, Restoring)
      modifies `world, `script, `alive, `failures, `moments
      ensures old(Quiet()) ==> Quiet() && failures == old(failures)
      ensures Valid() && old(failures) <= failures && (ok <==> failures == old(failures))
      ensures ok ==> world == old(world).(config := config)
      ensures !ok ==> world == old(world) || world == old(world).(config := config)
    {
      ConfigKeeps(world, config);
      hide Invariant, Chronicle, Recorded, EnvironmentStep, Begins;
      ok := Do(world.(config := config));
      Undisturbed(old(world), old(world).(config := config), world, ok);
    }

    /** Writes the partial backup of a job. */
    method WritePartial(job: nat, b: Backup) returns (ok: bool)
      requires Valid() && !world.running
      modifies `world, `script, `alive, `failures, `moments
      ensures old(Quiet()) ==> Quiet() && failures == old(failures)
      ensures Valid() && old(failures) <= failures && (ok <==> failures == old(failures))
      ensures world == old(world).(partials := world.partials)
      ensures ok ==> PartialIs(world, job, b)
    {
      var next := world.(partials := world.partials[job := b]);
      PartialKeeps(world, next.partials);
      hide Invariant, Chronicle, Recorded, EnvironmentStep, Begins;
      ok := Do(next);
      Undisturbed(old(world), next, world, ok);
    }

    /** The DATA part of backup: takes inventory and copies it, each file compared with its hash. */
    method BackupData(job: nat, location: nat) returns (ok: bool)
      requires Valid() && !world.running && In(world, Preparing) && PartialIs(world, job, EMPTY) && location in world.data
      modifies `world, `script, `alive, `failures, `moments
      ensures old(Quiet()) ==> Quiet() && failures == old(failures)
      ensures Valid() && old(failures) <= failures
      ensures world == old(world).(partials := world.partials)
      ensures ok ==> PartialIs(world, job, EMPTY.(files := world.data[location].files, dirs := world.data[location].dirs))
      ensures failures == old(failures) ==> ok
    {
      PreparingTrees(world, location);
      hide Invariant, Chronicle, Recorded, EnvironmentStep, Begins;
      ok := QuietProbe();
      if ok {
        var tree := world.data[location];
        ok := CopyInventory(tree.files, tree.files, tree.dirs, ToPartial(job));
      }
    }

    /** The program part of backup: a missing update.exe is passed over, a missing main program is an error. */
    method BackupPrograms(job: nat, b: Backup) returns (ok: bool)
      requires Valid() && !world.running && PartialIs(world, job, b) && b.program == map[]
      modifies `world, `script, `alive, `failures, `moments
      ensures old(Quiet()) ==> Quiet() && failures == old(failures)
      ensures Valid() && old(failures) <= failures
      ensures world == old(world).(partials := world.partials)
      ensures ok ==> PartialIs(world, job, b.(program := world.programs))
      ensures failures == old(failures) && Main in world.programs ==> ok
    {
      if Main !in world.programs {
        return false;
      }
      BothNames(world.programs);
      hide Invariant, Chronicle, Recorded, EnvironmentStep, Begins;
      var program := map[Main := world.programs[Main]];
      ok := WritePartial(job, b.(program := program));
      if ok && Updater in world.programs {
        ok := WritePartial(job, b.(program := program[Updater := world.programs[Updater]]));
      }
    }

    /** Makes the partial directory and says whose it is. */
    method BeginPartial(job: nat) returns (ok: bool)
      requires Valid() && !world.running
      modifies `world, `script, `alive, `failures, `moments
      ensures old(Quiet()) ==> Quiet() && failures == old(failures)
      ensures Valid() && old(failures) <= failures
      ensures world == old(world).(partials := world.partials)
      ensures ok ==> PartialIs(world, job, EMPTY) && job !in old(world).partials
      ensures failures == old(failures) && job !in old(world).partials ==> ok
    {
      hide Invariant, Chronicle, Recorded, EnvironmentStep, Begins;
      ok := QuietProbe();
      if !ok || job in world.partials {
        return false;
      }
      ok := WritePartial(job, EMPTY);
      if ok {
        ok := QuietProbe();
      }
    }

    /** Everything backup copies, in order; the partial ends up holding what the snapshot says. */
    method CopyEverything(job: nat, location: nat) returns (ok: bool, snap: Snapshot)
      requires Valid() && !world.running && In(world, Preparing)
      modifies `world, `script, `alive, `failures, `moments
      ensures old(Quiet()) ==> Quiet() && failures == old(failures)
      ensures Valid() && old(failures) <= failures
      ensures world == old(world).(partials := world.partials)
      ensures ok ==> SnapshotOf(world, snap, job, location) && PartialIs(world, job, BackupOf(snap)) && snap.size == snapshotSize
      ensures ok ==> job !in old(world).partials
      ensures failures == old(failures) && Main in world.programs && job !in old(world).partials ==> ok
    {
      hide Invariant, Chronicle, Recorded, EnvironmentStep, Begins;
      snap := Snapshot(job, location, 0, location in world.data, map[], {}, world.programs, world.config, snapshotSize);
      if snap.existed {
        var tree := world.data[location];
        snap := snap.(identity := tree.identity, files := tree.files, dirs := tree.dirs);
      }
      assert SnapshotOf(world, snap, job, location);
      ok := CopySnapshot(job, location, snap);
    }

    method CopySnapshot(job: nat, location: nat, snap: Snapshot) returns (ok: bool)
      requires Valid() && !world.running && In(world, Preparing) && SnapshotOf(world, snap, job, location)
      modifies `world, `script, `alive, `failures, `moments
      ensures old(Quiet()) ==> Quiet() && failures == old(failures)
      ensures Valid() && old(failures) <= failures
      ensures world == old(world).(partials := world.partials)
      ensures ok ==> PartialIs(world, job, BackupOf(snap)) && job !in old(world).partials
      ensures failures == old(failures) && Main in world.programs && job !in old(world).partials ==> ok
    {
      hide Invariant, Chronicle, Recorded, EnvironmentStep, PartialIs, Begins;
      ok := BeginPartial(job);
      if ok && snap.existed {
        ok := BackupData(job, location);
      }
      if ok {
        ok := CopyRest(job, snap);
      }
    }

    /** Programs, configuration and the snapshot itself. */
    method CopyRest(job: nat, snap: Snapshot) returns (ok: bool)
      requires Valid() && !world.running && PartialIs(world, job, EMPTY.(files := snap.files, dirs := snap.dirs))
      requires snap.program == world.programs && snap.config == world.config
      modifies `world, `script, `alive, `failures, `moments
      ensures old(Quiet()) ==> Quiet() && failures == old(failures)
      ensures Valid() && old(failures) <= failures
      ensures world == old(world).(partials := world.partials)
      ensures ok ==> PartialIs(world, job, BackupOf(snap))
      ensures failures == old(failures) && Main in world.programs ==> ok
    {
      hide Invariant, Chronicle, Recorded, EnvironmentStep, PartialIs, Begins;
      ok := BackupPrograms(job, EMPTY.(files := snap.files, dirs := snap.dirs));
      if ok {
        assert EMPTY.(files := snap.files, dirs := snap.dirs, program := world.programs) == WithoutConfig(snap);
        ok := FinishBackup(job, snap);
      }
    }

    /** The configuration, if there is one, and snapshot.json, the last file of a backup. */
    method FinishBackup(job: nat, snap: Snapshot) returns (ok: bool)
      requires Valid() && !world.running && PartialIs(world, job, WithoutConfig(snap)) && snap.config == world.config
      modifies `world, `script, `alive, `failures, `moments
      ensures old(Quiet()) ==> Quiet() && failures == old(failures)
      ensures Valid() && old(failures) <= failures && (ok <==> failures == old(failures))
      ensures world == old(world).(partials := world.partials)
      ensures ok ==> PartialIs(world, job, BackupOf(snap))
    {
      hide Invariant, Chronicle, Recorded, EnvironmentStep, Begins;
      ok := true;
      if world.config.Some? {
        ok := WritePartial(job, world.partials[job].(config := world.config));
      }
      if ok {
        ok := WritePartial(job, world.partials[job].(snapshot := Some(snap)));
      }
    }

    /**
      backup: a partial directory filled with DATA, programs and configuration, renamed when it is
      complete, and only then recorded. Nothing but backups and the transaction changes.
    */
    method BackUp(location: nat) returns (ok: bool)
      requires Valid() && !world.running && In(world, Preparing) && world.tx == Some(tx)
      requires world.barrier == Installing && world.inflight == 0 && world.programs == world.before
      modifies `world, `script, `alive, `failures, `moments, `tx
      ensures old(Quiet()) ==> Quiet() && failures == old(failures)
      ensures Valid() && old(failures) <= failures && !world.running
      ensures tx.job == old(tx).job && tx.manifest == old(tx).manifest
      ensures BackupFrame(old(world), world) && world.jobs <= old(world).jobs + {tx.job}
      ensures world.tx == old(world).tx || (world.tx == Some(tx) && tx.state == BackedUp)
      ensures ok ==> world.tx == Some(tx) && tx.state == BackedUp && SnapshotOf(old(world), tx.snapshot.value, tx.job, location)
      ensures ok ==> tx.snapshot.value.size == snapshotSize && tx.phase == old(tx).phase && tx.rest == old(tx).rest
      ensures ok ==> old(tx).job !in old(world).partials && old(tx).job !in old(world).backups
      ensures failures == old(failures) && Main in world.programs ==>
        ok || old(tx).job in old(world).partials || old(tx).job in old(world).backups
    {
      hide Invariant, Chronicle, Recorded, EnvironmentStep, SnapshotHolds, Covers, WellFormed, Begins;
      var snap;
      ok, snap := CopyEverything(tx.job, location);
      if ok {
        ok := RecordBackup(location, snap);
      }
    }

    /** The end of backup: the partial gets its final name, and the transaction its snapshot. */
    method RecordBackup(location: nat, snap: Snapshot) returns (ok: bool)
      requires Valid() && !world.running && In(world, Preparing) && world.tx == Some(tx)
      requires world.barrier == Installing && world.inflight == 0 && world.programs == world.before
      requires SnapshotOf(world, snap, tx.job, location) && PartialIs(world, tx.job, BackupOf(snap))
      modifies `world, `script, `alive, `failures, `moments, `tx
      ensures old(Quiet()) ==> Quiet() && failures == old(failures)
      ensures Valid() && old(failures) <= failures && !world.running
      ensures tx.job == old(tx).job && tx.manifest == old(tx).manifest
      ensures BackupFrame(old(world), world) && world.jobs <= old(world).jobs + {tx.job}
      ensures world.tx == old(world).tx || (world.tx == Some(tx) && tx.state == BackedUp)
      ensures ok ==> world.tx == Some(tx) && tx == old(tx).(state := BackedUp, snapshot := Some(snap))
      ensures ok ==> tx.job !in old(world).backups
      ensures failures == old(failures) ==> ok || tx.job in old(world).backups
    {
      tx := tx.(snapshot := Some(snap), state := BackedUp);
      RecordSteps(world, tx, snap, location);
      hide Invariant, Chronicle, Recorded, EnvironmentStep, SnapshotOf, MaySave, BackupFrame, Saved, Renamed, Begins;
      if tx.job in world.backups {
        return false;
      }
      ok := RenamePartial(tx.job);
      if ok {
        RecordedMaySave(world, tx, snap, location);
        ok := SaveQuietly();
      }
    }

    method RenamePartial(job: nat) returns (ok: bool)
      requires Valid() && !world.running && !Pending(world) && job in world.partials
      modifies `world, `script, `alive, `failures, `moments
      ensures old(Quiet()) ==> Quiet() && failures == old(failures)
      ensures Valid() && old(failures) <= failures && (ok <==> failures == old(failures))
      ensures ok ==> world == Renamed(old(world), job)
      ensures !ok ==> world == old(world) || world == Renamed(old(world), job)
    {
      var next := Renamed(world, job);
      BackupsKeep(world, next.backups, world.lost);
      PartialKeeps(world.(backups := next.backups), next.partials);
      hide Invariant, Chronicle, Recorded, EnvironmentStep, Begins;
      ok := Do(next);
      Undisturbed(old(world), next, world, ok);
    }

    /** services.stop: waits until the program and its writes are gone. */
    method StopServices() returns (ok: bool)
      requires Valid()
      modifies `world, `script, `alive, `failures, `moments
      ensures old(Quiet()) ==> Quiet() && failures == old(failures)
      ensures Valid() && old(failures) <= failures && (ok <==> failures == old(failures))
      ensures SameRecords(old(world), world) && Framed(old(world), world)
      ensures ok ==> world == Stopped(old(world))
      ensures ok ==> old(alive) && alive
      ensures old(alive) ==> script == Rest(old(script), 1) && (ok <==> Begins(old(script), 1))
      ensures !old(world).running ==> world == old(world)
    {
      StopKeeps(world);
      if !world.running {
        StoppedIsIdle(world);
      }
      ok := Do(Stopped(world));
    }

    /** services.start. Success means that the program passed its start check, which does not look at DATA. */
    method StartServices() returns (ok: bool)
      requires Valid()
      modifies `world, `script, `alive, `failures, `moments, `launched
      ensures old(Quiet()) ==> Quiet() && failures == old(failures)
      ensures old(Quiet()) ==> world == Started(old(world))
      ensures Valid() && old(failures) <= failures && (ok <==> failures == old(failures))
      ensures SameRecords(old(world), world) && Framed(old(world), world)
      ensures ok ==> Launched(old(world), world, true) && launched == Some(world)
    {
      StartedLaunched(world);
      hide Invariant, Chronicle, Recorded, Launched, SameRecords, Framed, Started, Begins;
      var outcome, after := NextEvent(Started(world));
      ok := LaunchAs(outcome, after);
    }

    /** A launch that is not possible as the script has it is a failed one with nothing changed. */
    method LaunchAs(outcome: Outcome, after: World) returns (ok: bool)
      requires Valid() && SameRecords(world, world) && Framed(world, world)
      modifies `world, `alive, `failures, `moments, `launched
      ensures Valid() && SameRecords(old(world), world) && Framed(old(world), world)
      ensures ok <==> old(alive) && outcome.Succeeds? && Launched(old(world), after, true)
      ensures ok ==> alive && failures == old(failures) && world == after && launched == Some(world)
      ensures !ok ==> failures == old(failures) + 1
      ensures !ok && old(alive) ==> world == if Launched(old(world), after, false) then after else old(world)
      ensures alive <==> old(alive) && (ok || !outcome.Crashes?)
      ensures !old(alive) ==> world == old(world)
    {
      hide Invariant, Chronicle, Recorded, Launched, SameRecords, Framed, Begins;
      ok := alive && outcome.Succeeds? && Launched(world, after, true);
      if ok {
        Launch(after, true);
        MarkLaunched();
        return;
      }
      if alive && Launched(world, after, false) {
        Launch(after, false);
      }
      alive, failures := alive && !outcome.Crashes?, failures + 1;
    }

    method NextEvent(undisturbed: World) returns (outcome: Outcome, after: World)
      modifies `script
      ensures old(script) == [] ==> script == [] && outcome == Succeeds && after == undisturbed
      ensures old(script) != [] ==> script == old(script)[1..] && Event(outcome, after) == old(script)[0]
    {
      outcome, after := Succeeds, undisturbed;
      if script != [] {
        outcome, after := script[0].outcome, script[0].world;
        script := script[1..];
      }
    }

    method Launch(after: World, ok: bool)
      requires Valid() && Launched(world, after, ok)
      modifies `world, `moments
      ensures Valid() && world == after && SameRecords(old(world), world) && Framed(old(world), world)
    {
      LaunchedFacts(world, after, ok);
      hide Invariant, Chronicle, Recorded, Launched, SameRecords, Framed, Begins;
      Move(after);
    }

    /** barrier(tx, "verified"). */
    method OpenBarrier() returns (ok: bool)
      requires Valid() && world.tx.Some? && !Pending(world)
      modifies `world, `script, `alive, `failures, `moments
      ensures old(Quiet()) ==> Quiet() && failures == old(failures)
      ensures Valid() && old(failures) <= failures && (ok <==> failures == old(failures))
      ensures world.tx == old(world).tx && world.programs == old(world).programs
      ensures world.before == old(world).before && world.jobs == old(world).jobs
      ensures ok ==> world.barrier == Cleared
      ensures world.barrier == Cleared || world.barrier == old(world).barrier
    {
      OpenKeeps(world);
      hide Invariant, Chronicle, Recorded, EnvironmentStep, Begins;
      ok := Do(world.(barrier := Cleared));
      StepFramed(old(world), old(world).(barrier := Cleared), world, ok);
    }

    /** saveTx while the program may be running. */
    method SaveOutcome() returns (ok: bool)
      requires Valid() && MaySave(world, tx) && SettledState(tx.state)
      modifies `world, `script, `alive, `failures, `moments
      ensures old(Quiet()) ==> Quiet() && failures == old(failures)
      ensures Valid() && old(failures) <= failures && (ok <==> failures == old(failures))
      ensures world.barrier == old(world).barrier && world.programs == old(world).programs
      ensures world.before == old(world).before && world.jobs == old(world).jobs + (if world.tx == Some(tx) then {tx.job} else {})
      ensures ok ==> world.tx == Some(tx)
      ensures world.tx == old(world).tx || world.tx == Some(tx)
    {
      ok := SaveTx();
      assert old(world).tx.Some? ==> old(world).jobs + {old(world).tx.value.job} == old(world).jobs;
    }

    /** From a persisted rollback on: starts the old program and lets it work again. */
    method Reopen() returns (ok: bool)
      requires Valid() && In(world, RolledBack)
      modifies `world, `script, `alive, `failures, `moments, `launched
      ensures old(Quiet()) ==> Quiet() && failures == old(failures)
      ensures Valid() && old(failures) <= failures && (ok <==> failures == old(failures))
      ensures ok ==> Settled(world) && WentBack(launched, world, old(world).tx.value.job)
      ensures world.tx == old(world).tx && world.before == old(world).before && world.programs == old(world).programs
    {
      hide Invariant, Chronicle, Recorded, Begins, Admitted, Careful;
      ok := StartServices();
      if ok {
        ok := OpenBarrier();
      }
      GivenUpIsOld(world);
    }

    /** resumeUnchanged: nothing has been replaced, so the old program simply goes on. */
    method ResumeUnchanged()
      requires Valid() && (In(world, Preparing) || In(world, BackedUp)) && world.tx.value.job == tx.job && Kept(world)
      modifies `world, `script, `alive, `failures, `moments, `tx, `launched
      ensures old(Quiet()) ==> Quiet() && failures == old(failures)
      ensures Valid() && old(failures) <= failures
      ensures failures == old(failures) ==> WentBack(launched, world, old(tx).job)
      ensures world.before == old(world).before && world.programs == old(world).programs
    {
      hide Invariant, Chronicle, Recorded, Begins, MaySave, WentBack;
      tx := tx.(state := RolledBack);
      UnreplacedMaySave(world, tx);
      var ok := SaveOutcome();
      if ok {
        ok := Reopen();
      }
    }

    /** The persisted rollback: a durable boundary behind which no restore follows. */
    method SaveRollback() returns (ok: bool)
      requires Valid() && !world.running && MaySave(world, tx) && tx.state == RolledBack
      modifies `world, `script, `alive, `failures, `moments
      ensures old(Quiet()) ==> Quiet() && failures == old(failures)
      ensures Valid() && old(failures) <= failures && (ok <==> failures == old(failures))
      ensures ok ==> world.tx == Some(tx)
      ensures world == old(world) || world.tx == Some(tx)
      ensures world.before == old(world).before
    {
      hide Invariant, Chronicle, Recorded, EnvironmentStep, MaySave, Begins;
      ok := SaveQuietly();
    }

    /** The end of rollback, behind a complete restore. */
    method SettleRollback()
      requires Valid() && !world.running && In(world, Restoring) && Restorable(world, tx) && Restored(world, tx.snapshot.value)
      modifies `world, `script, `alive, `failures, `moments, `tx, `launched
      ensures old(Quiet()) ==> Quiet() && failures == old(failures)
      ensures Valid() && old(failures) <= failures
      ensures failures == old(failures) ==> WentBack(launched, world, old(tx).job)
      ensures world.before == old(world).before
      ensures world == old(world) || !Pending(world)
    {
      hide Invariant, Chronicle, Recorded, EnvironmentStep, MaySave, Restored, OldPrograms, Kept, Begins;
      tx := tx.(state := RolledBack);
      RestoredMaySettle(world, tx, tx.snapshot.value);
      var ok := SaveRollback();
      if ok {
        ok := Reopen();
      }
    }

    /** rollback, behind the stop. */
    method RollBackStopped()
      requires Valid() && !world.running && Restorable(world, tx) && tx.state != Verified && tx.state != Complete
      modifies `world, `script, `alive, `failures, `moments, `tx, `restored, `launched
      ensures old(Quiet()) ==> Quiet() && failures == old(failures)
      ensures Valid() && old(failures) <= failures
      ensures failures == old(failures) && MayRestore(old(world), old(tx)) ==> WentBack(launched, world, old(tx).job)
      ensures !MayRestore(old(world), old(tx)) ==> world == old(world)
      ensures world.before == old(world).before
      ensures MayRestore(old(world), old(tx)) ==> RestoredOrStillTo(old(world), world, restored, old(tx))
    {
      hide Invariant, Chronicle, Recorded, EnvironmentStep, RestoreFrame, MayRestore, Restored, RestoredOrStillTo, Settled, Begins;
      ghost var t := tx;
      var result := Restore();
      MayRestoreSameJob(old(world), tx, t);
      MayRestoreSameJob(world, tx, t);
      if result != Done {
        StillToRestore(old(world), world, restored, t);
        return;
      }
      MarkRestored();
      CompleteRestore(old(world), world, t);
      SettleRollback();
    }

    /** rollback. Cut short, it leaves a restore that can be entered again, or one that is complete. */
    method Rollback()
      requires Valid() && Restorable(world, tx)
      modifies `world, `script, `alive, `failures, `moments, `tx, `restored, `launched
      ensures old(Quiet()) ==> Quiet() && failures == old(failures)
      ensures Valid() && old(failures) <= failures
      ensures failures == old(failures) && !SettledState(old(tx).state) && MayRestore(old(world), old(tx)) ==>
        WentBack(launched, world, old(tx).job)
      ensures !MayRestore(old(world), old(tx)) ==> Pending(world)
      ensures old(tx).state == Verified || old(tx).state == Complete ==> world == old(world)
      ensures world.before == old(world).before
      ensures !old(world).running && MayRestore(old(world), old(tx)) ==>
        RestoredOrStillTo(old(world), world, restored, old(tx))
      ensures MayRestore(old(world), old(tx)) ==> GoneBackOrStillTo(old(world), world, restored, old(tx))
    {
      if tx.state == Verified || tx.state == Complete {
        if MayRestore(world, tx) && !world.running {
          NothingRestoredYet(world, restored, tx);
        }
        return;
      }
      hide Invariant, Chronicle, Recorded, EnvironmentStep, RestoredOrStillTo, Begins;
      StoppedMayRestore(world, tx);
      var ok := StopServices();
      if ok {
        RollBackStopped();
      } else if MayRestore(old(world), tx) && !old(world).running {
        NothingRestoredYet(world, restored, tx);
      }
    }

    /** One step of deleting a backup. */
    method EditBackups(backups: map<nat, Backup>, lost: bool) returns (ok: bool)
      requires Valid() && Invariant(world.(backups := backups, lost := lost))
      modifies `world, `script, `alive, `failures, `moments
      ensures old(Quiet()) ==> Quiet() && failures == old(failures)
      ensures Valid() && old(failures) <= failures && (ok <==> failures == old(failures))
      ensures CleanupFrame(old(world), world)
      ensures old(Quiet()) ==> world == old(world).(backups := backups, lost := lost)
      ensures ok ==> world.backups == backups && world.lost == lost
      ensures (world.backups == backups && world.lost == lost) || (world.backups == old(world).backups && world.lost == old(world).lost)
    {
      hide Invariant, Chronicle, Recorded, EnvironmentStep, Begins;
      ghost var next := world.(backups := backups, lost := lost);
      ok := Do(world.(backups := backups, lost := lost));
      StepFramed(old(world), next, world, ok);
    }

    /** os.RemoveAll on a backup; interrupted, it leaves some remains. */
    method RemoveBackup(job: nat) returns (ok: bool)
      requires Valid() && job in world.backups
      modifies `world, `script, `alive, `failures, `moments
      ensures old(Quiet()) ==> Quiet() && failures == old(failures)
      ensures Valid() && old(failures) <= failures && (ok <==> failures == old(failures))
      ensures CleanupFrame(old(world), world)
      ensures old(Quiet()) ==> Tidied(old(world), world)
      ensures forall j :: j != job ==> (j in world.backups <==> j in old(world).backups)
      ensures forall j :: j != job && j in world.backups ==> world.backups[j] == old(world).backups[j]
      ensures ok ==> job !in world.backups
      ensures world.lost == old(world).lost || world.lost == LostAfter(old(world), job)
    {
      hide Invariant, Chronicle, Recorded, EnvironmentStep, Begins;
      var remains := if script != [] && job in script[0].world.backups then script[0].world.backups[job] else EMPTY;
      RemovalKeeps(world, job, remains);
      ok := EditBackups(world.backups[job := remains], LostAfter(world, job));
      if ok {
        RemovalKeeps(world, job, remains);
        ok := EditBackups(world.backups - {job}, LostAfter(world, job));
      }
    }

    method RemovePartial(job: nat) returns (ok: bool)
      requires Valid()
      modifies `world, `script, `alive, `failures, `moments
      ensures old(Quiet()) ==> Quiet() && failures == old(failures)
      ensures Valid() && old(failures) <= failures && (ok <==> failures == old(failures))
      ensures CleanupFrame(old(world), world) && world.backups == old(world).backups && world.lost == old(world).lost
      ensures old(Quiet()) ==> Tidied(old(world), world)
    {
      PartialKeeps(world, world.partials - {job});
      hide Invariant, Chronicle, Recorded, Begins;
      ok := Do(world.(partials := world.partials - {job}));
    }

    /** The partial backups of earlier runs. */
    method RemovePartials() returns (ok: bool)
      requires Valid()
      modifies `world, `script, `alive, `failures, `moments
      ensures old(Quiet()) ==> Quiet() && failures == old(failures)
      ensures Valid() && old(failures) <= failures && (ok <==> failures == old(failures))
      ensures CleanupFrame(old(world), world) && world.backups == old(world).backups && world.lost == old(world).lost
      ensures old(Quiet()) ==> Tidied(old(world), world)
    {
      hide Invariant, Chronicle, Recorded, EnvironmentStep, Begins;
      var todo := world.partials.Keys;
      while todo != {}
        invariant Valid() && failures == old(failures)
        invariant old(Quiet()) ==> Quiet() && Tidied(old(world), world)
        invariant CleanupFrame(old(world), world) && world.backups == old(world).backups && world.lost == old(world).lost
        decreases |todo|
      {
        var job :| job in todo;
        todo := todo - {job};
        ok := RemovePartial(job);
        if !ok {
          return;
        }
      }
      ok := true;
    }

    /** The backups of earlier jobs, all but the one to keep. */
    method RemoveBackups(keep: Option<nat>) returns (ok: bool)
      requires Valid()
      modifies `world, `script, `alive, `failures, `moments
      ensures old(Quiet()) ==> Quiet() && failures == old(failures)
      ensures Valid() && old(failures) <= failures && (ok <==> failures == old(failures))
      ensures CleanupFrame(old(world), world)
      ensures old(Quiet()) ==> Tidied(old(world), world)
      ensures keep.Some? && keep.value in old(world).backups ==>
        keep.value in world.backups && world.backups[keep.value] == old(world).backups[keep.value]
      ensures keep.Some? && (Pending(old(world)) ==> keep.value == old(world).tx.value.job) ==> world.lost == old(world).lost
      ensures ok ==> forall j: nat :: Some(j) != keep && Recognised(old(world), j) ==> j !in world.backups
    {
      hide Invariant, Chronicle, Recorded, EnvironmentStep, Begins, Tidied;
      var todo := world.backups.Keys;
      CleanupComposes(world, world, world);
      while todo != {}
        invariant Valid() && failures == old(failures) && CleanupFrame(old(world), world)
        invariant old(Quiet()) ==> Quiet() && Tidied(old(world), world)
        invariant todo <= old(world).backups.Keys
        invariant forall j :: j in todo ==> j in world.backups && world.backups[j] == old(world).backups[j]
        invariant keep.Some? && keep.value in old(world).backups ==>
          keep.value in world.backups && world.backups[keep.value] == old(world).backups[keep.value]
        invariant keep.Some? && (Pending(old(world)) ==> keep.value == old(world).tx.value.job) ==> world.lost == old(world).lost
        invariant forall j: nat :: Some(j) != keep && Recognised(old(world), j) && j !in todo ==> j !in world.backups
        decreases |todo|
      {
        var job :| job in todo;
        if Some(job) != keep && Recognised(world, job) {
          ghost var before := world;
          ok := RemoveBackup(job);
          CleanupComposes(old(world), before, world);
          if !ok {
            return;
          }
        }
        todo := todo - {job};
      }
      ok := true;
    }

    /** cleanup. */
    method Cleanup(keep: Option<nat>) returns (ok: bool)
      requires Valid()
      modifies `world, `script, `alive, `failures, `moments
      ensures old(Quiet()) ==> Quiet() && failures == old(failures)
      ensures Valid() && old(failures) <= failures
      ensures CleanupFrame(old(world), world)
      ensures DataPath(old(world).config).None? ==> !ok && world == old(world)
      ensures old(Quiet()) ==> Tidied(old(world), world)
      ensures keep.Some? && keep.value in old(world).backups ==>
        keep.value in world.backups && world.backups[keep.value] == old(world).backups[keep.value]
      ensures keep.Some? && (Pending(old(world)) ==> keep.value == old(world).tx.value.job) ==> world.lost == old(world).lost
      ensures failures == old(failures) && DataPath(old(world).config).Some? ==>
        forall j: nat :: Some(j) != keep && Recognised(old(world), j) ==> j !in world.backups
    {
      hide Invariant, Chronicle, Recorded, EnvironmentStep, Begins;
      if DataPath(world.config).None? {
        return false;
      }
      ok := RemovePartials();
      if ok {
        ok := RemoveBackups(keep);
      }
    }

    /** commit. */
    method Commit() returns (ok: bool)
      requires Valid() && (In(world, Verified) || In(world, Complete)) && world.tx == Some(tx)
      modifies `world, `script, `alive, `failures, `moments, `tx
      ensures old(Quiet()) ==> Quiet() && failures == old(failures)
      ensures Valid() && old(failures) <= failures
      ensures ok ==> world.tx == Some(old(tx).(state := Complete)) && Open(world)
      ensures failures == old(failures) ==> ok
      ensures world.programs == old(world).programs
      ensures world.tx == old(world).tx || world.tx == Some(old(tx).(state := Complete))
    {
      hide Invariant, Chronicle, Recorded, Begins;
      ok := OpenBarrier();
      if ok {
        ok := Probe();
      }
      if !ok {
        return;
      }
      tx := tx.(state := Complete);
      ok := SaveOutcome();
      if !ok {
        return;
      }
      var cleaned := Cleanup(Some(tx.job));
      ok := Probe();
    }

    /** recoverPending, behind the reading of the transaction. */
    method Resume() returns (handled: bool)
      requires Valid() && world.tx == Some(tx)
      modifies `world, `script, `alive, `failures, `moments, `tx, `restored, `launched
      ensures old(Quiet()) ==> Quiet() && failures == old(failures)
      ensures Valid() && old(failures) <= failures
      ensures handled <==> !Settled(old(world))
      ensures !handled ==> world == old(world) && failures == old(failures) && !Pending(world) && Open(world)
      ensures failures == old(failures) && (Pending(old(world)) ==> MayRestore(old(world), old(tx))) ==> Settled(world)
      ensures Pending(old(world)) && !old(world).running && MayRestore(old(world), old(tx)) ==>
        RestoredOrStillTo(old(world), world, restored, old(tx))
    {
      hide Invariant, Chronicle, Recorded, EnvironmentStep, MayRestore, RestoredOrStillTo, Begins;
      var ok;
      match tx.state {
        case Complete =>
          CompleteIsOpen(world);
          handled := false;
        case Verified =>
          handled := true;
          ok := Commit();
        case RolledBack =>
          if Open(world) {
            return false;
          }
          handled := true;
          ok := Reopen();
          if ok {
            ok := Probe();
          }
        case Preparing =>
          handled := true;
          KeptUnlessPending(world);
          ResumeUnchanged();
        case _ =>
          handled := true;
          PendingSnapshot(world);
          Rollback();
      }
    }

    /**
      recoverPending: what is done about a transaction that an earlier run left behind. `seen` is
      the world by the time the transaction has been read; a program may still be at work in it.
    */
    method RecoverPending() returns (handled: bool)
      requires Valid()
      modifies `world, `script, `alive, `failures, `moments, `tx, `seen, `seenAt, `restored, `launched
      ensures old(Quiet()) ==> Quiet() && failures == old(failures)
      ensures Valid() && old(failures) <= failures
      ensures EnvironmentStep(old(world), seen) && (old(Quiet()) ==> seen == old(world))
      ensures |old(moments)| - 1 <= seenAt <= |old(moments)| + 1
      ensures !handled ==> world == seen && !Pending(world) && Open(world) && world.jobs == old(world).jobs
      ensures handled <==> failures > old(failures) || !Readable(seen) || Unfinished(seen)
      ensures failures == old(failures) && Recoverable(seen) ==> Settled(world)
      ensures failures == old(failures) && !Readable(seen) ==> world == seen
      ensures Pending(old(world)) && !old(world).running && MayRestore(old(world), old(world).tx.value) ==>
        RestoredOrStillTo(old(world), world, restored, old(world).tx.value)
    {
      hide Invariant, Chronicle, Recorded, MayRestore, RestoredOrStillTo, Careful, Admitted, Begins;
      if Pending(world) && !world.running && MayRestore(world, world.tx.value) {
        NothingRestoredYet(world, restored, world.tx.value);
      }
      var ok := Probe();
      MarkRead();
      hide EnvironmentStep;
      if !ok || !Readable(world) {
        return true;
      }
      if world.tx.None? {
        AbsentIsOpen(world);
        return world.barrier == Installing;
      }
      tx := world.tx.value;
      handled := Resume();
    }

    /**
      Interrupting restore anywhere, any number of times, and entering it again through recovery
      changes nothing about its result: once the transaction is no longer pending, a restore has
      ended in exactly the DATA, programs and configuration that one uninterrupted restore of the
      world at the beginning ends in. Each run has its own failures, or a crash, in its script. Once
      one is undisturbed, a restore has ended, unless the transaction may be too long to be read.
    */
    method RecoverRepeatedly(scripts: seq<seq<Event>>)
      requires Valid() && Pending(world) && !world.running && MayRestore(world, world.tx.value)
      modifies `world, `script, `alive, `failures, `moments, `tx, `seen, `seenAt, `restored, `launched
      ensures Valid() && RestoredOrStillTo(old(world), world, restored, old(world).tx.value)
      ensures scripts != [] && scripts[|scripts| - 1] == [] && AlwaysReadable(old(world).tx.value) ==> !Pending(world)
    {
      hide Invariant, Chronicle, Recorded, EnvironmentStep, RestoredOrStillTo, MayRestore, Begins;
      var k := 0;
      NothingRestoredYet(world, restored, world.tx.value);
      while k < |scripts| && Pending(world)
        invariant k <= |scripts| && Valid() && RestoredOrStillTo(old(world), world, restored, old(world).tx.value)
        invariant 0 < k == |scripts| && scripts[k - 1] == [] && AlwaysReadable(old(world).tx.value) ==> !Pending(world)
      {
        script, alive := scripts[k], true;
        ghost var before := world;
        OutstandingFacts(old(world), world, restored, old(world).tx.value);
        SizeOfTheSameJob(before, old(world).tx.value);
        var handled := RecoverPending();
        AgainIsTheSame(old(world), before, world, restored, old(world).tx.value, before.tx.value);
        k := k + 1;
      }
    }

    /** The first two durable steps of install: the transaction, then the barrier. */
    method Begin(job: nat, manifest: map<Name, Bytes>) returns (ok: bool)
      requires Valid() && !Pending(world) && Open(world) && job !in world.jobs
      modifies `world, `script, `alive, `failures, `moments, `tx
      ensures old(Quiet()) ==> Quiet() && failures == old(failures)
      ensures Valid() && old(failures) <= failures
      ensures tx == Transaction(job, Preparing, manifest, None, Untouched, transactionRest)
      ensures ok ==> world.tx == Some(tx) && world.barrier == Installing && world.programs == world.before && !world.lost
      ensures ok <==> failures == old(failures)
      ensures world.jobs <= old(world).jobs + {job}
      ensures old(Quiet()) ==> SameBusiness(old(world), world)
      ensures world.programs == old(world).programs
      ensures world.partials == old(world).partials && world.backups == old(world).backups
      ensures world.tx == old(world).tx || world.tx == Some(tx)
      ensures ok ==> old(alive) && alive && script == Rest(old(script), 2)
      ensures old(alive) ==> (ok <==> Begins(old(script), 2))
    {
      hide Invariant, Chronicle, Recorded, EnvironmentStep, MaySave, Begins, Rest;
      tx := Transaction(job, Preparing, manifest, None, Untouched, transactionRest);
      MayBegin(world, tx);
      BeginsStepwise(script, 1, 1);
      ok := SaveFirst();
      if ok {
        ok := CloseBarrier();
      }
    }

    method SaveFirst() returns (ok: bool)
      requires Valid() && MaySave(world, tx) && tx.state == Preparing
      modifies `world, `script, `alive, `failures, `moments
      ensures old(Quiet()) ==> Quiet() && failures == old(failures)
      ensures Valid() && old(failures) <= failures && (ok <==> failures == old(failures))
      ensures world.jobs <= old(world).jobs + {tx.job}
      ensures ok ==> world.tx == Some(tx) && world.programs == world.before && !world.lost
      ensures world.programs == old(world).programs
      ensures world.partials == old(world).partials && world.backups == old(world).backups
      ensures world.tx == old(world).tx || world.tx == Some(tx)
      ensures old(Quiet()) ==> SameBusiness(old(world), world)
      ensures ok ==> old(alive) && alive
      ensures old(alive) ==> script == Rest(old(script), 1) && (ok <==> Begins(old(script), 1))
    {
      hide Invariant, Chronicle, Recorded, EnvironmentStep, MaySave, Begins;
      ok := SaveTx();
      StepFramed(old(world), Saved(old(world), tx), world, ok);
    }

    /** barrier(tx, "installing"). */
    method CloseBarrier() returns (ok: bool)
      requires Valid() && In(world, Preparing)
      modifies `world, `script, `alive, `failures, `moments
      ensures old(Quiet()) ==> Quiet() && failures == old(failures)
      ensures Valid() && old(failures) <= failures && (ok <==> failures == old(failures))
      ensures Framed(old(world).(barrier := world.barrier), world)
      ensures ok ==> world.barrier == Installing
      ensures old(Quiet()) ==> SameBusiness(old(world), world)
      ensures ok ==> old(alive) && alive
      ensures old(alive) ==> script == Rest(old(script), 1) && (ok <==> Begins(old(script), 1))
    {
      CloseKeeps(world);
      hide Invariant, Chronicle, Recorded, EnvironmentStep, Begins;
      ok := Do(world.(barrier := Installing));
      StepFramed(old(world), old(world).(barrier := Installing), world, ok);
    }

    /**
      install. The first three steps are the transaction, the barrier and the report on progress; if
      one of them fails, everything is left to the recovery by the next run.
    */
    method Install(job: nat, manifest: map<Name, Bytes>, stage: map<Name, Bytes>) returns (ok: bool)
      requires Valid() && !Pending(world) && Open(world) && job !in world.jobs && manifest.Keys == {Main, Updater}
      modifies `world, `script, `alive, `failures, `moments, `tx, `restored, `launched, `fate
      ensures old(Quiet()) ==> Quiet() && failures == old(failures)
      ensures old(Quiet()) && Ready(old(world), job, manifest, stage) ==> ok
      ensures Valid() && old(failures) <= failures
      ensures ok ==> Installed(world, job, manifest) && fate.Proven?
      ensures fate == NotStopped ==> world.programs == old(world).programs
      ensures fate != NotStopped ==> Explained(
        fate, StartOf(old(world), job, old(failures)), world, failures, launched, restored, job, manifest)
      ensures old(alive) && DataPath(old(world).config).Some? && Staged(manifest, stage) ==>
        (fate == NotStopped <==> !Begins(old(script), 4))
      ensures fate == NotStopped && !(old(alive) && Begins(old(script), 3)) ==>
        world.tx == old(world).tx || In(world, Preparing)
      ensures fate == NotStopped && failures == old(failures) + 1 && old(alive) && Begins(old(script), 3) ==>
        WithdrawnUnstopped(world, job)
    {
      hide Invariant, Chronicle, Recorded, EnvironmentStep, Explained, Begins, Rest, Passed, WithdrawnUnstopped, Installed;
      MarkFate(NotStopped);
      BeginsStepwise(script, 3, 1);
      var location := DataPath(world.config);
      if location.None? || !Staged(manifest, stage) {
        return false;
      }
      ok := BeginAndReport(job, manifest);
      if ok {
        ok := InstallBegun(location.value, stage);
      }
    }

    /** The first three steps of install: the transaction, the barrier, and the report on progress. */
    method BeginAndReport(job: nat, manifest: map<Name, Bytes>) returns (ok: bool)
      requires Valid() && !Pending(world) && Open(world) && job !in world.jobs
      modifies `world, `script, `alive, `failures, `moments, `tx
      ensures old(Quiet()) ==> Quiet() && failures == old(failures) && SameBusiness(old(world), world)
      ensures Valid() && old(failures) <= failures && (ok <==> failures == old(failures))
      ensures tx == Transaction(job, Preparing, manifest, None, Untouched, transactionRest)
      ensures ok ==> world.tx == Some(tx) && world.barrier == Installing && world.programs == world.before
      ensures world.programs == old(world).programs
      ensures world.partials == old(world).partials && world.backups == old(world).backups
      ensures world.tx == old(world).tx || world.tx == Some(tx)
      ensures ok ==> old(alive) && alive && script == Rest(old(script), 3)
      ensures old(alive) ==> (ok <==> Begins(old(script), 3))
    {
      hide Invariant, Chronicle, Recorded, EnvironmentStep, Begins, Rest;
      BeginsStepwise(script, 2, 1);
      ok := Begin(job, manifest);
      if ok {
        ok := Probe();
      }
    }

    /** install behind the closed barrier, up to the point where the program has stopped. */
    method InstallBegun(location: nat, stage: map<Name, Bytes>) returns (ok: bool)
      requires Valid() && In(world, Preparing) && world.tx == Some(tx) && tx.manifest.Keys == {Main, Updater}
      requires Staged(tx.manifest, stage) && world.barrier == Installing && world.programs == world.before
      modifies `world, `script, `alive, `failures, `moments, `tx, `restored, `launched, `fate
      ensures old(Quiet()) ==> Quiet() && failures == old(failures)
      ensures old(Quiet()) && Ready(old(world), old(tx).job, old(tx).manifest, stage) ==> ok
      ensures Valid() && old(failures) <= failures
      ensures ok ==> Installed(world, old(tx).job, old(tx).manifest) && fate.Proven?
      ensures old(alive) ==> (fate == NotStopped <==> !Begins(old(script), 1))
      ensures fate == NotStopped ==> world.programs == old(world).programs
      ensures fate == NotStopped && failures == old(failures) + 1 ==> WithdrawnUnstopped(world, old(tx).job)
      ensures fate != NotStopped ==> Explained(
        fate, StartOf(old(world), old(tx).job, old(failures)), world, failures, launched, restored, old(tx).job, old(tx).manifest)
    {
      hide Invariant, Chronicle, Recorded, EnvironmentStep, Explained, Begins, Kept, OldPrograms, Installed, WithdrawnUnstopped;
      ok := StopServices();
      if !ok {
        MarkFate(NotStopped);
        WithdrawUnstopped();
        return;
      }
      ok := InstallStopped(location, stage);
    }

    /** The program could not be stopped: it may write again, and the transaction is given up. */
    method WithdrawUnstopped()
      requires Valid() && In(world, Preparing) && world.tx.value.job == tx.job
      modifies `world, `script, `alive, `failures, `moments, `tx
      ensures old(Quiet()) ==> Quiet() && failures == old(failures)
      ensures Valid() && old(failures) <= failures
      ensures failures == old(failures) ==> WithdrawnUnstopped(world, old(tx).job)
      ensures world.programs == old(world).programs
    {
      hide Invariant, Chronicle, Recorded, EnvironmentStep, Begins;
      var ok := OpenBarrier();
      tx := tx.(state := RolledBack);
      KeptUnlessPending(world);
      OldInPlace(world);
      ok := SaveOutcome();
    }

    /** install behind the stopped program: backup, replacement, start. */
    method InstallStopped(location: nat, stage: map<Name, Bytes>) returns (ok: bool)
      requires Valid() && !world.running && In(world, Preparing) && world.tx == Some(tx) && tx.manifest.Keys == {Main, Updater}
      requires Staged(tx.manifest, stage)
      requires world.barrier == Installing && world.inflight == 0 && world.programs == world.before
      modifies `world, `script, `alive, `failures, `moments, `tx, `restored, `launched, `fate
      ensures old(Quiet()) ==> Quiet() && failures == old(failures)
      ensures old(Quiet()) && Ready(old(world), old(tx).job, old(tx).manifest, stage) ==> ok
      ensures Valid() && old(failures) <= failures
      ensures ok ==> Installed(world, old(tx).job, old(tx).manifest) && fate.Proven?
      ensures fate != NotStopped
      ensures Explained(
        fate, StartOf(old(world), old(tx).job, old(failures)), world, failures, launched, restored, old(tx).job, old(tx).manifest)
    {
      hide Invariant, Chronicle, Recorded, EnvironmentStep, Kept, Explained, Installed, Begins, Sound;
      ghost var start := StartOf(world, tx.job, failures);
      ok := BackUpOrResume(location);
      if ok {
        ghost var middle := Start(world.before, false, failures);
        ok := InstallBackedUp(stage);
        ExplainedFrom(fate, middle, start, world, failures, launched, restored, old(tx).job, old(tx).manifest);
      }
    }

    /** The backup; without one the old program goes on. */
    method BackUpOrResume(location: nat) returns (ok: bool)
      requires Valid() && !world.running && In(world, Preparing) && world.tx == Some(tx)
      requires world.barrier == Installing && world.inflight == 0 && world.programs == world.before
      modifies `world, `script, `alive, `failures, `moments, `tx, `launched, `fate
      ensures old(Quiet()) ==> Quiet() && failures == old(failures) && (Blocked(old(world), old(tx).job) || ok)
      ensures Valid() && old(failures) <= failures
      ensures ok ==> !world.running && world.tx == Some(tx) && tx.state == BackedUp && tx.snapshot.Some?
      ensures ok ==> Kept(world) && Sound(world, tx.snapshot.value) && world.before == old(world).before
      ensures ok ==> tx.job == old(tx).job && tx.manifest == old(tx).manifest
      ensures !ok ==> fate.Resumed?
      ensures !ok ==> Explained(
        fate, StartOf(old(world), old(tx).job, old(failures)), world, failures, launched, restored, old(tx).job, old(tx).manifest)
    {
      KeptUnlessPending(world);
      hide Invariant, Chronicle, Recorded, EnvironmentStep, Covers, Kept, SnapshotHolds, Explained, WentBack, Begins, Sound, SnapshotOf;
      ghost var start := StartOf(world, tx.job, failures);
      ok := QuietProbe();
      if ok {
        ok := BackUp(location);
      }
      SameDataKept(old(world), world);
      if ok {
        BackedUpSound(old(world), world, tx, location);
        return;
      }
      ResumeInstall(start, tx.job, tx.manifest);
    }

    /** resumeUnchanged, on behalf of an installation that cannot back up. */
    method ResumeInstall(ghost start: Start, ghost job: nat, ghost manifest: map<Name, Bytes>)
      requires Valid() && (In(world, Preparing) || In(world, BackedUp)) && world.tx.value.job == tx.job == job && Kept(world)
      requires start.failed <= failures && (failures == start.failed ==> start.blocked) && world.programs == start.programs
      modifies `world, `script, `alive, `failures, `moments, `tx, `launched, `fate
      ensures old(Quiet()) ==> Quiet() && failures == old(failures)
      ensures Valid() && old(failures) <= failures && fate.Resumed?
      ensures Explained(fate, start, world, failures, launched, restored, job, manifest)
    {
      hide Invariant, Chronicle, Recorded, Explained, WentBack, Kept;
      MarkFate(Resumed(failures));
      ResumeUnchanged();
      ResumedExplained(fate.failed, start, world, failures, launched, restored, job, manifest);
    }

    /** install behind the finished backup. */
    method InstallBackedUp(stage: map<Name, Bytes>) returns (ok: bool)
      requires Valid() && !world.running && world.tx == Some(tx) && tx.state == BackedUp && tx.snapshot.Some?
      requires tx.manifest.Keys == {Main, Updater} && Kept(world) && Staged(tx.manifest, stage)
      modifies `world, `script, `alive, `failures, `moments, `tx, `restored, `launched, `fate
      ensures old(Quiet()) ==> Quiet() && failures == old(failures)
      ensures old(Quiet()) && Sound(old(world), old(tx).snapshot.value) ==> ok
      ensures Valid() && old(failures) <= failures
      ensures ok ==> Installed(world, old(tx).job, old(tx).manifest) && fate.Proven?
      ensures fate.Undone? || fate.Proven?
      ensures var start := Start(old(world).before, false, old(failures));
        Explained(fate, start, world, failures, launched, restored, old(tx).job, old(tx).manifest)
    {
      hide Invariant, Chronicle, Recorded, EnvironmentStep, Kept, Explained, Installed, Begins;
      ghost var start := Start(world.before, false, failures);
      ok := QuietProbe();
      if ok {
        ok := Replace(stage);
      }
      if !ok {
        RollBackInstall(start);
        return;
      }
      SameDataKept(old(world), world);
      StaysSound(old(world), world, tx.snapshot.value);
      ok := StartNew();
      if !ok {
        RollBackInstall(start);
        return;
      }
      MarkFate(Proven(world));
      ghost var looked := world;
      ok := Conclude();
      ProvenExplained(looked, start, world, failures, launched, restored, old(tx).job, old(tx).manifest);
    }

    /** rollback, on behalf of an installation that cannot go on. */
    method RollBackInstall(ghost start: Start)
      requires Valid() && Restorable(world, tx) && !SettledState(tx.state) && world.before == start.programs
      requires start.failed <= failures && (failures == start.failed ==> Reconfigured(world))
      modifies `world, `script, `alive, `failures, `moments, `tx, `restored, `launched, `fate
      ensures old(Quiet()) ==> Quiet() && failures == old(failures)
      ensures Valid() && old(failures) <= failures && fate.Undone?
      ensures Explained(fate, start, world, failures, launched, restored, old(tx).job, old(tx).manifest)
    {
      hide Invariant, Chronicle, Recorded, MayRestore, GoneBackOrStillTo, RestoredOrStillTo, WentBack, Explained, Reconfigured;
      ghost var at, t := world, tx;
      MarkFate(Undone(world, failures));
      Rollback();
      UndoneExplained(at, fate.failed, start, world, failures, launched, restored, t);
    }

    /** Puts the staged programs in place, checking each one on disk. */
    method Replace(stage: map<Name, Bytes>) returns (ok: bool)
      requires Valid() && !world.running && world.tx == Some(tx) && tx.state == BackedUp && tx.snapshot.Some?
      requires tx.manifest.Keys == {Main, Updater}
      modifies `world, `script, `alive, `failures, `moments, `tx
      ensures old(Quiet()) ==> Quiet() && failures == old(failures)
      ensures Valid() && old(failures) <= failures && !world.running
      ensures tx == old(tx).(state := tx.state) && Restorable(world, tx) && !SettledState(tx.state)
      ensures ok ==> world.tx == Some(tx) && tx.state == Starting && NewPrograms(world, tx.manifest)
      ensures failures == old(failures) && Staged(old(tx).manifest, stage) ==> ok
      ensures SameBusiness(old(world), world) && world.before == old(world).before && world.backups == old(world).backups
    {
      hide Invariant, Chronicle, Recorded, EnvironmentStep, Begins;
      ok := SaveState(Replacing);
      if ok {
        ok := ReplaceBoth(stage);
      }
      if ok {
        ok := SaveState(Starting);
      }
    }

    /** saveTx on the way through an installation. */
    method SaveState(state: State) returns (ok: bool)
      requires Valid() && !world.running && MaySave(world, tx.(state := state)) && PendingState(state)
      requires Restorable(world, tx)
      modifies `world, `script, `alive, `failures, `moments, `tx
      ensures old(Quiet()) ==> Quiet() && failures == old(failures)
      ensures Valid() && old(failures) <= failures && !world.running
      ensures tx == old(tx).(state := state) && Restorable(world, tx) && world.programs == old(world).programs
      ensures ok ==> world.tx == Some(tx)
      ensures failures == old(failures) ==> ok
      ensures SameBusiness(old(world), world) && world.before == old(world).before && world.backups == old(world).backups
    {
      hide Invariant, Chronicle, Recorded, EnvironmentStep, MaySave, SnapshotHolds, Kept, Saved, SameBusiness, Begins;
      tx := tx.(state := state);
      SavedOnTheWay(world, tx);
      ok := SaveQuietly();
    }

    method ReplaceBoth(stage: map<Name, Bytes>) returns (ok: bool)
      requires Valid() && !world.running && In(world, Replacing) && tx.manifest.Keys == {Main, Updater}
      modifies `world, `script, `alive, `failures, `moments
      ensures old(Quiet()) ==> Quiet() && failures == old(failures)
      ensures Valid() && old(failures) <= failures && !world.running && world.tx == old(world).tx
      ensures ok ==> NewPrograms(world, tx.manifest)
      ensures failures == old(failures) && Staged(tx.manifest, stage) ==> ok
      ensures SameBusiness(old(world), world) && world.before == old(world).before && world.backups == old(world).backups
    {
      hide Invariant, Chronicle, Recorded, EnvironmentStep, Begins;
      ok := ReplaceOne(Main, stage);
      if ok {
        ok := ReplaceOne(Updater, stage);
      }
      assert forall n :: n in tx.manifest ==> n in {Main, Updater};
    }

    method ReplaceOne(n: Name, stage: map<Name, Bytes>) returns (ok: bool)
      requires Valid() && !world.running && In(world, Replacing) && n in tx.manifest
      modifies `world, `script, `alive, `failures, `moments
      ensures old(Quiet()) ==> Quiet() && failures == old(failures)
      ensures Valid() && old(failures) <= failures && !world.running && world.tx == old(world).tx
      ensures forall k :: k != n && k in old(world).programs ==> k in world.programs && world.programs[k] == old(world).programs[k]
      ensures ok ==> n in world.programs && world.programs[n] == tx.manifest[n]
      ensures failures == old(failures) && n in stage && stage[n] == tx.manifest[n] ==> ok
      ensures SameBusiness(old(world), world) && world.before == old(world).before && world.backups == old(world).backups
    {
      if n !in stage {
        return false;
      }
      hide Invariant, Chronicle, Recorded, EnvironmentStep, Begins;
      ok := CopyProgram(n, stage[n]);
      ok := ok && stage[n] == tx.manifest[n];
    }

    /** Starts the new program behind the closed barrier; it must leave an existing configuration alone. */
    method StartNew() returns (ok: bool)
      requires Valid() && !world.running && Kept(world)
      requires world.tx == Some(tx) && tx.state == Starting && tx.snapshot.Some?
      modifies `world, `script, `alive, `failures, `moments, `launched
      ensures old(Quiet()) ==> Quiet() && failures == old(failures)
      ensures old(Quiet()) && Sound(old(world), tx.snapshot.value) ==> ok
      ensures Valid() && old(failures) <= failures
      ensures world.tx == old(world).tx && world.programs == old(world).programs
      ensures world.before == old(world).before && world.backups == old(world).backups
      ensures ok ==> Kept(world) && launched.Some? && launched.value.running && launched.value.trusted
      ensures ok ==> launched.value.tx == Some(tx) && launched.value.programs == world.programs && Framed(launched.value, world)
      ensures ok ==> !Reconfigured(world)
      ensures failures == old(failures) && !Reconfigured(world) ==> ok
    {
      hide Invariant, Chronicle, Recorded, EnvironmentStep, Launched, Kept, Begins;
      ok := QuietProbe();
      if !ok {
        return;
      }
      ok := StartServices();
      if !ok {
        return;
      }
      StartedKeeps(old(world), world);
      var snap := tx.snapshot.value;
      if snap.config.Some? {
        ghost var started := world;
        ok := Probe();
        WorkingKeeps(started, world);
        ok := ok && world.config == snap.config;
      }
    }

    /** Persists the proof and commits; from here on there is no way back. */
    method Conclude() returns (ok: bool)
      requires Valid() && world.tx == Some(tx) && tx.state == Starting && NewPrograms(world, tx.manifest) && Kept(world)
      modifies `world, `script, `alive, `failures, `moments, `tx
      ensures old(Quiet()) ==> Quiet() && failures == old(failures)
      ensures Valid() && old(failures) <= failures
      ensures failures == old(failures) ==> ok
      ensures world.programs == old(world).programs && Advanced(world, old(tx).job)
      ensures ok ==> Installed(world, old(tx).job, old(tx).manifest)
    {
      hide Invariant, Chronicle, Recorded, Begins;
      tx := tx.(state := Verified);
      ok := SaveOutcome();
      if ok {
        ok := Commit();
      }
    }

    /** No program interferes. */
    ghost predicate Calm()
      reads this
    {
      Quiet() || !world.running
    }

    /**
      How run decides what cleanup keeps: the backup of the transaction, if that can be read. One
      that cannot be read leaves nothing to keep.
    */
    method KeepAndCleanUp() returns (read: bool)
      requires Valid()
      modifies `world, `script, `alive, `failures, `moments
      ensures old(Quiet()) ==> Quiet() && failures == old(failures)
      ensures Valid() && old(failures) <= failures && CleanupFrame(old(world), world)
      ensures old(Quiet()) ==> Tidied(old(world), world)
      ensures read ==> Readable(old(world)) && Survived(old(world), world)
      ensures read && Pending(old(world)) ==> world.lost == old(world).lost
      ensures old(Calm()) && DataPath(old(world).config).Some? && Unnoticed(read, failures - old(failures), old(world)) ==>
        Swept(old(world), world)
      ensures failures == old(failures) && old(Calm()) && Exposed(old(world)) ==>
        DecidedByReading(old(world), world)
    {
      hide Invariant, Chronicle, Recorded, Begins;
      read := Probe();
      read := read && Readable(world);
      var keep := if read && world.tx.Some? then Some(world.tx.value.job) else None;
      var cleaned := Cleanup(keep);
    }

    /** The first half of run: the version, the cleanup, and the release check. */
    method LookForRelease() returns (ok: bool)
      requires Valid()
      modifies `world, `script, `alive, `failures, `moments
      ensures old(Quiet()) ==> Quiet() && failures == old(failures) && ok
      ensures Valid() && old(failures) <= failures && CleanupFrame(old(world), world)
      ensures old(Quiet()) ==> Tidied(old(world), world)
      ensures failures == old(failures) && old(Calm()) && Exposed(old(world)) ==>
        DecidedByReading(old(world), world)
    {
      hide Invariant, Chronicle, Recorded, Careful, Admitted, Begins;
      ok := Probe();
      if !ok {
        return;
      }
      var read := KeepAndCleanUp();
      ok := Probe();
    }

    /** The package is downloaded, checked and unpacked, outside of everything modelled here. */
    method Download() returns (ok: bool)
      requires Valid()
      modifies `world, `script, `alive, `failures, `moments
      ensures old(Quiet()) ==> Quiet() && failures == old(failures) && ok
      ensures Valid() && old(failures) <= failures && CleanupFrame(old(world), world)
      ensures old(Quiet()) ==> Tidied(old(world), world)
    {
      ok := Probe();
    }

    /** run, behind the recovery of an earlier one. */
    method LookAndInstall(apply: bool, job: nat, manifest: map<Name, Bytes>, stage: map<Name, Bytes>, newer: bool) returns (ok: bool)
      requires Valid() && job !in world.jobs && manifest.Keys == {Main, Updater}
      requires apply ==> !Pending(world) && Open(world)
      modifies `world, `script, `alive, `failures, `moments, `tx, `restored, `launched, `fate
      ensures Valid() && old(failures) <= failures
      ensures !apply || !newer || NewPrograms(old(world), manifest) ==> CleanupFrame(old(world), world)
      ensures old(Quiet()) ==> Quiet() && failures == old(failures)
      ensures apply && newer && !NewPrograms(old(world), manifest) && old(Quiet()) && Ready(old(world), job, manifest, stage) ==>
        ok && Installed(world, job, manifest)
      ensures !apply && failures == old(failures) && old(Calm()) && Exposed(old(world)) ==>
        DecidedByReading(old(world), world)
    {
      hide Invariant, Chronicle, Recorded, EnvironmentStep, DecidedByReading, Exposed, Begins, Ready, Installed, Explained;
      ok := LookForRelease();
      if old(Quiet()) {
        TidiedIsReady(old(world), world, job, manifest, stage);
      }
      if !ok || !newer || NewPrograms(world, manifest) || !apply {
        return;
      }
      ghost var found := world;
      ok := Download();
      if old(Quiet()) {
        TidiedIsReady(found, world, job, manifest, stage);
      }
      if ok {
        ok := Install(job, manifest, stage);
      }
    }

    /** run. `newer` is what the release check finds; the job is a new random identifier. */
    method Run(apply: bool, job: nat, manifest: map<Name, Bytes>, stage: map<Name, Bytes>, newer: bool)
      returns (ok: bool)
      requires Valid() && job !in world.jobs && manifest.Keys == {Main, Updater}
      modifies `world, `script, `alive, `failures, `moments, `since, `seen, `seenAt, `restored, `tx, `launched, `fate
      ensures Valid() && old(failures) <= failures && since == old(moments)
      ensures EnvironmentStep(old(world), seen) && (old(Quiet()) ==> seen == old(world))
      ensures |old(moments)| - 1 <= seenAt <= |old(moments)| + 1
      ensures apply && failures == old(failures) && Unfinished(seen) && Recoverable(seen) ==> Settled(world)
      ensures apply && failures == old(failures) && !Readable(seen) ==> world == seen
      ensures old(Quiet()) ==> Quiet() && failures == old(failures)
      ensures !apply ==> CleanupFrame(old(world), world)
      ensures apply && failures == old(failures) && Idle(seen) && (!newer || NewPrograms(seen, manifest)) ==>
        CleanupFrame(seen, world)
      ensures apply && newer && !NewPrograms(seen, manifest) && old(Quiet()) && Idle(seen) && Ready(seen, job, manifest, stage) ==>
        ok && Installed(world, job, manifest)
      ensures !apply && failures == old(failures) && old(Calm()) && Exposed(old(world)) ==>
        DecidedByReading(old(world), world)
    {
      EnvironmentIdles(world);
      BeginRun();
      hide Invariant, Chronicle, Recorded, EnvironmentStep, Recoverable, Survived, Swept, DecidedByReading, Exposed, Readable, Begins, Ready, Installed;
      if apply {
        var handled := RecoverPending();
        if handled {
          return false;
        }
      }
      ok := LookAndInstall(apply, job, manifest, stage, newer);
    }
  }

  /** The snapshot fits into a state file, and transaction.json, which repeats it, does not. */
  predicate Oversized(snapshotSize: nat, transactionRest: nat) {
    snapshotSize <= READ_LIMIT < snapshotSize + transactionRest + StateLength(BackedUp)
  }

  lemma FreshBackupIsGood(w: World, v: World, location: nat)
    requires Invariant(v) && In(v, BackedUp) && v.tx.value.snapshot.Some? && BackupFrame(w, v) && !v.lost
    requires SnapshotOf(w, v.tx.value.snapshot.value, v.tx.value.job, location) && DataPath(w.config) == Some(location)
    requires v.tx.value.snapshot.value.size <= READ_LIMIT
    ensures Exposed(v) && MayRestore(v, v.tx.value)
  {
    KeptBackupMayBeRestored(v);
  }

  /** An installation of `job` that has stopped the program and is about to back up. */
  ghost predicate AboutToBackUp(w: World, job: nat, t: Transaction) {
    && In(w, Preparing) && w.tx == Some(t) && t.job == job && t.phase == Untouched && !w.running
    && w.barrier == Installing && w.inflight == 0 && w.programs == w.before && !w.lost
    && Main in w.programs && job !in w.partials && job !in w.backups && job in w.jobs
  }

  method StopForBackup(w: World, job: nat, manifest: map<Name, Bytes>, snapshotSize: nat, transactionRest: nat) returns (e: Engine)
    requires Invariant(w) && w.tx.None? && Ready(w, job, manifest, manifest) && job !in w.jobs
    ensures fresh(e) && e.Valid() && e.Quiet() && e.failures == 0 && e.since == [w] && e.world.jobs <= w.jobs + {job}
    ensures AboutToBackUp(e.world, job, e.tx) && e.tx.rest == transactionRest && e.snapshotSize == snapshotSize
    ensures DataPath(e.world.config) == DataPath(w.config)
  {
    hide Invariant, Chronicle, EnvironmentStep, Begins, Ready, AboutToBackUp, Stopped, SameBusiness;
    AbsentIsOpen(w);
    e := new Engine(w, [], snapshotSize, transactionRest);
    var ok := e.Begin(job, manifest);
    StoppedIsAboutToBackUp(w, e.world, e.tx, job, manifest);
    ok := e.StopServices();
  }

  lemma StoppedIsAboutToBackUp(w: World, begun: World, t: Transaction, job: nat, manifest: map<Name, Bytes>)
    requires Invariant(begun) && begun.tx == Some(t) && t.job == job && t.state == Preparing && t.phase == Untouched
    requires Ready(w, job, manifest, manifest) && SameBusiness(w, begun) && begun.programs == w.programs == begun.before
    requires begun.partials == w.partials && begun.backups == w.backups && begun.barrier == Installing && !begun.lost
    ensures AboutToBackUp(Stopped(begun), job, t) && DataPath(Stopped(begun).config) == DataPath(w.config)
    ensures Stopped(begun).jobs == begun.jobs
  {
    JobIsKnown(begun);
  }

  lemma JobIsKnown(w: World)
    requires Invariant(w) && w.tx.Some?
    ensures w.tx.value.job in w.jobs
  {
  }

  /** An installation that is cut short right behind its backup. */
  method CutShort(w: World, job: nat, manifest: map<Name, Bytes>, snapshotSize: nat, transactionRest: nat) returns (e: Engine)
    requires Invariant(w) && w.tx.None? && Ready(w, job, manifest, manifest) && job !in w.jobs
    requires snapshotSize <= READ_LIMIT
    ensures fresh(e) && e.Valid() && e.Quiet() && e.failures == 0 && e.since == [w] && e.world.jobs <= w.jobs + {job}
    ensures In(e.world, BackedUp) && e.world.tx.value.job == job && e.world.tx.value.snapshot.Some?
    ensures TransactionSize(e.world.tx.value) == snapshotSize + transactionRest + StateLength(BackedUp)
    ensures Exposed(e.world) && MayRestore(e.world, e.world.tx.value)
  {
    var location := DataPath(w.config).value;
    hide Invariant, Chronicle, EnvironmentStep, Exposed, MayRestore, SnapshotOf, Ready;
    e := StopForBackup(w, job, manifest, snapshotSize, transactionRest);
    ghost var stopped := e.world;
    var ok := e.BackUp(location);
    FreshBackupIsGood(stopped, e.world, location);
  }

  /**
    What can never be recovered automatically. An installation that was cut short right behind its
    backup leaves a pending transaction that could be restored. If its transaction.json is too
    long to be read, the next run that only checks for updates deletes the backup.
  */
  method OversizedTransactionLosesItsBackup(
      w: World, job: nat, other: nat, manifest: map<Name, Bytes>, snapshotSize: nat, transactionRest: nat)
    returns (e: Engine, pending: World)
    requires Invariant(w) && w.tx.None? && Ready(w, job, manifest, manifest) && job !in w.jobs
    requires manifest.Keys == {Main, Updater} && other !in w.jobs && other != job
    requires Oversized(snapshotSize, transactionRest)
    ensures e.Valid() && e.failures == 0 && [w] <= e.moments && pending in e.moments
    ensures Pending(pending) && pending.tx.value.job == job && MayRestore(pending, pending.tx.value)
    ensures e.world.tx == pending.tx && job !in e.world.backups
  {
    hide Invariant, Chronicle, Ready, EnvironmentStep, MayRestore;
    e := CutShort(w, job, manifest, snapshotSize, transactionRest);
    pending := e.world;
    ghost var index := |e.moments| - 1;
    var ok := e.Run(false, other, manifest, manifest, false);
    assert e.moments[index] == pending;
  }

  /** One start of the updater, with what happened to the system since the last one. */
  datatype Launch = Launch(
    interlude: World, script: seq<Event>, apply: bool, job: nat, manifest: map<Name, Bytes>, stage: map<Name, Bytes>,
    newer: bool, snapshotSize: nat, transactionRest: nat)

  /** The launch goes on from `w`. */
  predicate Possible(w: World, l: Launch) {
    Interlude(w, l.interlude) && l.job !in l.interlude.jobs && l.manifest.Keys == {Main, Updater}
  }

  /** There is nothing to finish and something to install. */
  predicate Due(l: Launch) {
    && l.newer && Idle(l.interlude) && !NewPrograms(l.interlude, l.manifest)
    && Ready(l.interlude, l.job, l.manifest, l.stage)
  }

  /**
    The last run began in the world that the launch found and, if undisturbed, has finished what
    others left unfinished, or installed what there was to install.
  */
  ghost predicate RanAfter(since: seq<World>, w: World, l: Launch) {
    && since != [] && since[|since| - 1] == l.interlude
    && (l.script == [] && l.apply && Unfinished(l.interlude) && Recoverable(l.interlude) ==> Settled(w))
    && (l.script == [] && l.apply && Due(l) ==> Installed(w, l.job, l.manifest))
  }

  /** A launch has led to a run, or it did not go on from the world there was. */
  ghost predicate Accounted(moments: seq<World>, since: seq<World>, w: World, l: Launch) {
    RanAfter(since, w, l) || exists k :: 0 <= k < |moments| && !Possible(moments[k], l)
  }

  method LaunchOnce(engine: Engine, l: Launch)
    requires engine.Valid()
    modifies engine
    ensures engine.Valid() && old(engine.moments) <= engine.moments
    ensures Accounted(engine.moments, engine.since, engine.world, l)
  {
    hide Invariant, Chronicle, Interlude, Framed, Unfinished, Recoverable, Idle, Ready, Installed, NewPrograms, Settled;
    assert engine.moments[|engine.moments| - 1] == engine.world;
    if Possible(engine.world, l) {
      InterludeKeeps(engine.world, l.interlude);
      engine.Move(l.interlude);
      engine.script, engine.alive := l.script, true;
      engine.snapshotSize, engine.transactionRest := l.snapshotSize, l.transactionRest;
      var ok := engine.Run(l.apply, l.job, l.manifest, l.stage, l.newer);
    }
  }

  /**
    Any number of runs of the updater, each cut short wherever its script says, with programs
    started, stopped and working in between. Every moment of all of them is recorded, and
    `EveryMomentIsSafe` and `NoRestoreAfterTheOutcome` speak about each. However often it was cut
    short, one undisturbed run settles what can be recovered.
  */
  method Lifetime(engine: Engine, launches: seq<Launch>)
    requires engine.Valid()
    modifies engine
    ensures engine.Valid() && old(engine.moments) <= engine.moments
    ensures forall k :: 0 <= k < |engine.moments| ==> Safe(engine.moments[k])
    ensures launches != [] ==> Accounted(engine.moments, engine.since, engine.world, launches[|launches| - 1])
  {
    hide Invariant, Chronicle, Safe, Accounted;
    for k := 0 to |launches|
      invariant engine.Valid() && old(engine.moments) <= engine.moments
      invariant k > 0 ==> Accounted(engine.moments, engine.since, engine.world, launches[k - 1])
    {
      LaunchOnce(engine, launches[k]);
    }
    forall k | 0 <= k < |engine.moments| ensures Safe(engine.moments[k]) {
      EveryMomentIsSafe(engine.moments, engine.world, k);
    }
  }
}
