/**
  Publishing file versions into one directory, backend/app/features/files.py.

  The first half is about names: what a published file and a reservation are called, and the loop
  that finds the next version among the names. The second half is the publishing loop itself, run
  by any number of publishers at once, as a state machine whose steps are single directory
  operations. A publisher is known by the identity of its temporary file, which every entry it
  links shares. A publisher that stops taking steps is one that crashed.
*/
module Publication {
  import opened Decimals

  datatype Option<T> = None | Some(value: T)

  datatype Entry =
    | Reservation(version: nat)
    | Target(stamp: string, version: nat, base: string)
    | Other(name: string)

  // Names.

  function Spell(n: nat): (s: string)
  {
    if n < 10 then [('0' as int + n) as char] else Spell(n / 10) + [('0' as int + n % 10) as char]
  }

  lemma {:induction false} SpellIsDecimal(n: nat)
    ensures Digits(Spell(n)) && |Spell(n)| > 0 && Value(Spell(n)) == n
  {
    if n < 10 {
      assert Pow10(0) == 1;
      assert Value(Spell(n)) == DigitOf(Spell(n)[0]) * Pow10(0) + Value([]);
    } else {
      SpellIsDecimal(n / 10);
      ValueSnoc(Spell(n / 10), ('0' as int + n % 10) as char);
    }
  }

  /** `{n:0widthd}`. */
  function Pad(n: nat, width: nat): (s: string)
  {
    if |Spell(n)| < width then Zeros(width - |Spell(n)|) + Spell(n) else Spell(n)
  }

  lemma PadIsDecimal(n: nat, width: nat)
    ensures Digits(Pad(n, width)) && |Pad(n, width)| > 0 && Value(Pad(n, width)) == n
  {
    SpellIsDecimal(n);
    if |Spell(n)| < width {
      LeadingZeros(width - |Spell(n)|, Spell(n));
    }
  }

  /** `\d{8}T\d{12}Z`, which is what the publishing time is formatted as. */
  predicate IsStamp(s: string)
    ensures IsStamp(s) ==> |s| == 22
  {
    |s| == 22 && Digits(s[..8]) && s[8] == 'T' && Digits(s[9..21]) && s[21] == 'Z'
  }

  /** Eight digits, a T, twelve digits, a Z. */
  lemma StampByPlaces(s: string)
    ensures IsStamp(s) <==>
      |s| == 22 && forall i :: 0 <= i < 22 ==> if i == 8 then s[i] == 'T' else if i == 21 then s[i] == 'Z' else '0' <= s[i] <= '9'
  {
    if |s| == 22 {
      assert forall i :: 0 <= i < 8 ==> s[..8][i] == s[i];
      assert forall i :: 9 <= i < 21 ==> s[9..21][i - 9] == s[i];
    }
  }

  function NameOf(e: Entry): (s: string)
  {
    match e
    case Reservation(v) => ".version-" + Pad(v, 12) + ".reserve"
    case Target(stamp, v, base) => stamp + "_v" + Pad(v, 6) + "_" + base
    case Other(name) => name
  }

  predicate Formatted(e: Entry) {
    !e.Other? && (e.Target? ==> IsStamp(e.stamp))
  }

  /** `Other` is for the names that are none of the formatted ones. */
  ghost predicate Spellable(e: Entry) {
    if e.Other? then forall f :: Formatted(f) ==> NameOf(f) != e.name else Formatted(e)
  }

  function LeadingDigits(s: string): (d: string)
    ensures |d| <= |s| && d == s[..|d|] && Digits(d)
  {
    if s == [] || !IsDigit(s[0]) then [] else [s[0]] + LeadingDigits(s[1..])
  }

  /** What _VERSIONED_FILENAME reads out of a name. */
  function VersionIn(name: string): (v: Option<nat>)
  {
    if |name| < 24 || !IsStamp(name[..22]) || name[22..24] != "_v" then None
    else
      var rest := name[24..];
      var digits := LeadingDigits(rest);
      if digits == [] || |digits| == |rest| || rest[|digits|] != '_' then None else Some(Value(digits))
  }

  lemma {:induction false} LeadingDigitsStop(d: string, rest: string)
    requires Digits(d) && (rest == [] || !IsDigit(rest[0]))
    ensures LeadingDigits(d + rest) == d
  {
    if d == [] {
      assert d + rest == rest;
    } else {
      assert (d + rest)[1..] == d[1..] + rest;
      LeadingDigitsStop(d[1..], rest);
    }
  }

  lemma VersionReads(stamp: string, digits: string, base: string)
    requires IsStamp(stamp) && Digits(digits) && digits != []
    ensures VersionIn(stamp + "_v" + digits + "_" + base) == Some(Value(digits))
  {
    hide IsStamp, Value;
    var name, tail := stamp + "_v" + digits + "_" + base, "_" + base;
    assert |stamp| == 22;
    assert name[..22] == stamp && name[22..24] == "_v";
    assert name[24..] == digits + tail;
    LeadingDigitsStop(digits, tail);
  }

  /** A published name is read back as the version it was given, whatever the rest of the name. */
  lemma VersionRoundTrip(stamp: string, v: nat, base: string)
    requires IsStamp(stamp)
    ensures VersionIn(NameOf(Target(stamp, v, base))) == Some(v)
  {
    PadIsDecimal(v, 6);
    VersionReads(stamp, Pad(v, 6), base);
  }

  lemma ReservationHasNoVersion(v: nat)
    ensures VersionIn(NameOf(Reservation(v))) == None
  {
    assert NameOf(Reservation(v))[0] == '.';
  }

  /** Different entries have different names, so that looking for an entry is looking for its name. */
  lemma NamesAreDistinct(a: Entry, b: Entry)
    requires Spellable(a) && Spellable(b) && NameOf(a) == NameOf(b)
    ensures a == b
  {
    if !a.Other? && !b.Other? {
      FormattedNamesAreDistinct(a, b);
    }
  }

  lemma FormattedNamesAreDistinct(a: Entry, b: Entry)
    requires Formatted(a) && Formatted(b) && NameOf(a) == NameOf(b)
    ensures a == b
  {
    match (a, b)
    case (Reservation(v), Reservation(w)) =>
      PadIsDecimal(v, 12);
      PadIsDecimal(w, 12);
      var name := NameOf(a);
      assert name[9..|name| - 8] == Pad(v, 12);
      assert name[9..|name| - 8] == Pad(w, 12);
    case (Target(s, v, x), Target(t, w, y)) =>
      VersionRoundTrip(s, v, x);
      VersionRoundTrip(t, w, y);
      assert NameOf(a)[..22] == s && NameOf(b)[..22] == t;
      var cut := 25 + |Pad(v, 6)|;
      assert NameOf(a)[cut..] == x && NameOf(b)[cut..] == y;
    case (Reservation(v), Target(t, w, y)) =>
      ReservationHasNoVersion(v);
      VersionRoundTrip(t, w, y);
    case (Target(s, v, x), Reservation(w)) =>
      ReservationHasNoVersion(w);
      VersionRoundTrip(s, v, x);
  }

  /** One more than the largest version among the names. */
  ghost predicate OnePastLargest(names: seq<string>, next: nat) {
    && next > 0 && (forall k :: 0 <= k < |names| && VersionIn(names[k]).Some? ==> VersionIn(names[k]).value < next)
    && (next == 1 || exists k :: 0 <= k < |names| && VersionIn(names[k]) == Some(next - 1))
  }

  /** _next_bound_version. */
  method NextVersion(names: seq<string>) returns (next: nat)
    ensures OnePastLargest(names, next)
  {
    var highest := 0;
    for i := 0 to |names|
      invariant forall k :: 0 <= k < i && VersionIn(names[k]).Some? ==> VersionIn(names[k]).value <= highest
      invariant highest == 0 || exists k :: 0 <= k < i && VersionIn(names[k]) == Some(highest)
    {
      var version := VersionIn(names[i]);
      if version.Some? && version.value > highest {
        highest := version.value;
      }
    }
    next := highest + 1;
  }

  // Publishers.

  datatype Phase =
    | Scanning
    | Linking(v: nat)                                        // about to link the reservation
    | Rescanning(v: nat)                                     // holds it, about to look again
    | Releasing(v: nat, next: nat, named: bool, seen: bool)  // gives it up to try another version
    | Targeting(v: nat)                                      // about to link the target
    | Checking(v: nat)
    | DroppingTemporary(v: nat)
    | DroppingReservation(v: nat, seen: bool)
    | Closing(v: nat)
    | Published(v: nat)
    | Cleaning(todo: seq<Entry>, seen: bool)                 // after a failure
    | Failed

  datatype Publisher = Publisher(stamp: string, base: string, phase: Phase)

  /** Entries with the identity of the file behind each. */
  datatype System = System(entries: map<Entry, nat>, publishers: map<nat, Publisher>)

  datatype Step =
    | Scan(p: nat, next: nat)
    | LinkReservation(p: nat)
    | Rescan(p: nat, next: nat)
    | LinkTarget(p: nat)
    | Check(p: nat)
    | DropTemporary(p: nat)
    | Stat(p: nat)    // the identity check in front of an unlink
    | Unlink(p: nat)
    | Close(p: nat)
    | Fail(p: nat)    // anything raises
    | Skip(p: nat)    // a cleanup raises and the next one goes on

  function TargetOf(a: Publisher, v: nat): (e: Entry) {
    Target(a.stamp, v, a.base)
  }

  /** The entry an unlinking phase is about, and what comes after it. */
  function Pending(phase: Phase): (e: Option<Entry>) {
    match phase
    case Releasing(v, _, _, _) => Some(Reservation(v))
    case DroppingReservation(v, _) => Some(Reservation(v))
    case Cleaning(todo, _) => if todo == [] then None else Some(todo[0])
    case _ => None
  }

  predicate Seen(phase: Phase) {
    (phase.Releasing? || phase.DroppingReservation? || phase.Cleaning?) && phase.seen
  }

  function WithSeen(phase: Phase): (r: Phase)
    requires Pending(phase).Some?
  {
    match phase
    case Releasing(v, next, named, _) => Releasing(v, next, named, true)
    case DroppingReservation(v, _) => DroppingReservation(v, true)
    case Cleaning(todo, _) => Cleaning(todo, true)
  }

  function Unlinked(phase: Phase): (r: Phase)
    requires Pending(phase).Some?
  {
    match phase
    case Releasing(_, next, _, _) => Linking(next)
    case DroppingReservation(v, _) => Closing(v)
    case Cleaning(todo, _) => Clean(todo[1..])
  }

  function Clean(todo: seq<Entry>): (r: Phase) {
    if todo == [] then Failed else Cleaning(todo, false)
  }

  /** What the cleanups undo, in order, when a phase raises. */
  function CleanupOf(a: Publisher): (r: seq<Entry>)
  {
    match a.phase
    case Linking(v) => [Reservation(v)]
    case Rescanning(v) => [Reservation(v)]
    case Releasing(v, _, named, _) => if named then [TargetOf(a, v), Reservation(v)] else [Reservation(v)]
    case Targeting(v) => [TargetOf(a, v), Reservation(v)]
    case Checking(v) => [TargetOf(a, v), Reservation(v)]
    case DroppingTemporary(v) => [TargetOf(a, v), Reservation(v), TargetOf(a, v), Reservation(v)]
    case DroppingReservation(v, _) => [TargetOf(a, v), TargetOf(a, v), Reservation(v)]
    case Closing(v) => [TargetOf(a, v)]
    case _ => []
  }

  /** The version an entry counts for; other names may happen to read as one, too. */
  function VersionOf(e: Entry): (v: Option<nat>) {
    match e
    case Reservation(_) => None
    case Target(_, version, _) => Some(version)
    case Other(name) => VersionIn(name)
  }

  /** An entry counts for the version that is read out of its name. */
  lemma VersionIsRead(e: Entry)
    requires e.Target? ==> IsStamp(e.stamp)
    ensures VersionIn(NameOf(e)) == VersionOf(e)
  {
    match e
    case Reservation(v) => ReservationHasNoVersion(v);
    case Target(stamp, v, base) => VersionRoundTrip(stamp, v, base);
    case Other(_) =>
  }

  /** _next_bound_version on the entries. */
  ghost predicate IsNext(entries: map<Entry, nat>, next: nat) {
    && next > 0
    && (forall e :: e in entries && VersionOf(e).Some? ==> VersionOf(e).value < next)
    && (next == 1 || exists e :: e in entries && VersionOf(e) == Some(next - 1))
  }

  /** These are the names of the entries, in any order. */
  ghost predicate Lists(names: seq<string>, entries: map<Entry, nat>) {
    && (forall e :: e in entries ==> NameOf(e) in names)
    && (forall k :: 0 <= k < |names| ==> exists e :: e in entries && NameOf(e) == names[k])
  }

  /** What the loop finds among the names is what the publishers take from the entries. */
  lemma NamesGiveTheNext(entries: map<Entry, nat>, names: seq<string>, next: nat)
    requires Lists(names, entries) && forall e :: e in entries ==> Spellable(e)
    ensures OnePastLargest(names, next) <==> IsNext(entries, next)
  {
    forall e | e in entries ensures VersionIn(NameOf(e)) == VersionOf(e) && NameOf(e) in names {
      VersionIsRead(e);
    }
    forall name | name in names ensures exists e :: e in entries && NameOf(e) == name {
      var k :| 0 <= k < |names| && names[k] == name;
    }
    hide VersionIn, VersionOf, NameOf, Spellable, Lists;
    if OnePastLargest(names, next) {
      EntriesBelow(entries, names, next);
    }
    if IsNext(entries, next) {
      NamesBelow(entries, names, next);
    }
  }

  lemma EntriesBelow(entries: map<Entry, nat>, names: seq<string>, next: nat)
    requires OnePastLargest(names, next)
    requires forall e :: e in entries ==> VersionIn(NameOf(e)) == VersionOf(e) && NameOf(e) in names
    requires forall name :: name in names ==> exists e :: e in entries && NameOf(e) == name
    ensures IsNext(entries, next)
  {
    hide VersionIn, VersionOf, NameOf;
    forall e | e in entries && VersionOf(e).Some? ensures VersionOf(e).value < next {
      var k :| 0 <= k < |names| && names[k] == NameOf(e);
      assert VersionIn(names[k]) == VersionOf(e);
    }
    if next != 1 {
      var k :| 0 <= k < |names| && VersionIn(names[k]) == Some(next - 1);
      assert names[k] in names;
      var e :| e in entries && NameOf(e) == names[k];
    }
  }

  lemma NamesBelow(entries: map<Entry, nat>, names: seq<string>, next: nat)
    requires IsNext(entries, next)
    requires forall e :: e in entries ==> VersionIn(NameOf(e)) == VersionOf(e) && NameOf(e) in names
    requires forall name :: name in names ==> exists e :: e in entries && NameOf(e) == name
    ensures OnePastLargest(names, next)
  {
    hide VersionIn, VersionOf, NameOf;
    forall k | 0 <= k < |names| && VersionIn(names[k]).Some? ensures VersionIn(names[k]).value < next {
      assert names[k] in names;
      var e :| e in entries && NameOf(e) == names[k];
    }
    if next != 1 {
      var e :| e in entries && VersionOf(e) == Some(next - 1);
      var k :| 0 <= k < |names| && names[k] == NameOf(e);
    }
  }

  ghost predicate Enabled(s: System, step: Step) {
    && step.p in s.publishers
    && var phase := s.publishers[step.p].phase;
       match step
       case Scan(_, next) => phase.Scanning? && IsNext(s.entries, next)
       case LinkReservation(_) => phase.Linking?
       case Rescan(_, next) => phase.Rescanning? && IsNext(s.entries, next)
       case LinkTarget(_) => phase.Targeting?
       case Check(_) => phase.Checking?
       case DropTemporary(_) => phase.DroppingTemporary?
       case Stat(_) => Pending(phase).Some? && !Seen(phase)
       case Unlink(_) => Pending(phase).Some? && Seen(phase)
       case Close(_) => phase.Closing?
       case Fail(_) => !phase.Published? && !phase.Failed? && !phase.Cleaning?
       case Skip(_) => phase.Cleaning? && Pending(phase).Some?
  }

  ghost function Next(s: System, step: Step): System
    requires Enabled(s, step)
  {
    var p := step.p;
    var a := s.publishers[p];
    match step
    case Scan(_, next) => To(s, p, Linking(next))
    case LinkReservation(_) =>
      var e := Reservation(a.phase.v);
      if e !in s.entries then To(s.(entries := s.entries[e := p]), p, Rescanning(a.phase.v))
      else if s.entries[e] == p then To(s, p, Clean(CleanupOf(a)))
      else To(s, p, Linking(a.phase.v + 1))
    case Rescan(_, next) =>
      To(s, p, if next > a.phase.v then Releasing(a.phase.v, next, false, false) else Targeting(a.phase.v))
    case LinkTarget(_) =>
      var e := TargetOf(a, a.phase.v);
      if e !in s.entries then To(s.(entries := s.entries[e := p]), p, Checking(a.phase.v))
      else if s.entries[e] == p then To(s, p, Clean(CleanupOf(a)))
      else To(s, p, Releasing(a.phase.v, a.phase.v + 1, true, false))
    case Check(_) => To(s, p, DroppingTemporary(a.phase.v))
    case DropTemporary(_) => To(s, p, DroppingReservation(a.phase.v, false))
    case Stat(_) =>
      var e := Pending(a.phase).value;
      To(s, p, if e in s.entries && s.entries[e] == p then WithSeen(a.phase) else Unlinked(a.phase))
    case Unlink(_) => To(s.(entries := s.entries - {Pending(a.phase).value}), p, Unlinked(a.phase))
    case Close(_) => To(s, p, Published(a.phase.v))
    case Fail(_) => To(s, p, Clean(CleanupOf(a)))
    case Skip(_) => To(s, p, Unlinked(a.phase))
  }

  function To(s: System, p: nat, phase: Phase): System
    requires p in s.publishers
  {
    s.(publishers := s.publishers[p := s.publishers[p].(phase := phase)])
  }

  // The invariant.

  predicate Owns(s: System, p: nat, e: Entry) {
    e in s.entries && s.entries[e] == p
  }

  predicate HoldsReservation(phase: Phase) {
    || phase.Rescanning? || phase.Releasing? || phase.Targeting? || phase.Checking?
    || phase.DroppingTemporary? || phase.DroppingReservation?
  }

  predicate HoldsTarget(phase: Phase) {
    phase.Checking? || phase.DroppingTemporary? || phase.DroppingReservation? || phase.Closing? || phase.Published?
  }

  ghost predicate PublisherHolds(s: System, p: nat)
    requires p in s.publishers
  {
    var a := s.publishers[p];
    && (HoldsReservation(a.phase) ==> Owns(s, p, Reservation(a.phase.v)))
    && (HoldsTarget(a.phase) ==> Owns(s, p, TargetOf(a, a.phase.v)))
    && (Pending(a.phase).Some? && Seen(a.phase) ==> Owns(s, p, Pending(a.phase).value))
    && (a.phase.Targeting? ==> VersionFree(s, a.phase.v))
    && (a.phase.Releasing? ==> a.phase.v < a.phase.next)
  }

  ghost predicate VersionFree(s: System, v: nat) {
    forall e :: e in s.entries ==> VersionOf(e) != Some(v)
  }

  ghost predicate VersionsDistinct(s: System) {
    forall e, f :: e in s.entries && f in s.entries && VersionOf(e).Some? && VersionOf(e) == VersionOf(f) ==> e == f
  }

  /** Every entry stands for one name, and publishers stamp theirs with the time. */
  ghost predicate Spelled(s: System) {
    (forall e :: e in s.entries ==> Spellable(e)) && (forall p :: p in s.publishers ==> IsStamp(s.publishers[p].stamp))
  }

  ghost predicate Invariant(s: System) {
    Spelled(s) && VersionsDistinct(s) && forall p :: p in s.publishers ==> PublisherHolds(s, p)
  }

  /** Whatever is in the directory to begin with, leftovers of crashes included, as long as versions differ. */
  ghost predicate Start(s: System) {
    Spelled(s) && VersionsDistinct(s) && forall p :: p in s.publishers ==> s.publishers[p].phase == Scanning
  }

  ghost predicate Reaches(s: System, steps: seq<Step>, end: System)
    decreases |steps|
  {
    if steps == [] then s == end
    else Enabled(s, steps[0]) && Reaches(Next(s, steps[0]), steps[1..], end)
  }

  /** The check in front of every unlink is good enough: nobody's step removes what another publisher linked. */
  lemma OthersKeepTheirEntries(s: System, step: Step, e: Entry)
    requires Invariant(s) && Enabled(s, step) && e in s.entries && s.entries[e] != step.p
    ensures e in Next(s, step).entries && Next(s, step).entries[e] == s.entries[e]
  {
    assert PublisherHolds(s, step.p);
  }

  /** A publisher about to link its target never finds the name taken. */
  lemma TargetIsFree(s: System, p: nat)
    requires Invariant(s) && p in s.publishers && s.publishers[p].phase.Targeting?
    ensures TargetOf(s.publishers[p], s.publishers[p].phase.v) !in s.entries
  {
    assert PublisherHolds(s, p);
  }

  predicate PublishedAs(s: System, p: nat) {
    p in s.publishers && s.publishers[p].phase.Published?
  }

  lemma StepKeepsVersions(s: System, step: Step)
    requires Invariant(s) && Enabled(s, step)
    ensures VersionsDistinct(Next(s, step))
  {
    assert PublisherHolds(s, step.p);
  }

  lemma StepKeepsSpelling(s: System, step: Step)
    requires Spelled(s) && Enabled(s, step)
    ensures Spelled(Next(s, step))
  {
  }

  lemma StepKeepsActor(s: System, step: Step)
    requires Invariant(s) && Enabled(s, step)
    ensures PublisherHolds(Next(s, step), step.p)
  {
    hide Spelled, VersionIn, NameOf, IsStamp;
    assert PublisherHolds(s, step.p);
  }

  lemma StepKeepsOthers(s: System, step: Step, q: nat)
    requires Invariant(s) && Enabled(s, step) && q in s.publishers && q != step.p
    ensures PublisherHolds(Next(s, step), q)
  {
    assert PublisherHolds(s, q) && PublisherHolds(s, step.p);
    forall e | Owns(s, q, e) ensures Owns(Next(s, step), q, e) {
      OthersKeepTheirEntries(s, step, e);
    }
    if s.publishers[q].phase.Targeting? && step.LinkTarget? {
      assert Owns(s, q, Reservation(s.publishers[q].phase.v));
      assert Owns(s, step.p, Reservation(s.publishers[step.p].phase.v));
    }
  }

  lemma StepKeepsInvariant(s: System, step: Step)
    requires Invariant(s) && Enabled(s, step)
    ensures Invariant(Next(s, step))
  {
    StepKeepsVersions(s, step);
    StepKeepsActor(s, step);
    StepKeepsSpelling(s, step);
    forall q | q in s.publishers && q != step.p ensures PublisherHolds(Next(s, step), q) {
      StepKeepsOthers(s, step, q);
    }
  }

  lemma {:induction false} RunsKeepInvariant(s: System, steps: seq<Step>, end: System)
    requires Invariant(s) && Reaches(s, steps, end)
    ensures Invariant(end)
    decreases |steps|
  {
    if steps != [] {
      StepKeepsInvariant(s, steps[0]);
      RunsKeepInvariant(Next(s, steps[0]), steps[1..], end);
    }
  }

  /**
    Under any interleaving, failures and crashes included: no two published files carry the same
    version, and every publisher that was told its version finds its file there under that version.
  */
  lemma VersionsAreUnique(s: System, steps: seq<Step>, end: System)
    requires Start(s) && Reaches(s, steps, end)
    ensures forall e, f :: e in end.entries && f in end.entries && e != f && VersionIn(NameOf(e)).Some? ==>
      VersionIn(NameOf(e)) != VersionIn(NameOf(f)) && NameOf(e) != NameOf(f)
    ensures forall p :: PublishedAs(end, p) ==>
      Owns(end, p, TargetOf(end.publishers[p], end.publishers[p].phase.v))
    ensures forall p, q :: PublishedAs(end, p) && PublishedAs(end, q) && p != q ==>
      end.publishers[p].phase.v != end.publishers[q].phase.v
  {
    RunsKeepInvariant(s, steps, end);
    forall e | e in end.entries ensures VersionIn(NameOf(e)) == VersionOf(e) {
      VersionIsRead(e);
    }
    hide VersionIn, NameOf;
    forall p | PublishedAs(end, p)
      ensures Owns(end, p, TargetOf(end.publishers[p], end.publishers[p].phase.v))
    {
      assert PublisherHolds(end, p);
    }
  }

  // Order.

  predicate HasVersion(phase: Phase) {
    HoldsReservation(phase) || HoldsTarget(phase) || phase.Linking?
  }

  /** A publisher that retries does so with a larger version. */
  lemma VersionsOnlyGrow(s: System, step: Step)
    requires Invariant(s) && Enabled(s, step)
    ensures var before, after := s.publishers[step.p].phase, Next(s, step).publishers[step.p].phase;
      && (HasVersion(before) && HasVersion(after) && !before.Releasing? ==> before.v <= after.v)
      && (after.Releasing? ==> after.v < after.next)
      && (before.Linking? && after.Linking? ==> before.v < after.v)
      && (before.Releasing? && after.Linking? ==> after.v == before.next)
  {
    assert PublisherHolds(s, step.p);
  }

  /** Publisher p has not looked yet, or is past version w. */
  predicate Past(phase: Phase, w: nat) {
    HasVersion(phase) ==> phase.v > w
  }

  ghost predicate Later(s: System, p: nat, q: nat, w: nat) {
    && p in s.publishers && q in s.publishers && p != q
    && s.publishers[q].phase == Published(w)
    && Past(s.publishers[p].phase, w)
  }

  lemma StepStaysLater(s: System, step: Step, p: nat, q: nat, w: nat)
    requires Invariant(s) && Later(s, p, q, w) && Enabled(s, step)
    ensures Later(Next(s, step), p, q, w)
  {
    assert PublisherHolds(s, q) && PublisherHolds(s, p);
    if step.p == p {
      hide Spelled, VersionsDistinct, VersionIn, NameOf, IsStamp;
      assert VersionOf(TargetOf(s.publishers[q], w)) == Some(w);
      assert step.Scan? || step.Rescan? ==> step.next > w;
      hide IsNext, VersionOf, Invariant;
    } else {
      hide Spelled, VersionsDistinct, VersionIn, NameOf, IsStamp, IsNext, VersionOf, Invariant;
    }
  }

  lemma {:induction false} StaysLater(s: System, steps: seq<Step>, end: System, p: nat, q: nat, w: nat)
    requires Invariant(s) && Later(s, p, q, w) && Reaches(s, steps, end)
    ensures Invariant(end) && Later(end, p, q, w)
    decreases |steps|
  {
    hide Invariant, Later, Next;
    if steps != [] {
      StepKeepsInvariant(s, steps[0]);
      StepStaysLater(s, steps[0], p, q, w);
      StaysLater(Next(s, steps[0]), steps[1..], end, p, q, w);
    }
  }

  /** A publisher that starts after another has finished gets a larger version. */
  lemma LaterPublicationsAreNewer(s: System, steps: seq<Step>, end: System, p: nat, q: nat)
    requires Invariant(s) && p in s.publishers && q in s.publishers && Reaches(s, steps, end)
    requires s.publishers[q].phase.Published? && s.publishers[p].phase.Scanning?
    ensures p in end.publishers && (end.publishers[p].phase.Published? ==> end.publishers[p].phase.v > s.publishers[q].phase.v)
  {
    StaysLater(s, steps, end, p, q, s.publishers[q].phase.v);
  }

  // Where a version comes from.

  /** The number an entry stands for, published or only reserved. */
  function NumberOf(e: Entry): (v: Option<nat>) {
    if e.Reservation? then Some(e.version) else VersionOf(e)
  }

  function Carried(s: System): (numbers: set<nat>) {
    set e | e in s.entries && NumberOf(e).Some? :: NumberOf(e).value
  }

  /** Every number that some entry carried at some moment of the run. */
  ghost function EverCarried(s: System, steps: seq<Step>): (numbers: set<nat>)
    decreases |steps|
  {
    Carried(s) + if steps == [] || !Enabled(s, steps[0]) then {} else EverCarried(Next(s, steps[0]), steps[1..])
  }

  /** A number that may be taken: the first of all, or the one behind a number that was carried. */
  predicate Follows(v: nat, numbers: set<nat>) {
    v == 1 || (v > 0 && v - 1 in numbers)
  }

  ghost predicate AllFollow(s: System, numbers: set<nat>) {
    forall p :: p in s.publishers ==> PhaseFollows(s.publishers[p].phase, numbers)
  }

  predicate PhaseFollows(phase: Phase, numbers: set<nat>) {
    && (HasVersion(phase) ==> Follows(phase.v, numbers))
    && (phase.Releasing? ==> Follows(phase.next, numbers))
  }

  lemma StepFollows(s: System, step: Step, numbers: set<nat>)
    requires Enabled(s, step) && AllFollow(s, numbers) && Carried(s) <= numbers
    ensures AllFollow(Next(s, step), numbers)
  {
    var next := Next(s, step);
    hide VersionOf, VersionIn, NameOf, IsStamp;
    assert PhaseFollows(s.publishers[step.p].phase, numbers);
    assert forall e :: e in s.entries && NumberOf(e).Some? ==> NumberOf(e).value in Carried(s);
    forall p | p in next.publishers ensures PhaseFollows(next.publishers[p].phase, numbers) {
      if p == step.p {
        ActorFollows(s, step, numbers);
      } else {
        assert next.publishers[p] == s.publishers[p];
      }
    }
  }

  lemma ActorFollows(s: System, step: Step, numbers: set<nat>)
    requires Enabled(s, step) && PhaseFollows(s.publishers[step.p].phase, numbers)
    requires forall e :: e in s.entries && NumberOf(e).Some? ==> NumberOf(e).value in numbers
    ensures PhaseFollows(Next(s, step).publishers[step.p].phase, numbers)
  {
    hide VersionIn, NameOf, IsStamp;
    if (step.Scan? || step.Rescan?) && step.next != 1 {
      var e :| e in s.entries && VersionOf(e) == Some(step.next - 1);
      assert NumberOf(e) == Some(step.next - 1);
    }
    hide IsNext;
    if step.LinkReservation? {
      assert NumberOf(Reservation(s.publishers[step.p].phase.v)) == Some(s.publishers[step.p].phase.v);
    }
    if step.LinkTarget? {
      var e := TargetOf(s.publishers[step.p], s.publishers[step.p].phase.v);
      assert NumberOf(e) == Some(s.publishers[step.p].phase.v);
    }
  }

  lemma {:induction false} RunsFollow(s: System, steps: seq<Step>, end: System, numbers: set<nat>)
    requires Reaches(s, steps, end) && AllFollow(s, numbers) && Carried(s) <= numbers
    ensures AllFollow(end, numbers + EverCarried(s, steps))
    decreases |steps|
  {
    if steps == [] {
      assert numbers + EverCarried(s, steps) == numbers;
    } else {
      var next := Next(s, steps[0]);
      StepFollows(s, steps[0], numbers);
      MoreToFollow(next, numbers, numbers + Carried(next));
      hide Next, AllFollow, Carried;
      RunsFollow(next, steps[1..], end, numbers + Carried(next));
      var later := EverCarried(next, steps[1..]);
      assert Carried(next) <= later;
      assert numbers + Carried(next) + later == numbers + EverCarried(s, steps);
    }
  }

  lemma MoreToFollow(s: System, numbers: set<nat>, more: set<nat>)
    requires AllFollow(s, numbers) && numbers <= more
    ensures AllFollow(s, more)
  {
    forall p | p in s.publishers ensures PhaseFollows(s.publishers[p].phase, more) {
      assert PhaseFollows(s.publishers[p].phase, numbers);
    }
  }

  /**
    No version is taken out of the air: under any interleaving a published version is 1, or the one
    before it was carried by a file or a reservation at some moment of the run.
  */
  lemma VersionsHaveNoGaps(s: System, steps: seq<Step>, end: System, p: nat)
    requires Start(s) && Reaches(s, steps, end) && PublishedAs(end, p)
    ensures var v := end.publishers[p].phase.v; v == 1 || (v > 1 && v - 1 in EverCarried(s, steps))
  {
    RunsFollow(s, steps, end, Carried(s));
    assert Carried(s) + EverCarried(s, steps) == EverCarried(s, steps);
    assert PhaseFollows(end.publishers[p].phase, EverCarried(s, steps));
  }

  // A publisher by itself.

  /** Only this publisher takes steps, and none of them fails. */
  predicate Alone(steps: seq<Step>, p: nat) {
    forall k :: 0 <= k < |steps| ==> steps[k].p == p && !steps[k].Fail? && !steps[k].Skip?
  }

  /** The first number from `next` on for which no reservation was left behind. */
  predicate FirstFree(entries: map<Entry, nat>, next: nat, v: nat) {
    next <= v && Reservation(v) !in entries && forall w :: next <= w < v ==> Reservation(w) in entries
  }

  /** What the directory looks like in each phase of a publisher that found it as `entries`. */
  ghost predicate LoneHolds(entries: map<Entry, nat>, next: nat, s: System, p: nat)
    requires p in s.publishers
  {
    var a := s.publishers[p];
    match a.phase
    case Scanning => s.entries == entries
    case Linking(v) => s.entries == entries && next <= v && forall w :: next <= w < v ==> Reservation(w) in entries
    case Rescanning(v) => FirstFree(entries, next, v) && s.entries == entries[Reservation(v) := p]
    case Targeting(v) => FirstFree(entries, next, v) && s.entries == entries[Reservation(v) := p]
    case Checking(v) => FirstFree(entries, next, v) && s.entries == entries[Reservation(v) := p][TargetOf(a, v) := p]
    case DroppingTemporary(v) => FirstFree(entries, next, v) && s.entries == entries[Reservation(v) := p][TargetOf(a, v) := p]
    case DroppingReservation(v, _) => FirstFree(entries, next, v) && s.entries == entries[Reservation(v) := p][TargetOf(a, v) := p]
    case Closing(v) => FirstFree(entries, next, v) && s.entries == entries[TargetOf(a, v) := p]
    case Published(v) => FirstFree(entries, next, v) && s.entries == entries[TargetOf(a, v) := p]
    case _ => false
  }

  lemma ReservationsDoNotCount(entries: map<Entry, nat>, v: nat, p: nat, next: nat)
    ensures IsNext(entries[Reservation(v) := p], next) <==> IsNext(entries, next)
  {
    hide VersionIn;
    var more := entries[Reservation(v) := p];
    assert forall e :: VersionOf(e).Some? ==> (e in more <==> e in entries);
    hide VersionOf;
  }

  lemma OneNext(entries: map<Entry, nat>, m: nat, n: nat)
    requires IsNext(entries, m) && IsNext(entries, n)
    ensures m == n
  {
    hide VersionOf;
  }

  lemma LoneStepHolds(entries: map<Entry, nat>, next: nat, s: System, step: Step)
    requires Enabled(s, step) && !step.Fail? && !step.Skip? && LoneHolds(entries, next, s, step.p)
    requires IsNext(entries, next) && forall e :: e in entries ==> entries[e] != step.p
    ensures LoneHolds(entries, next, Next(s, step), step.p)
  {
    var p := step.p;
    var a := s.publishers[p];
    if step.Scan? {
      OneNext(entries, next, step.next);
    } else if step.Rescan? {
      ReservationsDoNotCount(entries, a.phase.v, p, step.next);
      OneNext(entries, next, step.next);
    } else if step.LinkTarget? {
      assert VersionOf(TargetOf(a, a.phase.v)) == Some(a.phase.v);
      assert TargetOf(a, a.phase.v) !in entries;
    } else if step.Unlink? {
      assert (entries[Reservation(a.phase.v) := p][TargetOf(a, a.phase.v) := p]) - {Reservation(a.phase.v)}
          == entries[TargetOf(a, a.phase.v) := p];
    }
    hide IsNext, VersionOf, VersionIn, NameOf;
  }

  lemma {:induction false} LoneRunsHold(entries: map<Entry, nat>, next: nat, s: System, steps: seq<Step>, end: System, p: nat)
    requires p in s.publishers && Reaches(s, steps, end) && Alone(steps, p) && LoneHolds(entries, next, s, p)
    requires IsNext(entries, next) && forall e :: e in entries ==> entries[e] != p
    ensures p in end.publishers && LoneHolds(entries, next, end, p)
    decreases |steps|
  {
    if steps != [] {
      LoneStepHolds(entries, next, s, steps[0]);
      hide LoneHolds, IsNext;
      LoneRunsHold(entries, next, Next(s, steps[0]), steps[1..], end, p);
    }
  }

  /**
    A publisher by itself gets one more than the largest version among the names it found, or the
    first number behind that for which no reservation was left behind by a crash.
  */
  lemma LonePublisherGetsTheNext(s: System, steps: seq<Step>, end: System, p: nat, names: seq<string>, next: nat)
    requires Start(s) && p in s.publishers && Reaches(s, steps, end) && Alone(steps, p) && PublishedAs(end, p)
    requires forall e :: e in s.entries ==> s.entries[e] != p
    requires Lists(names, s.entries) && OnePastLargest(names, next)
    ensures FirstFree(s.entries, next, end.publishers[p].phase.v)
    ensures (forall v :: Reservation(v) !in s.entries) ==> OnePastLargest(names, end.publishers[p].phase.v)
  {
    hide OnePastLargest, VersionIn, NameOf, IsStamp, Reaches, Lists, VersionsDistinct, LoneHolds;
    NamesGiveTheNext(s.entries, names, next);
    hide IsNext, Spellable;
    ScanningHolds(s, p, next);
    LoneRunsHold(s.entries, next, s, steps, end, p);
    PublishedIsFree(s.entries, next, end, p);
    if forall v :: Reservation(v) !in s.entries {
      assert Reservation(next) !in s.entries;
    }
  }

  lemma ScanningHolds(s: System, p: nat, next: nat)
    requires p in s.publishers && s.publishers[p].phase == Scanning
    ensures LoneHolds(s.entries, next, s, p)
  {
  }

  lemma PublishedIsFree(entries: map<Entry, nat>, next: nat, s: System, p: nat)
    requires p in s.publishers && LoneHolds(entries, next, s, p) && s.publishers[p].phase.Published?
    ensures FirstFree(entries, next, s.publishers[p].phase.v)
  {
  }

  /** Reservations left behind from some number on. */
  function LeftBehind(entries: map<Entry, nat>, v: nat): (r: set<Entry>) {
    set e | e in entries && e.Reservation? && e.version >= v
  }

  lemma Prepend(s: System, step: Step, steps: seq<Step>, end: System, p: nat)
    requires Enabled(s, step) && Reaches(Next(s, step), steps, end) && Alone(steps, p)
    requires step.p == p && !step.Fail? && !step.Skip?
    ensures Reaches(s, [step] + steps, end) && Alone([step] + steps, p)
  {
    assert ([step] + steps)[1..] == steps;
  }

  /** With its reservation linked it goes all the way. */
  lemma FinishesAlone(entries: map<Entry, nat>, next: nat, s: System, p: nat) returns (steps: seq<Step>, end: System)
    requires IsNext(entries, next) && (forall e :: e in entries ==> entries[e] != p)
    requires p in s.publishers && LoneHolds(entries, next, s, p)
    requires var phase := s.publishers[p].phase; !phase.Scanning? && !phase.Linking?
    ensures Reaches(s, steps, end) && Alone(steps, p) && PublishedAs(end, p)
    decreases Remaining(s.publishers[p].phase)
  {
    var a := s.publishers[p];
    if a.phase.Published? {
      return [], s;
    }
    var step := match a.phase
      case Rescanning(v) => Rescan(p, next)
      case Targeting(_) => LinkTarget(p)
      case Checking(_) => Check(p)
      case DroppingTemporary(_) => DropTemporary(p)
      case DroppingReservation(_, seen) => if seen then Unlink(p) else Stat(p)
      case _ => Close(p);
    if a.phase.Rescanning? {
      ReservationsDoNotCount(entries, a.phase.v, p, next);
    }
    LoneStepHolds(entries, next, s, step);
    var later;
    later, end := FinishesAlone(entries, next, Next(s, step), p);
    Prepend(s, step, later, end, p);
    steps := [step] + later;
  }

  function Remaining(phase: Phase): (r: nat) {
    match phase
    case Rescanning(_) => 7
    case Targeting(_) => 6
    case Checking(_) => 5
    case DroppingTemporary(_) => 4
    case DroppingReservation(_, seen) => if seen then 2 else 3
    case Closing(_) => 1
    case _ => 0
  }

  lemma LinksAlone(entries: map<Entry, nat>, next: nat, s: System, p: nat) returns (steps: seq<Step>, end: System)
    requires IsNext(entries, next) && (forall e :: e in entries ==> entries[e] != p)
    requires p in s.publishers && s.publishers[p].phase.Linking? && LoneHolds(entries, next, s, p)
    ensures Reaches(s, steps, end) && Alone(steps, p) && PublishedAs(end, p)
    decreases |LeftBehind(entries, s.publishers[p].phase.v)|
  {
    var step, v := LinkReservation(p), s.publishers[p].phase.v;
    LoneStepHolds(entries, next, s, step);
    var later;
    if Reservation(v) in entries {
      assert LeftBehind(entries, v) == LeftBehind(entries, v + 1) + {Reservation(v)};
      later, end := LinksAlone(entries, next, Next(s, step), p);
    } else {
      later, end := FinishesAlone(entries, next, Next(s, step), p);
    }
    Prepend(s, step, later, end, p);
    steps := [step] + later;
  }

  /** And it does get there: whatever was left behind, a publisher by itself can always publish. */
  lemma LonePublisherSucceeds(s: System, p: nat, next: nat) returns (steps: seq<Step>, end: System)
    requires Start(s) && p in s.publishers && IsNext(s.entries, next) && forall e :: e in s.entries ==> s.entries[e] != p
    ensures Reaches(s, steps, end) && Alone(steps, p) && PublishedAs(end, p)
  {
    ScanningHolds(s, p, next);
    LoneStepHolds(s.entries, next, s, Scan(p, next));
    var later;
    later, end := LinksAlone(s.entries, next, Next(s, Scan(p, next)), p);
    Prepend(s, Scan(p, next), later, end, p);
    steps := [Scan(p, next)] + later;
  }

  /** A publisher that has failed can always clean up to the end, without passing over a cleanup. */
  lemma {:induction false} CleansUpAlone(s: System, p: nat) returns (steps: seq<Step>, end: System)
    requires p in s.publishers && s.publishers[p].phase.Cleaning? && s.publishers[p].phase.todo != []
    ensures Reaches(s, steps, end) && Alone(steps, p) && p in end.publishers && end.publishers[p].phase.Failed?
    decreases |s.publishers[p].phase.todo|, !s.publishers[p].phase.seen
  {
    var phase := s.publishers[p].phase;
    var step := if phase.seen then Unlink(p) else Stat(p);
    var middle := Next(s, step);
    var later;
    if middle.publishers[p].phase.Failed? {
      later, end := [], middle;
    } else {
      later, end := CleansUpAlone(middle, p);
    }
    Prepend(s, step, later, end, p);
    steps := [step] + later;
  }

  /** One that has to let go of a number goes on to the next one. */
  lemma {:induction false} ReleasesAlone(s: System, p: nat) returns (steps: seq<Step>, end: System)
    requires p in s.publishers && s.publishers[p].phase.Releasing?
    ensures Reaches(s, steps, end) && Alone(steps, p)
    ensures end.publishers == s.publishers[p := s.publishers[p].(phase := Linking(s.publishers[p].phase.next))]
    decreases !s.publishers[p].phase.seen
  {
    var step := if s.publishers[p].phase.seen then Unlink(p) else Stat(p);
    var middle := Next(s, step);
    var later;
    if middle.publishers[p].phase.Linking? {
      later, end := [], middle;
    } else {
      later, end := ReleasesAlone(middle, p);
    }
    Prepend(s, step, later, end, p);
    steps := [step] + later;
  }

  // Leftovers.

  /** The entries a publisher may own in a phase, as long as none of its cleanups failed. */
  function MayOwn(a: Publisher): (r: set<Entry>) {
    match a.phase
    case Scanning => {}
    case Linking(_) => {}
    case Cleaning(todo, _) => set e | e in todo
    case Failed => {}
    case phase =>
      (if HoldsReservation(phase) then {Reservation(phase.v)} else {})
      + (if HoldsTarget(phase) then {TargetOf(a, phase.v)} else {})
  }

  ghost predicate Tidy(s: System, p: nat) {
    p in s.publishers && forall e :: Owns(s, p, e) ==> e in MayOwn(s.publishers[p])
  }

  lemma TidyActor(s: System, step: Step)
    requires Invariant(s) && Enabled(s, step) && Tidy(s, step.p) && !step.Skip?
    ensures Tidy(Next(s, step), step.p)
  {
    hide Spelled, VersionsDistinct, VersionOf, VersionIn, NameOf, IsStamp, IsNext;
    assert PublisherHolds(s, step.p);
    var next := Next(s, step);
    forall e | Owns(next, step.p, e) ensures e in MayOwn(next.publishers[step.p]) {
      if Owns(s, step.p, e) {
        assert e in MayOwn(s.publishers[step.p]);
      }
    }
  }

  lemma {:induction false} StaysTidy(s: System, steps: seq<Step>, end: System, p: nat)
    requires Invariant(s) && Tidy(s, p) && Reaches(s, steps, end) && Skip(p) !in steps
    ensures Invariant(end) && Tidy(end, p)
    decreases |steps|
  {
    hide Spelled, VersionsDistinct, VersionOf, VersionIn, NameOf, IsStamp;
    if steps != [] {
      StepKeepsInvariant(s, steps[0]);
      if steps[0].p == p {
        TidyActor(s, steps[0]);
      } else {
        forall e | Owns(Next(s, steps[0]), p, e) ensures Owns(s, p, e) {}
      }
      StaysTidy(Next(s, steps[0]), steps[1..], end, p);
    }
  }

  /**
    A publisher whose cleanups all work leaves exactly its published file behind when it succeeds
    and nothing at all when it fails, whatever the others do meanwhile.
  */
  lemma NothingIsLeftBehind(s: System, steps: seq<Step>, end: System, p: nat)
    requires Start(s) && Reaches(s, steps, end) && Skip(p) !in steps && p in s.publishers
    requires forall e :: e in s.entries ==> s.entries[e] != p
    ensures p in end.publishers
    ensures end.publishers[p].phase.Failed? ==> forall e :: !Owns(end, p, e)
    ensures end.publishers[p].phase.Published? ==>
      forall e :: Owns(end, p, e) <==> e == TargetOf(end.publishers[p], end.publishers[p].phase.v)
  {
    hide Spelled, VersionsDistinct, VersionOf, VersionIn, NameOf, IsStamp;
    StaysTidy(s, steps, end, p);
    assert PublisherHolds(end, p);
  }
}
