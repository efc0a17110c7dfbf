/**
  Idempotent writes: the retrying sender of frontend/src/api.ts, the server table behind
  backend/app/features/api_common.py, and an unreliable network between them.

  A body is its canonical signature (JsonSignature shows that equal signatures mean the same
  JSON value), and a request hash is the body it is taken of. One server transaction is one step.
*/
module Idempotency {
  datatype Option<T> = None | Some(value: T)

  /** How an attempt ends for the client; status 0 stands for no usable answer at all. */
  datatype Outcome = Ok(response: string) | Error(status: nat)

  /** isDefinitiveClientRejection. */
  predicate Definitive(outcome: Outcome) {
    outcome.Error? && 400 <= outcome.status < 500 && outcome.status !in {408, 425, 429}
  }

  // The client.

  datatype Pending = Pending(signature: string, key: nat, inFlight: Option<nat>)

  datatype SendResult =
    | Posts(key: nat)        // a request with this key goes out
    | Shares(attempt: nat)   // the promise of the request under way is handed out
    | Refused                // rejected before anything is sent

  function SendAnswer(pending: map<string, Pending>, path: string, body: string, freshKey: nat): (r: SendResult)
  {
    if path !in pending then Posts(freshKey)
    else if pending[path].inFlight.Some? then
      if pending[path].signature == body then Shares(pending[path].inFlight.value) else Refused
    else if pending[path].signature == body then Posts(pending[path].key) else Refused
  }

  function AfterSend(pending: map<string, Pending>, path: string, body: string, freshKey: nat, attempt: nat)
    : (r: map<string, Pending>)
  {
    match SendAnswer(pending, path, body, freshKey)
    case Posts(key) => pending[path := Pending(body, key, Some(attempt))]
    case _ => pending
  }

  /** The settled attempt acts only on the entry it belongs to. */
  function AfterSettle(pending: map<string, Pending>, path: string, attempt: nat, outcome: Outcome)
    : (r: map<string, Pending>)
  {
    if path !in pending || pending[path].inFlight != Some(attempt) then pending
    else if outcome.Ok? || Definitive(outcome) then pending - {path}
    else pending[path := pending[path].(inFlight := None)]
  }

  predicate MayDiscard(pending: map<string, Pending>, path: string, body: Option<string>) {
    path in pending && pending[path].inFlight.None? && (body.Some? ==> body.value == pending[path].signature)
  }

  /** The statuses after which the client cannot know whether the request took effect. */
  predicate LeavesUnknown(status: nat) {
    status < 400 || status >= 500 || status == 408 || status == 425 || status == 429
  }

  /** What is left of the entries when the attempt under way on a path has settled. */
  ghost predicate SettledAs(before: map<string, Pending>, after: map<string, Pending>, path: string, outcome: Outcome)
    requires path in before
  {
    if outcome.Error? && LeavesUnknown(outcome.status) then
      after == before[path := Pending(before[path].signature, before[path].key, None)]
    else
      && path !in after
      && (forall other :: other != path ==>
            (other in after <==> other in before) && (other in before ==> after[other] == before[other]))
  }

  class RetriablePostSender {
    var pendingByPath: map<string, Pending>

    constructor ()
      ensures pendingByPath == map[]
    {
      pendingByPath := map[];
    }

    method Send(path: string, body: string, freshKey: nat, attempt: nat) returns (r: SendResult)
      modifies this
      ensures r.Refused? <==> path in old(pendingByPath) && old(pendingByPath)[path].signature != body
      ensures r.Shares? <==>
        path in old(pendingByPath) && old(pendingByPath)[path].signature == body && old(pendingByPath)[path].inFlight != None
      ensures r.Shares? ==> old(pendingByPath)[path].inFlight == Some(r.attempt)
      ensures r.Posts? ==> r.key == if path in old(pendingByPath) then old(pendingByPath)[path].key else freshKey
      ensures r.Posts? ==> pendingByPath == old(pendingByPath)[path := Pending(body, r.key, Some(attempt))]
      ensures !r.Posts? ==> pendingByPath == old(pendingByPath)
      ensures r == SendAnswer(old(pendingByPath), path, body, freshKey)
      ensures pendingByPath == AfterSend(old(pendingByPath), path, body, freshKey, attempt)
    {
      if path in pendingByPath && pendingByPath[path].inFlight.Some? {
        if pendingByPath[path].signature == body {
          return Shares(pendingByPath[path].inFlight.value);
        }
        return Refused;
      }
      if path in pendingByPath && pendingByPath[path].signature != body {
        return Refused;
      }
      if path !in pendingByPath {
        pendingByPath := pendingByPath[path := Pending(body, freshKey, None)];
      }
      r := Posts(pendingByPath[path].key);
      pendingByPath := pendingByPath[path := pendingByPath[path].(inFlight := Some(attempt))];
    }

    method Settle(path: string, attempt: nat, outcome: Outcome)
      modifies this
      ensures path in old(pendingByPath) && old(pendingByPath)[path].inFlight == Some(attempt) ==>
        SettledAs(old(pendingByPath), pendingByPath, path, outcome)
      ensures path !in old(pendingByPath) || old(pendingByPath)[path].inFlight != Some(attempt) ==>
        pendingByPath == old(pendingByPath)
      ensures pendingByPath == AfterSettle(old(pendingByPath), path, attempt, outcome)
    {
      if path in pendingByPath && pendingByPath[path].inFlight == Some(attempt) {
        if outcome.Ok? {
          pendingByPath := pendingByPath - {path};
        } else {
          pendingByPath := pendingByPath[path := pendingByPath[path].(inFlight := None)];
          if Definitive(outcome) {
            pendingByPath := pendingByPath - {path};
          }
        }
      }
    }

    method Discard(path: string, body: Option<string>) returns (gone: bool)
      modifies this
      ensures gone == MayDiscard(old(pendingByPath), path, body)
      ensures var p := old(pendingByPath);
        gone <==> path in p && p[path].inFlight == None && (body == None || body == Some(p[path].signature))
      ensures pendingByPath == if gone then old(pendingByPath) - {path} else old(pendingByPath)
    {
      if path !in pendingByPath || pendingByPath[path].inFlight.Some? {
        return false;
      }
      if body.Some? && pendingByPath[path].signature != body.value {
        return false;
      }
      pendingByPath := pendingByPath - {path};
      return true;
    }
  }

  // The server.

  datatype Request = Request(attempt: nat, path: string, key: nat, body: string)

  datatype Row = Row(body: string, response: string)

  datatype Effect = Effect(path: string, key: nat, body: string, response: string)

  /** What the handler decides where the code leaves it to the request and the data. */
  datatype Decision =
    | TurnedAway(status: nat)   // refused before the table is consulted, for instance 401
    | Declined(status: nat)     // refused by a business rule, or failed and rolled back
    | Executes(response: string)

  datatype Database = Database(table: map<(string, nat), Row>, effects: seq<Effect>)

  const KEY_REUSED: Outcome := Error(409)

  function Handled(db: Database, q: Request, d: Decision): (r: (Database, Outcome))
  {
    var id := (q.path, q.key);
    if d.TurnedAway? then (db, Error(d.status))
    else if id in db.table then
      (db, if db.table[id].body == q.body then Ok(db.table[id].response) else KEY_REUSED)
    else match d
      case Executes(response) =>
        (Database(db.table[id := Row(q.body, response)],
                  db.effects + [Effect(q.path, q.key, q.body, response)]), Ok(response))
      case Declined(status) => (db, Error(status))
      case TurnedAway(status) => (db, Error(status))
  }

  class Server {
    var db: Database

    constructor ()
      ensures db == Database(map[], [])
    {
      db := Database(map[], []);
    }

    /** restore_idempotent_response: nothing, the stored answer, or a 409 for another body. */
    method RestoreIdempotentResponse(path: string, key: nat, body: string) returns (r: Option<Outcome>)
      ensures r.None? <==> (path, key) !in db.table
      ensures r.Some? && db.table[(path, key)].body == body ==> r.value == Ok(db.table[(path, key)].response)
      ensures r.Some? && db.table[(path, key)].body != body ==> r.value == KEY_REUSED
    {
      if (path, key) !in db.table {
        return None;
      }
      var row := db.table[(path, key)];
      if row.body != body {
        return Some(KEY_REUSED);
      }
      return Some(Ok(row.response));
    }

    method Handle(q: Request, d: Decision) returns (outcome: Outcome)
      modifies this
      ensures (db, outcome) == Handled(old(db), q, d)
    {
      if d.TurnedAway? {
        return Error(d.status);
      }
      var restored := RestoreIdempotentResponse(q.path, q.key, q.body);
      if restored.Some? {
        return restored.value;
      }
      if d.Declined? {
        return Error(d.status);
      }
      db := db.(effects := db.effects + [Effect(q.path, q.key, q.body, d.response)]);
      db := db.(table := db.table[(q.path, q.key) := Row(q.body, d.response)]);
      outcome := Ok(d.response);
    }
  }

  // The whole system.

  /**
    `network` holds the copies of requests under way; `sent` remembers every attempt ever made;
    `answers` the outcomes the server has produced; `resolved` the sends that succeeded.
  */
  datatype System = System(
    pending: map<string, Pending>,
    nextKey: nat,
    sent: seq<Request>,
    network: multiset<Request>,
    db: Database,
    answers: set<(nat, Outcome)>,
    resolved: seq<Effect>)

  const START := System(map[], 0, [], multiset{}, Database(map[], []), {}, [])

  datatype Step =
    | Send(path: string, body: string)
    | Duplicate(q: Request)
    | Lose(q: Request)
    | Deliver(q: Request, d: Decision)
    | Settle(attempt: nat, outcome: Outcome)
    | Discard(path: string, only: Option<string>)

  /** A success needs the server's answer; an error may come from anywhere at any time. */
  predicate Enabled(s: System, step: Step) {
    match step
    case Duplicate(q) => q in s.network
    case Lose(q) => q in s.network
    case Deliver(q, _) => q in s.network
    case Settle(attempt, outcome) => attempt < |s.sent| && (outcome.Ok? ==> (attempt, outcome) in s.answers)
    case _ => true
  }

  function Next(s: System, step: Step): (r: System)
    requires Enabled(s, step)
  {
    match step
    case Send(path, body) =>
      var answer := SendAnswer(s.pending, path, body, s.nextKey);
      if !answer.Posts? then s
      else
        var q := Request(|s.sent|, path, answer.key, body);
        s.(pending := AfterSend(s.pending, path, body, s.nextKey, |s.sent|),
           nextKey := if answer.key == s.nextKey then s.nextKey + 1 else s.nextKey,
           sent := s.sent + [q], network := s.network + multiset{q})
    case Duplicate(q) => s.(network := s.network + multiset{q})
    case Lose(q) => s.(network := s.network - multiset{q})
    case Deliver(q, d) =>
      var (db, outcome) := Handled(s.db, q, d);
      s.(network := s.network - multiset{q}, db := db, answers := s.answers + {(q.attempt, outcome)})
    case Settle(attempt, outcome) =>
      var q := s.sent[attempt];
      if q.path !in s.pending || s.pending[q.path].inFlight != Some(attempt) then s
      else
        s.(pending := AfterSettle(s.pending, q.path, attempt, outcome),
           resolved := if outcome.Ok? then s.resolved + [Effect(q.path, q.key, q.body, outcome.response)] else s.resolved)
    case Discard(path, only) =>
      if MayDiscard(s.pending, path, only) then s.(pending := s.pending - {path}) else s
  }

  ghost predicate Reaches(s: System, steps: seq<Step>, t: System)
    decreases |steps|
  {
    if steps == [] then s == t else Enabled(s, steps[0]) && Reaches(Next(s, steps[0]), steps[1..], t)
  }

  // What every step keeps.

  predicate HasRow(db: Database, e: Effect) {
    (e.path, e.key) in db.table && db.table[(e.path, e.key)] == Row(e.body, e.response)
  }

  function EffectOf(q: Request, response: string): (e: Effect)
  {
    Effect(q.path, q.key, q.body, response)
  }

  /** The table and the effects tell the same story, one effect for each row. */
  ghost predicate Recorded(db: Database) {
    && (forall i, j :: 0 <= i < j < |db.effects| ==>
          (db.effects[i].path, db.effects[i].key) != (db.effects[j].path, db.effects[j].key))
    && (forall e :: e in db.effects <==> HasRow(db, e))
  }

  /** A key belongs to one path and one body for ever. */
  ghost predicate KeysFixed(sent: seq<Request>) {
    forall i, j :: 0 <= i < |sent| && 0 <= j < |sent| && sent[i].key == sent[j].key ==>
      sent[i].path == sent[j].path && sent[i].body == sent[j].body
  }

  ghost predicate Numbered(sent: seq<Request>, nextKey: nat) {
    forall i :: 0 <= i < |sent| ==> sent[i].attempt == i && sent[i].key < nextKey
  }

  predicate SentAs(path: string, p: Pending, sent: seq<Request>, i: nat) {
    i < |sent| && sent[i].path == path && sent[i].key == p.key && sent[i].body == p.signature
  }

  /** An entry stands for a request that was sent, and the attempt under way is one of it. */
  ghost predicate Fits(path: string, p: Pending, sent: seq<Request>) {
    && (exists i :: SentAs(path, p, sent, i))
    && (p.inFlight.Some? ==> SentAs(path, p, sent, p.inFlight.value))
  }

  ghost predicate PendingFits(pending: map<string, Pending>, sent: seq<Request>) {
    forall path :: path in pending ==> Fits(path, pending[path], sent)
  }

  /** Every effect was asked for. */
  ghost predicate AskedFor(effects: seq<Effect>, sent: seq<Request>) {
    forall e :: e in effects ==> exists i :: 0 <= i < |sent| && EffectOf(sent[i], e.response) == e
  }

  /** Every success the server reported is on record. */
  ghost predicate AnswersHold(answers: set<(nat, Outcome)>, sent: seq<Request>, db: Database) {
    forall a :: a in answers && a.1.Ok? ==> a.0 < |sent| && HasRow(db, EffectOf(sent[a.0], a.1.response))
  }

  ghost predicate Invariant(s: System) {
    && Recorded(s.db)
    && KeysFixed(s.sent) && Numbered(s.sent, s.nextKey)
    && PendingFits(s.pending, s.sent)
    && (forall q :: q in s.network ==> q in s.sent)
    && AskedFor(s.db.effects, s.sent)
    && AnswersHold(s.answers, s.sent, s.db)
    && (forall e :: e in s.resolved ==> HasRow(s.db, e))
  }

  lemma HandlingKeepsRecord(db: Database, q: Request, d: Decision)
    requires Recorded(db)
    ensures var (after, outcome) := Handled(db, q, d);
      && Recorded(after)
      && (forall e :: HasRow(db, e) ==> HasRow(after, e))
      && (forall e :: e in after.effects ==>
            e in db.effects || (outcome.Ok? && e == EffectOf(q, outcome.response)))
      && (outcome.Ok? ==> HasRow(after, EffectOf(q, outcome.response)))
  {
    var after := Handled(db, q, d).0;
    if after != db {
      var added := EffectOf(q, d.response);
      forall e ensures e in after.effects <==> HasRow(after, e) {
        assert e in after.effects <==> e in db.effects || e == added;
      }
      forall i | 0 <= i < |db.effects| ensures (db.effects[i].path, db.effects[i].key) != (q.path, q.key) {
        assert HasRow(db, db.effects[i]);
      }
    }
  }

  lemma SendKeepsInvariant(s: System, path: string, body: string)
    requires Invariant(s)
    ensures Invariant(Next(s, Send(path, body)))
  {
    var answer := SendAnswer(s.pending, path, body, s.nextKey);
    if answer.Posts? {
      var t := Next(s, Send(path, body));
      if path in s.pending {
        assert Fits(path, s.pending[path], s.sent);
      }
      forall p | p in t.pending ensures Fits(p, t.pending[p], t.sent) {
        if p == path {
          assert SentAs(p, t.pending[p], t.sent, |s.sent|);
        } else {
          SentGrows(p, s.pending[p], s.sent, t.sent);
        }
      }
      AskedForGrows(s.db.effects, s.sent, t.sent);
    }
  }

  lemma SentGrows(path: string, p: Pending, sent: seq<Request>, more: seq<Request>)
    requires Fits(path, p, sent) && sent <= more
    ensures Fits(path, p, more)
  {
    var i :| SentAs(path, p, sent, i);
    assert SentAs(path, p, more, i);
  }

  lemma AskedForGrows(effects: seq<Effect>, sent: seq<Request>, more: seq<Request>)
    requires AskedFor(effects, sent) && sent <= more
    ensures AskedFor(effects, more)
  {
    forall e | e in effects ensures exists i :: 0 <= i < |more| && EffectOf(more[i], e.response) == e {
      var i :| 0 <= i < |sent| && EffectOf(sent[i], e.response) == e;
      assert more[i] == sent[i];
    }
  }

  lemma DeliverKeepsInvariant(s: System, q: Request, d: Decision)
    requires Invariant(s) && q in s.network
    ensures Invariant(Next(s, Deliver(q, d)))
  {
    var (db, outcome) := Handled(s.db, q, d);
    HandlingKeepsRecord(s.db, q, d);
    var i :| 0 <= i < |s.sent| && s.sent[i] == q;
    forall e | e in db.effects ensures exists k :: 0 <= k < |s.sent| && EffectOf(s.sent[k], e.response) == e {
      if e !in s.db.effects {
        assert EffectOf(s.sent[i], e.response) == e;
      }
    }
  }

  lemma SettleKeepsInvariant(s: System, attempt: nat, outcome: Outcome)
    requires Invariant(s) && Enabled(s, Settle(attempt, outcome))
    ensures Invariant(Next(s, Settle(attempt, outcome)))
  {
    var t := Next(s, Settle(attempt, outcome));
    var q := s.sent[attempt];
    forall p | p in t.pending ensures Fits(p, t.pending[p], t.sent) {
      assert Fits(p, s.pending[p], s.sent);
      var i :| SentAs(p, s.pending[p], s.sent, i);
      assert SentAs(p, t.pending[p], t.sent, i);
    }
    if outcome.Ok? {
      assert HasRow(s.db, EffectOf(q, outcome.response));
    }
  }

  lemma StepKeepsInvariant(s: System, step: Step)
    requires Invariant(s) && Enabled(s, step)
    ensures Invariant(Next(s, step))
  {
    match step
    case Send(path, body) => SendKeepsInvariant(s, path, body);
    case Deliver(q, d) => DeliverKeepsInvariant(s, q, d);
    case Settle(attempt, outcome) => SettleKeepsInvariant(s, attempt, outcome);
    case _ =>
  }

  lemma {:induction false} RunsKeepInvariant(s: System, steps: seq<Step>, t: System)
    requires Invariant(s) && Reaches(s, steps, t)
    ensures Invariant(t)
    decreases |steps|
  {
    if steps != [] {
      StepKeepsInvariant(s, steps[0]);
      RunsKeepInvariant(Next(s, steps[0]), steps[1..], t);
    }
  }

  // What holds over every run.

  /** However often a request is retried, duplicated or delayed, its key takes effect at most once. */
  lemma AtMostOneEffectPerKey(steps: seq<Step>, t: System, i: nat, j: nat)
    requires Reaches(START, steps, t)
    requires i < |t.db.effects| && j < |t.db.effects| && t.db.effects[i].key == t.db.effects[j].key
    ensures i == j
  {
    RunsKeepInvariant(START, steps, t);
    var d, e := t.db.effects[i], t.db.effects[j];
    assert d in t.db.effects && e in t.db.effects;
    var k :| 0 <= k < |t.sent| && EffectOf(t.sent[k], d.response) == d;
    var l :| 0 <= l < |t.sent| && EffectOf(t.sent[l], e.response) == e;
    assert t.sent[k].key == t.sent[l].key;
  }

  /** A send that resolved took effect exactly once, and got the answer of that effect. */
  lemma ResolvedMeansExactlyOneEffect(steps: seq<Step>, t: System, n: nat) returns (i: nat)
    requires Reaches(START, steps, t) && n < |t.resolved|
    ensures i < |t.db.effects| && t.db.effects[i] == t.resolved[n]
    ensures forall j :: 0 <= j < |t.db.effects| && t.db.effects[j].key == t.resolved[n].key ==> j == i
  {
    RunsKeepInvariant(START, steps, t);
    assert t.resolved[n] in t.resolved && HasRow(t.db, t.resolved[n]);
    i :| 0 <= i < |t.db.effects| && t.db.effects[i] == t.resolved[n];
    forall j | 0 <= j < |t.db.effects| && t.db.effects[j].key == t.resolved[n].key ensures j == i {
      AtMostOneEffectPerKey(steps, t, j, i);
    }
  }

  /** No run sends one key with two bodies or on two paths. */
  lemma OneBodyPerKey(steps: seq<Step>, t: System, i: nat, j: nat)
    requires Reaches(START, steps, t) && i < |t.sent| && j < |t.sent| && t.sent[i].key == t.sent[j].key
    ensures t.sent[i].path == t.sent[j].path && t.sent[i].body == t.sent[j].body
  {
    RunsKeepInvariant(START, steps, t);
  }

  /** A key that is already on record never runs again: the same body gets the recorded answer, any other is refused. */
  lemma RecordedKeyNeverRunsAgain(db: Database, e: Effect, q: Request, d: Decision)
    requires HasRow(db, e) && q.path == e.path && q.key == e.key
    ensures Handled(db, q, d).0 == db
    ensures Handled(db, q, d).1.Ok? ==> q.body == e.body && Handled(db, q, d).1 == Ok(e.response)
    ensures q.body != e.body ==> Handled(db, q, d).1.Error?
    ensures q.body == e.body && !d.TurnedAway? ==> Handled(db, q, d).1 == Ok(e.response)
  {
  }

  /** While an entry for a path is kept, whatever is sent on that path repeats its key and body. */
  ghost predicate Repeats(s: System, t: System, path: string, key: nat, body: string) {
    && |s.sent| <= |t.sent| && s.sent == t.sent[..|s.sent|]
    && (forall i :: |s.sent| <= i < |t.sent| && t.sent[i].path == path ==>
          t.sent[i].key == key && t.sent[i].body == body)
  }

  /** The entry for a path survives every state of the run. */
  ghost predicate Keeps(s: System, steps: seq<Step>, path: string, key: nat)
    decreases |steps|
  {
    && path in s.pending && s.pending[path].key == key
    && (steps != [] ==> Enabled(s, steps[0]) && Keeps(Next(s, steps[0]), steps[1..], path, key))
  }

  /** As long as the client counts an outcome as unknown, it sends no other body on that path. */
  lemma {:induction false} NoOtherBodyWhileUnknown(s: System, steps: seq<Step>, t: System, path: string, key: nat)
    requires Invariant(s) && Reaches(s, steps, t) && Keeps(s, steps, path, key)
    ensures Repeats(s, t, path, key, s.pending[path].signature)
    decreases |steps|
  {
    if steps == [] {
      assert s.sent == t.sent[..|s.sent|];
    } else {
      var u := Next(s, steps[0]);
      StepKeepsInvariant(s, steps[0]);
      SignatureStays(s, steps[0], path, key);
      NoOtherBodyWhileUnknown(u, steps[1..], t, path, key);
      assert s.sent == u.sent[..|s.sent|] == t.sent[..|s.sent|];
      forall i | |s.sent| <= i < |t.sent| && t.sent[i].path == path
        ensures t.sent[i].key == key && t.sent[i].body == s.pending[path].signature
      {
        assert i < |u.sent| ==> t.sent[i] == u.sent[i];
      }
    }
  }

  lemma SignatureStays(s: System, step: Step, path: string, key: nat)
    requires Enabled(s, step)
    requires path in s.pending && s.pending[path].key == key
    requires path in Next(s, step).pending
    ensures Next(s, step).pending[path].signature == s.pending[path].signature
    ensures Repeats(s, Next(s, step), path, key, s.pending[path].signature)
  {
    if step.Send? {
      SendRepeats(s, step.path, step.body, path);
    } else {
      assert Next(s, step).sent == s.sent;
    }
  }

  lemma SendRepeats(s: System, sentOn: string, body: string, path: string)
    requires path in s.pending
    ensures var t := Next(s, Send(sentOn, body));
      && path in t.pending && t.pending[path].signature == s.pending[path].signature
      && Repeats(s, t, path, s.pending[path].key, s.pending[path].signature)
  {
    var t := Next(s, Send(sentOn, body));
    assert s.sent == t.sent[..|s.sent|];
  }

  // Undisturbed exchanges, and what a retry gets.

  /** A key without a row runs if the handler lets it, and leaves no trace otherwise. */
  lemma UnknownKeyRuns(db: Database, q: Request, d: Decision)
    requires (q.path, q.key) !in db.table
    ensures d.Executes? ==>
      && Handled(db, q, d).1 == Ok(d.response)
      && Handled(db, q, d).0.effects == db.effects + [Effect(q.path, q.key, q.body, d.response)]
      && HasRow(Handled(db, q, d).0, Effect(q.path, q.key, q.body, d.response))
    ensures !d.Executes? ==> Handled(db, q, d) == (db, Error(d.status))
  {
  }

  /** A send on a path without an entry that is executed and answered takes effect once and leaves no entry. */
  lemma UndisturbedSend(s: System, path: string, body: string, response: string) returns (t: System)
    requires Invariant(s) && path !in s.pending
    ensures var q := Request(|s.sent|, path, s.nextKey, body);
      Reaches(s, [Send(path, body), Deliver(q, Executes(response)), Settle(|s.sent|, Ok(response))], t)
    ensures t.pending == s.pending && t.db.effects == s.db.effects + [Effect(path, s.nextKey, body, response)]
    ensures t.resolved == s.resolved + [Effect(path, s.nextKey, body, response)]
  {
    var q := Request(|s.sent|, path, s.nextKey, body);
    var s1 := Next(s, Send(path, body));
    assert q in s1.network && s1.sent == s.sent + [q];
    if (path, s.nextKey) in s.db.table {
      RowKeysAreUsed(s, path, s.nextKey);
    }
    var s2 := Next(s1, Deliver(q, Executes(response)));
    UnknownKeyRuns(s1.db, q, Executes(response));
    assert (|s.sent|, Ok(response)) in s2.answers && s2.pending == s1.pending && s2.sent == s1.sent;
    t := Next(s2, Settle(|s.sent|, Ok(response)));
    RunOfThree(s, Send(path, body), Deliver(q, Executes(response)), Settle(|s.sent|, Ok(response)));
  }

  lemma RowKeysAreUsed(s: System, path: string, key: nat)
    requires Invariant(s) && (path, key) in s.db.table
    ensures key < s.nextKey
  {
    var row := s.db.table[(path, key)];
    var e := Effect(path, key, row.body, row.response);
    assert HasRow(s.db, e) && e in s.db.effects;
    var i :| 0 <= i < |s.sent| && EffectOf(s.sent[i], e.response) == e;
  }

  /** After an error that leaves the outcome unknown, sending the same body again repeats the key. */
  lemma ResubmissionRepeatsTheKey(s: System, attempt: nat, status: nat)
    requires Invariant(s) && UnderWay(s, attempt) && LeavesUnknown(status)
    ensures Enabled(s, Settle(attempt, Error(status)))
    ensures var q := s.sent[attempt];
      var u := Next(Next(s, Settle(attempt, Error(status))), Send(q.path, q.body));
      u.sent == s.sent + [Request(|s.sent|, q.path, q.key, q.body)] && u.nextKey == s.nextKey
  {
    var q := s.sent[attempt];
    assert Fits(q.path, s.pending[q.path], s.sent);
    assert q.key < s.nextKey;
  }

  /** So the request takes effect at most once, whatever happens afterwards. */
  lemma ResubmissionTakesEffectOnce(
      steps: seq<Step>, s: System, attempt: nat, status: nat, later: seq<Step>, end: System, i: nat, j: nat)
    requires Reaches(START, steps, s) && UnderWay(s, attempt) && LeavesUnknown(status)
    requires Enabled(s, Settle(attempt, Error(status)))
    requires var q := s.sent[attempt]; Reaches(Next(Next(s, Settle(attempt, Error(status))), Send(q.path, q.body)), later, end)
    requires i < |end.db.effects| && j < |end.db.effects|
    requires end.db.effects[i].key == s.sent[attempt].key == end.db.effects[j].key
    ensures i == j
  {
    RunsKeepInvariant(START, steps, s);
    ResubmissionRepeatsTheKey(s, attempt, status);
    var t := Next(s, Settle(attempt, Error(status)));
    var send := Send(s.sent[attempt].path, s.sent[attempt].body);
    var u := Next(t, send);
    assert Reaches(u, [], u) && [send][1..] == [] && [Settle(attempt, Error(status))][1..] == [];
    assert Reaches(t, [], t) && Reaches(s, [Settle(attempt, Error(status))], t) && Reaches(t, [send], u);
    RunsCompose(s, [Settle(attempt, Error(status))], t, [send], u);
    RunsCompose(START, steps, s, [Settle(attempt, Error(status))] + [send], u);
    RunsCompose(START, steps + ([Settle(attempt, Error(status))] + [send]), u, later, end);
    AtMostOneEffectPerKey(steps + ([Settle(attempt, Error(status))] + [send]) + later, end, i, j);
  }

  // What the client's own notion of "unknown" leaves out.

  /** Some continuation lets the key take effect although it has not so far. */
  ghost predicate MayStillTakeEffect(s: System, key: nat) {
    exists steps, t :: Reaches(s, steps, t) && TakesEffect(s, t, key)
  }

  ghost predicate TakesEffect(s: System, t: System, key: nat) {
    exists e :: e in t.db.effects && e !in s.db.effects && e.key == key
  }

  ghost predicate Abandoned(s: System, key: nat) {
    key < s.nextKey && forall path :: path in s.pending ==> s.pending[path].key != key
  }

  lemma AbandonedStays(s: System, step: Step, key: nat)
    requires Invariant(s) && Enabled(s, step) && Abandoned(s, key)
    ensures Abandoned(Next(s, step), key)
  {
  }

  lemma AbandonedStaysAbandoned(s: System, step: Step, key: nat)
    requires Invariant(s) && Enabled(s, step) && Abandoned(s, key)
    requires forall q :: q in s.network ==> q.key != key
    ensures Abandoned(Next(s, step), key)
    ensures forall q :: q in Next(s, step).network ==> q.key != key
    ensures forall e :: e in Next(s, step).db.effects && e.key == key ==> e in s.db.effects
  {
    AbandonedStays(s, step, key);
    if step.Deliver? {
      HandlingKeepsRecord(s.db, step.q, step.d);
    }
    hide Invariant, Recorded, Abandoned, Handled, SendAnswer;
  }

  lemma {:induction false} AbandonedKeyIsDead(s: System, steps: seq<Step>, t: System, key: nat)
    requires Invariant(s) && Reaches(s, steps, t) && Abandoned(s, key)
    requires forall q :: q in s.network ==> q.key != key
    ensures forall e :: e in t.db.effects && e.key == key ==> e in s.db.effects
    decreases |steps|
  {
    if steps != [] {
      AbandonedStaysAbandoned(s, steps[0], key);
      StepKeepsInvariant(s, steps[0]);
      AbandonedKeyIsDead(Next(s, steps[0]), steps[1..], t, key);
    }
  }

  /**
    Once the client has dropped a key that is not on record, whether the key can still take
    effect is decided by the network alone: it can exactly when a copy of a request carrying
    it is still under way.
  */
  lemma DroppedKeyCanRunExactlyWhileUnderWay(s: System, key: nat)
    requires Invariant(s) && Abandoned(s, key)
    requires forall id :: id in s.db.table ==> id.1 != key
    ensures MayStillTakeEffect(s, key) <==> exists q :: q in s.network && q.key == key
  {
    if q :| q in s.network && q.key == key {
      var step := Deliver(q, Executes("done"));
      var t := Next(s, step);
      var e := EffectOf(q, "done");
      assert t.db.effects[|s.db.effects|] == e;
      assert e in s.db.effects <==> HasRow(s.db, e);
      assert TakesEffect(s, t, key);
      assert Reaches(t, [], t);
      assert Reaches(s, [step], t);
    }
    if MayStillTakeEffect(s, key) && !(exists q :: q in s.network && q.key == key) {
      var steps, t :| Reaches(s, steps, t) && TakesEffect(s, t, key);
      AbandonedKeyIsDead(s, steps, t, key);
    }
  }

  // What the client can know about a key that it drops.

  /** The client sees its own steps; a settlement that comes too late changes nothing for it. */
  predicate Noticed(s: System, step: Step) {
    match step
    case Send(_, _) => true
    case Discard(_, _) => true
    case Settle(attempt, _) => UnderWay(s, attempt)
    case _ => false
  }

  predicate UnderWay(s: System, attempt: nat) {
    && attempt < |s.sent|
    && s.sent[attempt].path in s.pending && s.pending[s.sent[attempt].path].inFlight == Some(attempt)
  }

  /** The network copies nothing, and a definitive rejection is an answer of the server. */
  predicate Plain(s: System, step: Step) {
    && Enabled(s, step) && !step.Duplicate?
    && (step.Settle? && Definitive(step.outcome) ==> (step.attempt, step.outcome) in s.answers)
  }

  ghost predicate PlainRun(s: System, steps: seq<Step>, t: System)
    decreases |steps|
  {
    if steps == [] then s == t else Plain(s, steps[0]) && PlainRun(Next(s, steps[0]), steps[1..], t)
  }

  /** What the client has seen of a run. */
  ghost function History(s: System, steps: seq<Step>): (h: seq<Step>)
    decreases |steps|
  {
    if steps == [] || !Enabled(s, steps[0]) then []
    else (if Noticed(s, steps[0]) then [steps[0]] else []) + History(Next(s, steps[0]), steps[1..])
  }

  predicate SameClient(s: System, u: System) {
    u.pending == s.pending && u.nextKey == s.nextKey && u.sent == s.sent
  }

  /** The settlement of `attempt` with `outcome` is a definitive rejection that drops its entry. */
  predicate Drops(s: System, attempt: nat, outcome: Outcome) {
    UnderWay(s, attempt) && Definitive(outcome) && Plain(s, Settle(attempt, outcome))
  }

  /** The client has sent the key of this attempt no other time. */
  predicate SentOnce(sent: seq<Request>, attempt: nat)
    requires attempt < |sent|
  {
    forall i :: 0 <= i < |sent| && sent[i].key == sent[attempt].key ==> i == attempt
  }

  /** The key has had no effect and can have none. */
  ghost predicate Dead(s: System, key: nat) {
    (forall e :: e in s.db.effects ==> e.key != key) && !MayStillTakeEffect(s, key)
  }

  /** In every run that looks the same to the client the key is dead once it has been dropped. */
  ghost predicate DeadAsFarAsSeen(h: seq<Step>, attempt: nat, outcome: Outcome, key: nat) {
    forall steps, s :: PlainRun(START, steps, s) && History(START, steps) == h && Drops(s, attempt, outcome) ==>
      Dead(Next(s, Settle(attempt, outcome)), key)
  }

  /** Each request under way is under way once and has not been answered. */
  ghost predicate OneCopy(s: System) {
    && (forall q :: q in s.network ==> s.network[q] == 1)
    && (forall q, a :: q in s.network && a in s.answers ==> a.0 != q.attempt)
    && (forall a :: a in s.answers ==> a.0 < |s.sent|)
    && (forall a, b :: a in s.answers && b in s.answers && a.0 == b.0 ==> a == b)
    && (forall e :: e in s.db.effects ==> Reported(s, e.key))
  }

  /** The server has answered an attempt with the key with success. */
  ghost predicate Reported(s: System, key: nat) {
    exists a :: a in s.answers && a.0 < |s.sent| && s.sent[a.0].key == key && a.1.Ok?
  }

  lemma StaysReported(s: System, t: System, key: nat)
    requires Reported(s, key) && s.answers <= t.answers && s.sent <= t.sent
    ensures Reported(t, key)
  {
    var a :| a in s.answers && a.0 < |s.sent| && s.sent[a.0].key == key && a.1.Ok?;
    assert a in t.answers && t.sent[a.0] == s.sent[a.0];
  }

  lemma SendKeepsOneCopy(s: System, path: string, body: string)
    requires Invariant(s) && OneCopy(s)
    ensures OneCopy(Next(s, Send(path, body)))
  {
    var t := Next(s, Send(path, body));
    forall q | q in s.network ensures q.attempt < |s.sent| {
      assert q in s.sent;
    }
    forall e | e in t.db.effects ensures Reported(t, e.key) {
      StaysReported(s, t, e.key);
    }
  }

  lemma DeliverKeepsOneCopy(s: System, q: Request, d: Decision)
    requires Invariant(s) && OneCopy(s) && q in s.network
    ensures OneCopy(Next(s, Deliver(q, d)))
  {
    var t := Next(s, Deliver(q, d));
    var outcome := Handled(s.db, q, d).1;
    HandlingKeepsRecord(s.db, q, d);
    assert q in s.sent && s.sent[q.attempt] == q;
    forall other | other in s.network && other.attempt == q.attempt ensures other == q {
      assert other in s.sent;
    }
    hide Invariant, Handled;
    assert (q.attempt, outcome) in t.answers;
    forall e | e in t.db.effects ensures Reported(t, e.key) {
      if e in s.db.effects {
        StaysReported(s, t, e.key);
      }
    }
  }

  lemma NothingAnswered(s: System, step: Step)
    requires OneCopy(s) && Enabled(s, step) && (step.Lose? || step.Settle? || step.Discard?)
    ensures OneCopy(Next(s, step))
  {
    forall e | e in s.db.effects ensures Reported(Next(s, step), e.key) {
      StaysReported(s, Next(s, step), e.key);
    }
  }

  lemma PlainStepKeepsOneCopy(s: System, step: Step)
    requires Invariant(s) && OneCopy(s) && Plain(s, step)
    ensures OneCopy(Next(s, step))
  {
    match step
    case Send(path, body) => SendKeepsOneCopy(s, path, body);
    case Deliver(q, d) => DeliverKeepsOneCopy(s, q, d);
    case Duplicate(_) =>
    case Lose(_) => NothingAnswered(s, step);
    case Settle(_, _) => NothingAnswered(s, step);
    case Discard(_, _) => NothingAnswered(s, step);
  }

  lemma {:induction false} PlainRunsKeep(s: System, steps: seq<Step>, t: System)
    requires Invariant(s) && OneCopy(s) && PlainRun(s, steps, t)
    ensures Invariant(t) && OneCopy(t)
    decreases |steps|
  {
    if steps != [] {
      StepKeepsInvariant(s, steps[0]);
      PlainStepKeepsOneCopy(s, steps[0]);
      PlainRunsKeep(Next(s, steps[0]), steps[1..], t);
    }
  }

  lemma DroppedIsAbandoned(s: System, attempt: nat, outcome: Outcome)
    requires Invariant(s) && UnderWay(s, attempt) && (outcome.Ok? || Definitive(outcome))
    requires Enabled(s, Settle(attempt, outcome))
    ensures Abandoned(Next(s, Settle(attempt, outcome)), s.sent[attempt].key)
  {
    var t := Next(s, Settle(attempt, outcome));
    forall path | path in t.pending ensures t.pending[path].key != s.sent[attempt].key {
      assert Fits(path, s.pending[path], s.sent);
    }
  }

  /** A definitive rejection of a key sent only once answers the only copy there ever was. */
  lemma SentOnceIsDead(s: System, attempt: nat, outcome: Outcome)
    requires Invariant(s) && OneCopy(s) && Drops(s, attempt, outcome) && SentOnce(s.sent, attempt)
    ensures Dead(Next(s, Settle(attempt, outcome)), s.sent[attempt].key)
  {
    var t := Next(s, Settle(attempt, outcome));
    var key := s.sent[attempt].key;
    StepKeepsInvariant(s, Settle(attempt, outcome));
    DroppedIsAbandoned(s, attempt, outcome);
    forall q | q in t.network ensures q.key != key {
      assert q in s.sent;
    }
    assert !Reported(s, key);
    if MayStillTakeEffect(t, key) {
      var steps, u :| Reaches(t, steps, u) && TakesEffect(t, u, key);
      AbandonedKeyIsDead(t, steps, u, key);
    }
  }

  /** The client's state is determined by what it has seen. */
  lemma {:induction false} SameHistorySameClient(
      s: System, steps: seq<Step>, t: System, u: System, others: seq<Step>, v: System)
    requires PlainRun(s, steps, t) && PlainRun(u, others, v) && SameClient(s, u)
    requires History(s, steps) == History(u, others)
    ensures SameClient(t, v)
    decreases |steps| + |others|
  {
    if steps != [] && !Noticed(s, steps[0]) {
      assert History(s, steps) == History(Next(s, steps[0]), steps[1..]);
      SameHistorySameClient(Next(s, steps[0]), steps[1..], t, u, others, v);
    } else if others != [] && !Noticed(u, others[0]) {
      assert History(u, others) == History(Next(u, others[0]), others[1..]);
      SameHistorySameClient(s, steps, t, Next(u, others[0]), others[1..], v);
    } else if steps != [] {
      assert History(s, steps)[0] == steps[0] && History(u, others)[0] == others[0];
      assert History(Next(s, steps[0]), steps[1..]) == History(s, steps)[1..];
      assert History(Next(u, others[0]), others[1..]) == History(u, others)[1..];
      SameHistorySameClient(Next(s, steps[0]), steps[1..], t, Next(u, others[0]), others[1..], v);
    } else {
      assert History(u, others) == [];
    }
  }

  // A run in which no copy that carries the key arrives looks the same to the client.

  /** `u` is `s` with everything under way that was ever sent with the key, and nothing of it received. */
  ghost predicate Held(s: System, u: System, key: nat) {
    && SameClient(s, u)
    && (forall q: Request :: q.key != key ==> u.network[q] == s.network[q])
    && (forall q :: q in s.sent && q.key == key ==> q in u.network)
    && (forall id: (string, nat) :: id.1 == key ==> id !in u.db.table)
    && (forall id: (string, nat) :: id.1 != key ==> (id in u.db.table <==> id in s.db.table))
    && (forall id: (string, nat) :: id.1 != key && id in s.db.table ==> u.db.table[id] == s.db.table[id])
    && (forall a :: a in s.answers ==> a.0 < |s.sent| && (s.sent[a.0].key != key ==> a in u.answers))
  }

  /** What the held-back run does where the other takes `step`. */
  function Mimicked(s: System, step: Step, key: nat): (r: seq<Step>) {
    match step
    case Deliver(q, _) => if q.key == key then [] else [step]
    case Lose(q) => if q.key == key then [] else [step]
    case Settle(attempt, _) => if UnderWay(s, attempt) then [step] else []
    case _ => [step]
  }

  lemma IgnoreDelivery(s: System, q: Request, d: Decision, u: System)
    requires Invariant(s) && Held(s, u, q.key) && q in s.network
    ensures Held(Next(s, Deliver(q, d)), u, q.key)
  {
    assert q in s.sent;
    var t := Next(s, Deliver(q, d));
    forall id: (string, nat) | id.1 != q.key
      ensures (id in u.db.table <==> id in t.db.table) && (id in t.db.table ==> u.db.table[id] == t.db.table[id])
    {
      assert id in t.db.table <==> id in s.db.table;
    }
  }

  lemma SameHandling(db: Database, other: Database, q: Request, d: Decision, key: nat)
    requires q.key != key
    requires forall id: (string, nat) :: id.1 == key ==> id !in other.table
    requires forall id: (string, nat) :: id.1 != key ==> (id in other.table <==> id in db.table)
    requires forall id: (string, nat) :: id.1 != key && id in db.table ==> other.table[id] == db.table[id]
    ensures Handled(other, q, d).1 == Handled(db, q, d).1
    ensures forall id: (string, nat) :: id.1 == key ==> id !in Handled(other, q, d).0.table
    ensures forall id: (string, nat) :: id.1 != key ==> (id in Handled(other, q, d).0.table <==> id in Handled(db, q, d).0.table)
    ensures forall id: (string, nat) :: id.1 != key && id in Handled(db, q, d).0.table ==>
      Handled(other, q, d).0.table[id] == Handled(db, q, d).0.table[id]
  {
    assert (q.path, q.key).1 != key;
  }

  lemma MimicDelivery(s: System, q: Request, d: Decision, u: System, key: nat)
    requires Invariant(s) && Held(s, u, key) && q in s.network && q.key != key
    ensures q in u.network && Held(Next(s, Deliver(q, d)), Next(u, Deliver(q, d)), key)
  {
    assert u.network[q] == s.network[q];
    assert q in s.sent;
    SameHandling(s.db, u.db, q, d, key);
    hide Handled, Invariant, Recorded;
  }

  lemma MimicLoss(s: System, q: Request, u: System, key: nat)
    requires Invariant(s) && Held(s, u, key) && q in s.network
    ensures q.key == key ==> Held(Next(s, Lose(q)), u, key)
    ensures q.key != key ==> q in u.network && Held(Next(s, Lose(q)), Next(u, Lose(q)), key)
  {
    assert q.key != key ==> u.network[q] == s.network[q];
  }

  lemma MimicSettlement(s: System, attempt: nat, outcome: Outcome, u: System, key: nat)
    requires Invariant(s) && Held(s, u, key) && Plain(s, Settle(attempt, outcome)) && UnderWay(s, attempt)
    requires s.sent[attempt].key == key ==> !outcome.Ok? && !Definitive(outcome)
    ensures Plain(u, Settle(attempt, outcome)) && Noticed(u, Settle(attempt, outcome))
    ensures Held(Next(s, Settle(attempt, outcome)), Next(u, Settle(attempt, outcome)), key)
  {
  }

  lemma MimicSend(s: System, path: string, body: string, u: System, key: nat)
    requires Invariant(s) && Held(s, u, key)
    ensures Held(Next(s, Send(path, body)), Next(u, Send(path, body)), key)
  {
  }

  lemma {:induction false} AbandonedForGood(s: System, steps: seq<Step>, t: System, key: nat)
    requires Invariant(s) && PlainRun(s, steps, t) && Abandoned(s, key)
    ensures Abandoned(t, key)
    decreases |steps|
  {
    if steps != [] {
      AbandonedStays(s, steps[0], key);
      StepKeepsInvariant(s, steps[0]);
      AbandonedForGood(Next(s, steps[0]), steps[1..], t, key);
    }
  }

  lemma MimicStep(s: System, step: Step, u: System, key: nat)
    requires Invariant(s) && Held(s, u, key) && Plain(s, step)
    requires step.Settle? && UnderWay(s, step.attempt) && s.sent[step.attempt].key == key ==>
      !step.outcome.Ok? && !Definitive(step.outcome)
    ensures Mimicked(s, step, key) == [] ==> Held(Next(s, step), u, key) && !Noticed(s, step)
    ensures Mimicked(s, step, key) != [] ==>
      Plain(u, step) && Held(Next(s, step), Next(u, step), key) && (Noticed(u, step) <==> Noticed(s, step))
  {
    match step
    case Send(path, body) => MimicSend(s, path, body, u, key);
    case Deliver(q, d) =>
      if q.key == key {
        IgnoreDelivery(s, q, d, u);
      } else {
        MimicDelivery(s, q, d, u, key);
      }
    case Lose(q) => MimicLoss(s, q, u, key);
    case Settle(attempt, outcome) =>
      if UnderWay(s, attempt) {
        MimicSettlement(s, attempt, outcome, u, key);
      }
    case _ =>
  }

  /** Any run after which the client still holds the key has a twin in which nothing sent with the key has arrived. */
  lemma {:induction false} HoldBack(s: System, steps: seq<Step>, t: System, u: System, key: nat)
    returns (others: seq<Step>, v: System)
    requires Invariant(s) && Held(s, u, key) && PlainRun(s, steps, t)
    requires !Abandoned(t, key)
    ensures PlainRun(u, others, v) && Held(t, v, key) && History(u, others) == History(s, steps)
    decreases |steps|
  {
    if steps == [] {
      return [], u;
    }
    var step, rest, next := steps[0], steps[1..], Next(s, steps[0]);
    StepKeepsInvariant(s, step);
    if Abandoned(next, key) {
      AbandonedForGood(next, rest, t, key);
      assert false;
    }
    if step.Settle? && UnderWay(s, step.attempt) && (step.outcome.Ok? || Definitive(step.outcome)) {
      DroppedIsAbandoned(s, step.attempt, step.outcome);
    }
    MimicStep(s, step, u, key);
    hide Held, Invariant, Next, Plain, Noticed;
    if Mimicked(s, step, key) == [] {
      others, v := HoldBack(next, rest, t, u, key);
    } else {
      var more;
      more, v := HoldBack(next, rest, t, Next(u, step), key);
      others := [step] + more;
      assert others[1..] == more;
    }
  }

  lemma {:induction false} PlainRunsCompose(s: System, first: seq<Step>, t: System, second: seq<Step>, u: System)
    requires PlainRun(s, first, t) && PlainRun(t, second, u)
    ensures PlainRun(s, first + second, u) && History(s, first + second) == History(s, first) + History(t, second)
    decreases |first|
  {
    if first == [] {
      assert first + second == second;
    } else {
      PlainRunsCompose(Next(s, first[0]), first[1..], t, second, u);
      assert (first + second)[1..] == first[1..] + second;
    }
  }

  lemma NothingHeldAtFirst(key: nat)
    ensures Invariant(START) && OneCopy(START) && Held(START, START, key)
  {
  }

  lemma KeyOfEntry(s: System, attempt: nat)
    requires Invariant(s) && UnderWay(s, attempt)
    ensures !Abandoned(s, s.sent[attempt].key)
  {
    var path := s.sent[attempt].path;
    assert Fits(path, s.pending[path], s.sent);
  }

  lemma RunOfOne(s: System, step: Step)
    requires Plain(s, step) && !Noticed(s, step)
    ensures PlainRun(s, [step], Next(s, step)) && History(s, [step]) == []
  {
    assert [step][1..] == [];
    assert PlainRun(Next(s, step), [], Next(s, step));
    assert History(Next(s, step), []) == [];
  }

  lemma EarlierCopyMayRun(v: System, attempt: nat, earlier: nat, outcome: Outcome)
    requires Invariant(v) && UnderWay(v, attempt) && Definitive(outcome)
    requires earlier < |v.sent| && earlier != attempt && v.sent[earlier].key == v.sent[attempt].key
    requires v.sent[attempt] in v.network && v.sent[earlier] in v.network
    requires forall id :: id in v.db.table ==> id.1 != v.sent[attempt].key
    ensures var turnAway := Deliver(v.sent[attempt], TurnedAway(outcome.status));
      && Plain(v, turnAway) && Drops(Next(v, turnAway), attempt, outcome)
      && MayStillTakeEffect(Next(Next(v, turnAway), Settle(attempt, outcome)), v.sent[attempt].key)
  {
    var turnAway := Deliver(v.sent[attempt], TurnedAway(outcome.status));
    var u := Next(v, turnAway);
    StepKeepsInvariant(v, turnAway);
    assert v.sent[earlier].attempt == earlier && v.sent[attempt].attempt == attempt;
    DroppedIsAbandoned(u, attempt, outcome);
    StepKeepsInvariant(u, Settle(attempt, outcome));
    assert v.sent[earlier] in Next(u, Settle(attempt, outcome)).network;
    DroppedKeyCanRunExactlyWhileUnderWay(Next(u, Settle(attempt, outcome)), v.sent[attempt].key);
  }

  /** A twin of the run in which nothing sent with the key has arrived. */
  lemma SlowTwin(steps: seq<Step>, s: System, attempt: nat) returns (others: seq<Step>, v: System)
    requires PlainRun(START, steps, s) && UnderWay(s, attempt)
    ensures PlainRun(START, others, v) && History(START, others) == History(START, steps)
    ensures Invariant(v) && Held(s, v, s.sent[attempt].key)
  {
    NothingHeldAtFirst(s.sent[attempt].key);
    PlainRunsKeep(START, steps, s);
    KeyOfEntry(s, attempt);
    hide Next, Invariant, OneCopy, PlainRun, History, Abandoned, Held;
    others, v := HoldBack(START, steps, s, START, s.sent[attempt].key);
    PlainRunsKeep(START, others, v);
  }

  /**
    If the key was sent before, the same client may be looking at a run in which that earlier copy
    is merely slow: the rejection answered this attempt only.
  */
  lemma SentAgainMayBeAlive(steps: seq<Step>, s: System, attempt: nat, outcome: Outcome)
    returns (others: seq<Step>, u: System)
    requires PlainRun(START, steps, s) && Drops(s, attempt, outcome) && !SentOnce(s.sent, attempt)
    ensures PlainRun(START, others, u) && History(START, others) == History(START, steps) && Drops(u, attempt, outcome)
    ensures MayStillTakeEffect(Next(u, Settle(attempt, outcome)), s.sent[attempt].key)
  {
    var earlier :| 0 <= earlier < |s.sent| && s.sent[earlier].key == s.sent[attempt].key && earlier != attempt;
    hide Next, Invariant, Plain, PlainRun, History;
    var before, v := SlowTwin(steps, s, attempt);
    assert v.sent[attempt] in v.network && v.sent[earlier] in v.network;
    assert UnderWay(v, attempt);
    hide Held;
    EarlierCopyMayRun(v, attempt, earlier, outcome);
    var turnAway := Deliver(v.sent[attempt], TurnedAway(outcome.status));
    u := Next(v, turnAway);
    RunOfOne(v, turnAway);
    others := before + [turnAway];
    PlainRunsCompose(START, before, v, [turnAway], u);
  }

  /**
    What the client can rely on. When a definitive rejection makes it drop a key, the key is dead,
    whatever the network did, if and only if this was the only time the client had sent it.
  */
  lemma DroppedKeyIsDeadExactlyWhenSentOnce(steps: seq<Step>, s: System, attempt: nat, outcome: Outcome)
    requires PlainRun(START, steps, s) && Drops(s, attempt, outcome)
    ensures DeadAsFarAsSeen(History(START, steps), attempt, outcome, s.sent[attempt].key) <==> SentOnce(s.sent, attempt)
  {
    var key := s.sent[attempt].key;
    if SentOnce(s.sent, attempt) {
      forall others, u |
        PlainRun(START, others, u) && History(START, others) == History(START, steps) && Drops(u, attempt, outcome)
        ensures Dead(Next(u, Settle(attempt, outcome)), key)
      {
        PlainRunsKeep(START, others, u);
        SameHistorySameClient(START, steps, s, START, others, u);
        SentOnceIsDead(u, attempt, outcome);
      }
    } else {
      var others, u := SentAgainMayBeAlive(steps, s, attempt, outcome);
    }
  }

  const SLOW := Request(0, "/p", 0, "a")
  const RETRY := Request(1, "/p", 0, "a")
  const OTHER := Request(2, "/p", 1, "b")

  /** The first copy is slow, the client gives up waiting and retries. */
  lemma RetryAfterTimeout() returns (t: System)
    ensures Reaches(START, [Send("/p", "a"), Settle(0, Error(0)), Send("/p", "a")], t)
    ensures t == System(map["/p" := Pending("a", 0, Some(1))], 1, [SLOW, RETRY], multiset{SLOW, RETRY},
                        Database(map[], []), {}, [])
  {
    var s1 := Next(START, Send("/p", "a"));
    assert s1.sent == [SLOW] && s1.network == multiset{SLOW} && s1.nextKey == 1;
    var s2 := Next(s1, Settle(0, Error(0)));
    assert s2 == s1.(pending := map["/p" := Pending("a", 0, None)]);
    t := Next(s2, Send("/p", "a"));
    assert t.sent == [SLOW, RETRY] && t.network == multiset{SLOW, RETRY};
    RunOfThree(START, Send("/p", "a"), Settle(0, Error(0)), Send("/p", "a"));
  }

  /** The retry is turned away, the entry is dropped, and another body goes out. */
  lemma OtherBodyAfterRejection(s: System) returns (t: System)
    requires s == System(map["/p" := Pending("a", 0, Some(1))], 1, [SLOW, RETRY], multiset{SLOW, RETRY},
                         Database(map[], []), {}, [])
    ensures Reaches(s, [Deliver(RETRY, TurnedAway(401)), Settle(1, Error(401)), Send("/p", "b")], t)
    ensures t.sent == [SLOW, RETRY, OTHER] && SLOW in t.network && t.db == s.db
  {
    var s1 := Next(s, Deliver(RETRY, TurnedAway(401)));
    assert s1.network == multiset{SLOW} && s1.pending == s.pending && s1.sent == s.sent && s1.db == s.db;
    var s2 := Next(s1, Settle(1, Error(401)));
    assert s2.pending == map[] && s2.sent == s.sent && s2.db == s.db && s2.network == multiset{SLOW};
    t := Next(s2, Send("/p", "b"));
    RunOfThree(s, Deliver(RETRY, TurnedAway(401)), Settle(1, Error(401)), Send("/p", "b"));
  }

  /**
    A definitive rejection drops the entry even when it answered a retry: here the first copy
    of the request is merely slow, the retry is turned away with 401, another body goes out on
    the same path, and then the first request takes effect after all.
  */
  lemma RejectedRetryMayStillTakeEffect() returns (steps: seq<Step>, s: System, last: Step)
    ensures Reaches(START, steps, s) && s.db.effects == [] && Enabled(s, last)
    ensures s.sent == [SLOW, RETRY, OTHER] && SLOW.body != OTHER.body && SLOW.path == OTHER.path
    ensures Next(s, last).db.effects == [EffectOf(SLOW, "done")]
  {
    var first := [Send("/p", "a"), Settle(0, Error(0)), Send("/p", "a")];
    var second := [Deliver(RETRY, TurnedAway(401)), Settle(1, Error(401)), Send("/p", "b")];
    var t := RetryAfterTimeout();
    s := OtherBodyAfterRejection(t);
    steps, last := first + second, Deliver(SLOW, Executes("done"));
    RunsCompose(START, first, t, second, s);
  }

  lemma RunOfThree(s: System, a: Step, b: Step, c: Step)
    requires Enabled(s, a) && Enabled(Next(s, a), b) && Enabled(Next(Next(s, a), b), c)
    ensures Reaches(s, [a, b, c], Next(Next(Next(s, a), b), c))
  {
    var t := Next(Next(Next(s, a), b), c);
    assert Reaches(t, [], t);
    assert [c][1..] == [] && [b, c][1..] == [c] && [a, b, c][1..] == [b, c];
    assert Reaches(Next(Next(s, a), b), [c], t);
    assert Reaches(Next(s, a), [b, c], t);
  }

  lemma {:induction false} RunsCompose(s: System, first: seq<Step>, t: System, second: seq<Step>, u: System)
    requires Reaches(s, first, t) && Reaches(t, second, u)
    ensures Reaches(s, first + second, u)
    decreases |first|
  {
    if first == [] {
      assert first + second == second;
    } else {
      RunsCompose(Next(s, first[0]), first[1..], t, second, u);
      assert (first + second)[1..] == first[1..] + second;
    }
  }
}
