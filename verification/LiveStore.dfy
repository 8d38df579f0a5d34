/** The evidence store as an object, and the recovery of an attempt whose process died. */
module LiveStore {
  import opened Common
  import opened LiveTables

  /** The store went on as the operation says, or refused it and stayed as it was. */
  predicate Follows(before: Database, op: Op, after: Database, error: Option<StoreError>) {
    match Apply(before, op)
    case Ok(db) => after == db && error.None?
    case Refused(e) => after == before && error == Some(e)
  }

  // ---- Calls of an attempt ----------------------------------------------------------------

  predicate BelongsTo(db: Database, invocation: Id, attempt: Id) {
    && invocation in db.intents && db.intents[invocation].turn in db.turns
    && db.turns[db.intents[invocation].turn].attempt == attempt
  }

  function TurnIndexOf(db: Database, invocation: Id): int {
    if invocation in db.intents && db.intents[invocation].turn in db.turns
    then db.turns[db.intents[invocation].turn].index else 0
  }

  /** A call whose outcome nobody recorded. */
  predicate Dangling(db: Database, attempt: Id, invocation: Id) {
    BelongsTo(db, invocation, attempt) && !Observed(db, invocation)
  }

  ghost predicate FirstDangling(db: Database, attempt: Id, invocation: Id) {
    && Dangling(db, attempt, invocation)
    && forall k :: Dangling(db, attempt, k) ==> TurnIndexOf(db, invocation) <= TurnIndexOf(db, k)
  }

  /** The reservation is charged in full, since nothing is known of what was used. */
  function UnknownOutcome(intent: Intent, observedAt: string): Observation {
    var r := intent.reservation;
    Observation(ObservationId(intent.invocation), intent.invocation, OutcomeUnknown, false, r.input, r.output,
                r.total, r.cost, r.timeout, Some("provider_outcome_unknown"), observedAt)
  }

  function UnknownClosing(observedAt: string): Closing {
    Closing("provider_outcome_unknown", "intent_without_observation", observedAt)
  }

  /** The observations of turns that already have their action. */
  function Reusable(db: Database, attempt: Id): set<Observation> {
    set k | k in db.observations && BelongsTo(db, db.observations[k].invocation, attempt)
            && db.turns[db.intents[db.observations[k].invocation].turn].action.Some? :: db.observations[k]
  }

  /** How a recovery ends: as its program says, or stopped after so many writes. */
  datatype Recovery = ClosedUnknown(observation: Observation)
                    | ReuseObserved(observations: seq<Observation>)
                    | RecoveryFailed(error: StoreError)
                    | Interrupted(writes: nat)

  predicate Recorded(db: Database, o: Observation) {
    exists k :: k in db.observations && db.observations[k] == o
  }

  /** It is a call of the attempt, and its turn already has its action. */
  predicate HasActed(db: Database, attempt: Id, invocation: Id) {
    && invocation in db.intents && db.intents[invocation].turn in db.turns
    && var turn := db.turns[db.intents[invocation].turn];
       turn.attempt == attempt && turn.action != None
  }

  /** They are reused in the order of their turns. */
  ghost predicate Reuses(db: Database, attempt: Id, observations: seq<Observation>) {
    && Distinct(observations)
    && (forall o :: o in observations <==> Recorded(db, o) && HasActed(db, attempt, o.invocation))
    && forall i, j :: 0 <= i < j < |observations| ==>
         TurnIndexOf(db, observations[i].invocation) <= TurnIndexOf(db, observations[j].invocation)
  }

  /** Closing an unknown call: the observation is recorded, then the attempt closed, each by a
      write of its own. */
  predicate ClosesUnknown(before: Database, attempt: Id, invocation: Id, observedAt: string, after: Database,
                          r: Recovery)
    requires invocation in before.intents
  {
    var o := UnknownOutcome(before.intents[invocation], observedAt);
    match Apply(before, AddObservation(o))
    case Refused(e) => after == before && r == RecoveryFailed(e)
    case Ok(db) =>
      || (after == db && r == Interrupted(1))
      || match Apply(db, Close(attempt, UnknownClosing(observedAt)))
         case Refused(e) => after == db && r == RecoveryFailed(e)
         case Ok(db') => after == db' && r in {ClosedUnknown(o), Interrupted(2)}
  }

  /** What one recovery does, wherever it is stopped. */
  ghost predicate Recovers(before: Database, attempt: Id, observedAt: string, after: Database, r: Recovery) {
    || (after == before && r == Interrupted(0))
    || (after == before && (forall k :: !Dangling(before, attempt, k))
        && r.ReuseObserved? && Reuses(before, attempt, r.observations))
    || exists k :: FirstDangling(before, attempt, k) && ClosesUnknown(before, attempt, k, observedAt, after, r)
  }

  class LiveEvaluationStore {
    var db: Database

    constructor ()
      ensures db == EMPTY
    {
      db := EMPTY;
    }

    static method InsertImmutable<K(==), V(==)>(table: map<K, V>, key: K, row: V, admissible: bool)
      returns (table': map<K, V>, error: Option<StoreError>)
      ensures match Inserted(table, key, row, admissible)
              case Ok(t) => table' == t && error.None?
              case Refused(e) => table' == table && error == Some(e)
    {
      if key in table {
        if table[key] != row {
          return table, Some(Conflict);
        }
        return table, None;
      }
      if !admissible {
        return table, Some(Integrity);
      }
      return table[key := row], None;
    }

    method AppendSession(session: string, row: Session) returns (error: Option<StoreError>)
      modifies this
      ensures Follows(old(db), AddSession(session, row), db, error)
    {
      var table;
      table, error := InsertImmutable(db.sessions, session, row, true);
      db := db.(sessions := table);
    }

    method AppendAttempt(session: string, task: string, index: int, createdAt: string)
      returns (error: Option<StoreError>)
      modifies this
      ensures Follows(old(db), AddAttempt(session, task, index, createdAt), db, error)
    {
      var id := AttemptId(session, task, index);
      if id in db.attempts {
        var a := db.attempts[id];
        if a.session != session || a.task != task || a.index != index || a.createdAt != createdAt {
          return Some(Conflict);
        }
        return None;
      }
      var table;
      table, error := InsertImmutable(db.attempts, id, Attempt(session, task, index, createdAt, None),
                                      session in db.sessions);
      db := db.(attempts := table);
    }

    method AppendTurn(attempt: Id, index: int, createdAt: string) returns (error: Option<StoreError>)
      modifies this
      ensures Follows(old(db), AddTurn(attempt, index, createdAt), db, error)
    {
      var id := TurnId(attempt, index);
      if id in db.turns {
        var t := db.turns[id];
        if t.attempt != attempt || t.index != index || t.createdAt != createdAt {
          return Some(Conflict);
        }
        return None;
      }
      var table;
      table, error := InsertImmutable(db.turns, id, Turn(attempt, index, createdAt, None),
                                      attempt in db.attempts);
      db := db.(turns := table);
    }

    method RecordNormalizedAction(turn: Id, action: Id) returns (error: Option<StoreError>)
      modifies this
      ensures Follows(old(db), RecordAction(turn, action), db, error)
    {
      if turn !in db.turns {
        return Some(NotFound);
      }
      var existing := db.turns[turn].action;
      if existing.Some? && existing.value != action {
        return Some(Conflict);
      }
      if existing.None? {
        db := db.(turns := db.turns[turn := db.turns[turn].(action := Some(action))]);
      }
      return None;
    }

    method AppendIntent(payload: Intent) returns (error: Option<StoreError>)
      modifies this
      ensures Follows(old(db), AddIntent(payload), db, error)
    {
      if !payload.Valid() {
        return Some(Invalid);
      }
      var table;
      table, error := InsertImmutable(db.intents, payload.invocation, payload, payload.turn in db.turns);
      db := db.(intents := table);
    }

    method AppendObservation(payload: Observation) returns (error: Option<StoreError>)
      modifies this
      ensures Follows(old(db), AddObservation(payload), db, error)
    {
      if !payload.Valid() {
        return Some(Invalid);
      }
      var table;
      table, error := InsertImmutable(db.observations, payload.id, payload,
                                      payload.invocation in db.intents && !Observed(db, payload.invocation));
      db := db.(observations := table);
    }

    method AppendDraftArtifact(payload: Artifact) returns (error: Option<StoreError>)
      modifies this
      ensures Follows(old(db), AddArtifact(payload), db, error)
    {
      if !payload.Valid() {
        return Some(Invalid);
      }
      var table;
      table, error := InsertImmutable(db.artifacts, payload.id, payload,
        && payload.attempt in db.attempts && payload.producer in db.intents
        && forall k :: k in db.artifacts ==>
             db.artifacts[k].attempt != payload.attempt || db.artifacts[k].producer != payload.producer);
      db := db.(artifacts := table);
    }

    method AppendCandidateBinding(payload: Binding) returns (error: Option<StoreError>)
      modifies this
      ensures Follows(old(db), AddBinding(payload), db, error)
    {
      var table;
      table, error := InsertImmutable(db.bindings, payload.id, payload,
        && payload.attempt in db.attempts && payload.artifact in db.artifacts
        && forall k :: k in db.bindings ==> db.bindings[k].artifact != payload.artifact);
      db := db.(bindings := table);
    }

    method AppendBudgetEvent(event: Event) returns (error: Option<StoreError>)
      modifies this
      ensures Follows(old(db), AddEvent(event), db, error)
    {
      if !event.entry.NonNegative() {
        return Some(Invalid);
      }
      if HasEvent(db.events, event.id) {
        if event !in db.events {
          return Some(Conflict);
        }
        return None;
      }
      if event.attempt !in db.attempts {
        return Some(Integrity);
      }
      db := db.(events := db.events + [event]);
      return None;
    }

    method CloseAttempt(attempt: Id, closing: Closing) returns (error: Option<StoreError>)
      modifies this
      ensures Follows(old(db), Close(attempt, closing), db, error)
    {
      if attempt !in db.attempts {
        return Some(NotFound);
      }
      var row := db.attempts[attempt];
      if row.closing.Some? {
        if row.closing.value.outcome != closing.outcome || row.closing.value.reason != closing.reason {
          return Some(Conflict);
        }
        return None;
      }
      db := db.(attempts := db.attempts[attempt := row.(closing := Some(closing))]);
      return None;
    }

    /** The budget events of one attempt, in the order in which they were written. */
    method BudgetEvents(attempt: Id) returns (events: seq<Event>)
      ensures events == EventsOf(db.events, attempt)
    {
      events := [];
      for i := 0 to |db.events|
        invariant events == EventsOf(db.events[..i], attempt)
      {
        assert db.events[..i + 1] == db.events[..i] + [db.events[i]];
        EventsOfAppended(db.events[..i], db.events[i], attempt);
        if db.events[i].attempt == attempt {
          events := events + [db.events[i]];
        }
      }
      assert db.events[..|db.events|] == db.events;
    }

    /** The calls of an attempt in the order of their turns. */
    method IntentRows(attempt: Id) returns (rows: seq<Id>)
      ensures forall k :: k in rows <==> BelongsTo(db, k, attempt)
      ensures forall i, j :: 0 <= i < j < |rows| ==> rows[i] != rows[j]
      ensures forall i, j :: 0 <= i < j < |rows| ==> TurnIndexOf(db, rows[i]) <= TurnIndexOf(db, rows[j])
    {
      var left := set k | k in db.intents && BelongsTo(db, k, attempt);
      rows := [];
      while left != {}
        invariant forall k :: BelongsTo(db, k, attempt) <==> k in left || k in rows
        invariant forall i, j :: 0 <= i < j < |rows| ==> rows[i] != rows[j]
        invariant forall k :: k in rows ==> k !in left
        invariant forall k, i :: k in left && 0 <= i < |rows| ==> TurnIndexOf(db, rows[i]) <= TurnIndexOf(db, k)
        invariant forall i, j :: 0 <= i < j < |rows| ==> TurnIndexOf(db, rows[i]) <= TurnIndexOf(db, rows[j])
        decreases |left|
      {
        hide BelongsTo, TurnIndexOf;
        ghost var least := EarliestOf(db, left);
        var k :| k in left && forall j :: j in left ==> TurnIndexOf(db, k) <= TurnIndexOf(db, j);
        left := left - {k};
        rows := rows + [k];
      }
    }

    /** The reusable observations in the order of their turns. */
    method ReusableRows(attempt: Id) returns (rows: seq<Observation>)
      ensures Reuses(db, attempt, rows)
    {
      hide TurnIndexOf, Reusable, Sorting;
      var left := Reusable(db, attempt);
      rows := [];
      NothingSorted(db, left);
      while left != {}
        invariant Sorting(db, left, rows, Reusable(db, attempt))
        decreases |left|
      {
        ghost var least := EarliestObserved(db, left);
        var o :| o in left && forall p :: p in left ==>
                                TurnIndexOf(db, o.invocation) <= TurnIndexOf(db, p.invocation);
        NextSorted(db, left, rows, Reusable(db, attempt), o);
        left := left - {o};
        rows := rows + [o];
      }
      AllSorted(db, rows, attempt);
    }

    /** Record that nothing is known of a call, then close the attempt. */
    method CloseUnknown(attempt: Id, row: Id, observedAt: string) returns (r: Recovery)
      requires row in db.intents
      modifies this
      ensures ClosesUnknown(old(db), attempt, row, observedAt, db, r)
      // The call is charged with all that was set aside for it, as if it had timed out.
      ensures r.ClosedUnknown? ==>
                var o, reserved := r.observation, old(db.intents)[row].reservation;
                && o.invocation == old(db.intents)[row].invocation && o.status == OutcomeUnknown
                && !o.available && o.observedAt == observedAt
                && o.classification == Some("provider_outcome_unknown")
                && o.input == reserved.input && o.output == reserved.output && o.total == reserved.total
                && o.cost == reserved.cost && o.latency == reserved.timeout
                && attempt in db.attempts && db.attempts[attempt].closing.Some?
                && db.attempts[attempt].closing.value.outcome == "provider_outcome_unknown"
                && db.attempts[attempt].closing.value.reason == "intent_without_observation"
    {
      var o := UnknownOutcome(db.intents[row], observedAt);
      var error := AppendObservation(o);
      if error.Some? {
        return RecoveryFailed(error.value);
      }
      if * {
        return Interrupted(1);
      }
      error := CloseAttempt(attempt, UnknownClosing(observedAt));
      if error.Some? {
        return RecoveryFailed(error.value);
      }
      if * {
        return Interrupted(2);
      }
      return ClosedUnknown(o);
    }

    /** Close the first call without an outcome as unknown, and never call the provider. */
    method RecoverAttempt(attempt: Id, observedAt: string) returns (r: Recovery)
      modifies this
      ensures Recovers(old(db), attempt, observedAt, db, r)
    {
      if * {
        return Interrupted(0);
      }
      var rows := IntentRows(attempt);
      hide TurnIndexOf, Apply, Observed, Reuses, ClosesUnknown;
      var i := 0;
      while i < |rows|
        invariant 0 <= i <= |rows|
        invariant db == old(db)
        invariant forall j :: 0 <= j < i ==> Observed(db, rows[j])
      {
        if !Observed(db, rows[i]) {
          ghost var k := rows[i];
          assert Dangling(db, attempt, k);
          forall j | Dangling(db, attempt, j)
            ensures TurnIndexOf(db, k) <= TurnIndexOf(db, j)
          {
            var n :| 0 <= n < |rows| && rows[n] == j;
          }
          assert FirstDangling(db, attempt, k);
          r := CloseUnknown(attempt, rows[i], observedAt);
          return;
        }
        i := i + 1;
      }
      var reused := ReusableRows(attempt);
      r := ReuseObserved(reused);
    }
  }

  lemma {:induction false} EarliestOf(db: Database, calls: set<Id>) returns (k: Id)
    requires calls != {}
    ensures k in calls && forall j :: j in calls ==> TurnIndexOf(db, k) <= TurnIndexOf(db, j)
    decreases |calls|
  {
    hide TurnIndexOf;
    k :| k in calls;
    if calls != {k} {
      var j := EarliestOf(db, calls - {k});
      if TurnIndexOf(db, j) < TurnIndexOf(db, k) {
        k := j;
      }
    }
  }

  lemma EarliestObserved(db: Database, rows: set<Observation>) returns (o: Observation)
    requires rows != {}
    ensures o in rows && forall p :: p in rows ==> TurnIndexOf(db, o.invocation) <= TurnIndexOf(db, p.invocation)
  {
    hide TurnIndexOf;
    var calls := set p | p in rows :: p.invocation;
    var some :| some in rows;
    assert some.invocation in calls;
    var k := EarliestOf(db, calls);
    o :| o in rows && o.invocation == k;
  }

  /** Rows already sorted out of `all`: none is after one that is left. */
  ghost predicate Sorting(db: Database, left: set<Observation>, rows: seq<Observation>, all: set<Observation>) {
    && left + (set o | o in rows) == all && Distinct(rows) && (forall o :: o in rows ==> o !in left)
    && (forall o, i :: o in left && 0 <= i < |rows| ==>
          TurnIndexOf(db, rows[i].invocation) <= TurnIndexOf(db, o.invocation))
    && forall i, j :: 0 <= i < j < |rows| ==>
         TurnIndexOf(db, rows[i].invocation) <= TurnIndexOf(db, rows[j].invocation)
  }

  lemma NothingSorted(db: Database, all: set<Observation>)
    ensures Sorting(db, all, [], all)
  {
  }

  lemma NextSorted(db: Database, left: set<Observation>, rows: seq<Observation>, all: set<Observation>,
                   o: Observation)
    requires Sorting(db, left, rows, all) && o in left
    requires forall p :: p in left ==> TurnIndexOf(db, o.invocation) <= TurnIndexOf(db, p.invocation)
    ensures Sorting(db, left - {o}, rows + [o], all)
  {
    hide TurnIndexOf;
    assert (set p | p in rows + [o]) == (set p | p in rows) + {o};
  }

  lemma AllSorted(db: Database, rows: seq<Observation>, attempt: Id)
    requires Sorting(db, {}, rows, Reusable(db, attempt))
    ensures Reuses(db, attempt, rows)
  {
    hide TurnIndexOf, Reusable;
    ReusableMeans(db, attempt);
    assert forall o :: o in rows <==> o in Reusable(db, attempt);
  }

  lemma ReusableMeans(db: Database, attempt: Id)
    ensures forall o :: o in Reusable(db, attempt) <==> Recorded(db, o) && HasActed(db, attempt, o.invocation)
  {
  }
}
