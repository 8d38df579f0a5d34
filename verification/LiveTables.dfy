/** The tables of the append-only evidence store of live evaluation attempts.

    Tables are maps and the budget log a sequence; the schema's keys, unique columns and
    foreign keys are spelled out.  A stable identifier is a digest of a prefix and its
    material; digests are taken to be injective, so identifiers form a free algebra and a
    constructor stands for each prefix. */
module LiveTables {
  import opened Common

  datatype Consumption = ActionUse | ToolUse | NoProgress

  datatype Id =
    | Text(name: string)
    | AttemptId(session: string, task: string, index: int)
    | TurnId(attempt: Id, turn: int)
    | InvocationId(turnId: Id, sequence: int)
    | ObservationId(invocation: Id)
    | ReservedId(invocation: Id)
    | SettledId(invocation: Id)
    | ConsumedId(what: Consumption, attempt: Id, key: Id)
    | ArtifactId(attempt: Id, content: Hash)
    | ActionDigest(step: int, kind: ActionType, proposal: Hash)
    | ToolRequestId(step: int, tool: Tool)
    | EvidenceId(request: Id)
    | BindingDigest(artifact: Id, observation: Id, action: Id, evidence: seq<Hash>)

  datatype Session = Session(suite: string, tenant: string, config: Hash, createdAt: string)

  datatype Closing = Closing(outcome: string, reason: string, completedAt: string)

  datatype Attempt = Attempt(session: string, task: string, index: int, createdAt: string,
                             closing: Option<Closing>)

  datatype Turn = Turn(attempt: Id, index: int, createdAt: string, action: Option<Id>)

  datatype Reservation = Reservation(invocation: Id, input: int, output: int, total: int, cost: int,
                                     wall: int, timeout: int)

  /** `digest` stands for the rest of the payload. */
  datatype Intent = Intent(invocation: Id, turn: Id, reservation: Reservation, digest: Hash) {
    predicate Valid() {
      reservation.total == reservation.input + reservation.output && reservation.timeout <= reservation.wall
    }
  }

  datatype Status = Completed | RetryableError | OutcomeUnknown | Malformed | Denied

  datatype Observation = Observation(id: Id, invocation: Id, status: Status, available: bool, input: int,
                                     output: int, total: int, cost: int, latency: int,
                                     classification: Option<string>, observedAt: string) {
    predicate Valid() {
      && total == input + output
      && if status.Completed? then available && classification.None? else classification.Some?
    }
  }

  datatype Artifact = Artifact(id: Id, attempt: Id, producer: Id, content: Hash, evidence: seq<Hash>) {
    predicate Valid() { forall i, j :: 0 <= i < j < |evidence| ==> evidence[i] != evidence[j] }
  }

  datatype Binding = Binding(id: Id, attempt: Id, artifact: Id, invocation: Id, observation: Id, action: Id,
                             content: Hash, evidence: seq<Hash>)

  /** What a provider call counts for. */
  datatype Posting = Posting(input: int, output: int, total: int, cost: int, retry: int)

  datatype Entry =
    | Reserved(posting: Posting, wall: int, timeout: int)
    | Settled(posting: Posting, latency: int)
    | Consumed(what: Consumption, count: int)
  {
    predicate NonNegative() {
      match this
      case Reserved(p, w, t) => p.input >= 0 && p.output >= 0 && p.total >= 0 && p.cost >= 0 && p.retry >= 0
                                && w >= 0 && t >= 0
      case Settled(p, l) => p.input >= 0 && p.output >= 0 && p.total >= 0 && p.cost >= 0 && p.retry >= 0
                            && l >= 0
      case Consumed(_, n) => n >= 0
    }
  }

  datatype Event = Event(id: Id, attempt: Id, invocation: Option<Id>, entry: Entry, createdAt: string)

  datatype Database = Database(sessions: map<string, Session>, attempts: map<Id, Attempt>,
                               turns: map<Id, Turn>, intents: map<Id, Intent>,
                               observations: map<Id, Observation>, artifacts: map<Id, Artifact>,
                               bindings: map<Id, Binding>, events: seq<Event>)

  const EMPTY: Database := Database(map[], map[], map[], map[], map[], map[], map[], [])

  datatype StoreError = Conflict | Integrity | Invalid | NotFound

  // ---- The operations, as functions of the database ------------------------------------

  datatype Op =
    | AddSession(session: string, row: Session)
    | AddAttempt(session: string, task: string, index: int, createdAt: string)
    | AddTurn(attempt: Id, index: int, createdAt: string)
    | RecordAction(turn: Id, action: Id)
    | AddIntent(intent: Intent)
    | AddObservation(observation: Observation)
    | AddArtifact(artifact: Artifact)
    | AddBinding(binding: Binding)
    | AddEvent(event: Event)
    | Close(attempt: Id, closing: Closing)

  /** A row is written once: the same row again is ignored, another one is refused. */
  function Inserted<K(==), V(==)>(table: map<K, V>, key: K, row: V, admissible: bool)
    : Checked<map<K, V>, StoreError>
  {
    if key in table then (if table[key] == row then Ok(table) else Refused(Conflict))
    else if admissible then Ok(table[key := row])
    else Refused(Integrity)
  }

  predicate HasEvent(events: seq<Event>, id: Id) {
    exists i :: 0 <= i < |events| && events[i].id == id
  }

  predicate Observed(db: Database, invocation: Id) {
    exists k :: k in db.observations && db.observations[k].invocation == invocation
  }

  function Apply(db: Database, op: Op): Checked<Database, StoreError> {
    match op
    case AddSession(session, row) =>
      (match Inserted(db.sessions, session, row, true)
       case Ok(t) => Ok(db.(sessions := t))
       case Refused(e) => Refused(e))
    case AddAttempt(session, task, index, createdAt) =>
      var id := AttemptId(session, task, index);
      if id in db.attempts then
        var a := db.attempts[id];
        if a.session == session && a.task == task && a.index == index && a.createdAt == createdAt
        then Ok(db) else Refused(Conflict)
      else if session in db.sessions then
        Ok(db.(attempts := db.attempts[id := Attempt(session, task, index, createdAt, None)]))
      else Refused(Integrity)
    case AddTurn(attempt, index, createdAt) =>
      var id := TurnId(attempt, index);
      if id in db.turns then
        var t := db.turns[id];
        if t.attempt == attempt && t.index == index && t.createdAt == createdAt
        then Ok(db) else Refused(Conflict)
      else if attempt in db.attempts then
        Ok(db.(turns := db.turns[id := Turn(attempt, index, createdAt, None)]))
      else Refused(Integrity)
    case RecordAction(turn, action) =>
      if turn !in db.turns then Refused(NotFound)
      else if db.turns[turn].action == None then
        Ok(db.(turns := db.turns[turn := db.turns[turn].(action := Some(action))]))
      else if db.turns[turn].action == Some(action) then Ok(db)
      else Refused(Conflict)
    case AddIntent(p) =>
      if !p.Valid() then Refused(Invalid) else
      (match Inserted(db.intents, p.invocation, p, p.turn in db.turns)
       case Ok(t) => Ok(db.(intents := t))
       case Refused(e) => Refused(e))
    case AddObservation(o) =>
      if !o.Valid() then Refused(Invalid) else
      (match Inserted(db.observations, o.id, o, o.invocation in db.intents && !Observed(db, o.invocation))
       case Ok(t) => Ok(db.(observations := t))
       case Refused(e) => Refused(e))
    case AddArtifact(a) =>
      if !a.Valid() then Refused(Invalid) else
      (match Inserted(db.artifacts, a.id, a,
                      a.attempt in db.attempts && a.producer in db.intents
                      && forall k :: k in db.artifacts ==>
                           db.artifacts[k].attempt != a.attempt || db.artifacts[k].producer != a.producer)
       case Ok(t) => Ok(db.(artifacts := t))
       case Refused(e) => Refused(e))
    case AddBinding(b) =>
      (match Inserted(db.bindings, b.id, b,
                      b.attempt in db.attempts && b.artifact in db.artifacts
                      && forall k :: k in db.bindings ==> db.bindings[k].artifact != b.artifact)
       case Ok(t) => Ok(db.(bindings := t))
       case Refused(e) => Refused(e))
    case AddEvent(e) =>
      if !e.entry.NonNegative() then Refused(Invalid)
      else if HasEvent(db.events, e.id) then (if e in db.events then Ok(db) else Refused(Conflict))
      else if e.attempt in db.attempts then Ok(db.(events := db.events + [e]))
      else Refused(Integrity)
    case Close(attempt, closing) =>
      if attempt !in db.attempts then Refused(NotFound)
      else
        var a := db.attempts[attempt];
        if a.closing.None? then Ok(db.(attempts := db.attempts[attempt := a.(closing := Some(closing))]))
        else if a.closing.value.outcome == closing.outcome && a.closing.value.reason == closing.reason
        then Ok(db) else Refused(Conflict)
  }

  /** A run of operations, of which the refused ones change nothing. */
  function ApplyAll(db: Database, ops: seq<Op>): Database {
    if ops == [] then db
    else
      var before := ApplyAll(db, ops[..|ops| - 1]);
      match Apply(before, ops[|ops| - 1])
      case Ok(after) => after
      case Refused(_) => before
  }

  // ---- Integrity over every run ---------------------------------------------------------

  ghost predicate AttemptsSound(sessions: map<string, Session>, attempts: map<Id, Attempt>) {
    forall k :: k in attempts ==>
      && k == AttemptId(attempts[k].session, attempts[k].task, attempts[k].index)
      && attempts[k].session in sessions
  }

  ghost predicate TurnsSound(attempts: map<Id, Attempt>, turns: map<Id, Turn>) {
    forall k :: k in turns ==> k == TurnId(turns[k].attempt, turns[k].index) && turns[k].attempt in attempts
  }

  ghost predicate IntentsSound(turns: map<Id, Turn>, intents: map<Id, Intent>) {
    forall k :: k in intents ==> intents[k].invocation == k && intents[k].turn in turns && intents[k].Valid()
  }

  ghost predicate ObservationsSound(intents: map<Id, Intent>, observations: map<Id, Observation>) {
    && (forall k :: k in observations ==> observations[k].id == k && observations[k].invocation in intents)
    && (forall j, k | j in observations && k in observations && j != k ::
          observations[j].invocation != observations[k].invocation)
  }

  ghost predicate ArtifactsSound(attempts: map<Id, Attempt>, intents: map<Id, Intent>,
                                 artifacts: map<Id, Artifact>) {
    && (forall k :: k in artifacts ==>
          artifacts[k].id == k && artifacts[k].attempt in attempts && artifacts[k].producer in intents)
    && (forall j, k | j in artifacts && k in artifacts && j != k ::
          artifacts[j].attempt != artifacts[k].attempt || artifacts[j].producer != artifacts[k].producer)
  }

  ghost predicate BindingsSound(attempts: map<Id, Attempt>, artifacts: map<Id, Artifact>,
                                bindings: map<Id, Binding>) {
    && (forall k :: k in bindings ==>
          bindings[k].id == k && bindings[k].attempt in attempts && bindings[k].artifact in artifacts)
    && (forall j, k | j in bindings && k in bindings && j != k :: bindings[j].artifact != bindings[k].artifact)
  }

  ghost predicate EventsSound(attempts: map<Id, Attempt>, events: seq<Event>) {
    && (forall i :: 0 <= i < |events| ==> events[i].attempt in attempts)
    && (forall i, j :: 0 <= i < j < |events| ==> events[i].id != events[j].id)
  }

  /** Every reference has its parent and every row of a unique column is alone. */
  ghost predicate Sound(db: Database) {
    && AttemptsSound(db.sessions, db.attempts) && TurnsSound(db.attempts, db.turns)
    && IntentsSound(db.turns, db.intents) && ObservationsSound(db.intents, db.observations)
    && ArtifactsSound(db.attempts, db.intents, db.artifacts)
    && BindingsSound(db.attempts, db.artifacts, db.bindings)
    && EventsSound(db.attempts, db.events)
  }

  /** Attempts are referred to by their keys only. */
  lemma MoreAttempts(db: Database, attempts: map<Id, Attempt>)
    requires Sound(db) && db.attempts.Keys <= attempts.Keys
    ensures TurnsSound(attempts, db.turns) && ArtifactsSound(attempts, db.intents, db.artifacts)
    ensures BindingsSound(attempts, db.artifacts, db.bindings) && EventsSound(attempts, db.events)
  {
    hide AttemptsSound, IntentsSound, ObservationsSound;
  }

  lemma AttemptOpSound(db: Database, op: Op)
    requires op.AddSession? || op.AddAttempt? || op.Close?
    requires Sound(db) && Apply(db, op).Ok?
    ensures Sound(Apply(db, op).value)
  {
    hide AttemptsSound, TurnsSound, IntentsSound, ObservationsSound, ArtifactsSound, BindingsSound, EventsSound, Apply;
    if op.AddSession? {
      SessionOpTouches(db, op);
    } else if op.AddAttempt? {
      OpeningOpTouches(db, op);
    } else {
      CloseOpTouches(db, op);
    }
    MoreAttempts(db, Apply(db, op).value.attempts);
  }

  lemma SessionOpTouches(db: Database, op: Op)
    requires op.AddSession?
    requires AttemptsSound(db.sessions, db.attempts) && Apply(db, op).Ok?
    ensures var db' := Apply(db, op).value;
            && db' == db.(sessions := db'.sessions, attempts := db'.attempts)
            && db.attempts.Keys <= db'.attempts.Keys && AttemptsSound(db'.sessions, db'.attempts)
  {
    hide HasEvent, Observed;
  }

  lemma OpeningOpTouches(db: Database, op: Op)
    requires op.AddAttempt?
    requires AttemptsSound(db.sessions, db.attempts) && Apply(db, op).Ok?
    ensures var db' := Apply(db, op).value;
            && db' == db.(sessions := db'.sessions, attempts := db'.attempts)
            && db.attempts.Keys <= db'.attempts.Keys && AttemptsSound(db'.sessions, db'.attempts)
  {
    hide HasEvent, Observed;
  }

  lemma CloseOpTouches(db: Database, op: Op)
    requires op.Close?
    requires AttemptsSound(db.sessions, db.attempts) && Apply(db, op).Ok?
    ensures var db' := Apply(db, op).value;
            && db' == db.(sessions := db'.sessions, attempts := db'.attempts)
            && db.attempts.Keys <= db'.attempts.Keys && AttemptsSound(db'.sessions, db'.attempts)
  {
    hide HasEvent, Observed;
  }

  lemma TurnOpSound(db: Database, op: Op)
    requires op.AddTurn? || op.RecordAction?
    requires Sound(db) && Apply(db, op).Ok?
    ensures Sound(Apply(db, op).value)
  {
    hide AttemptsSound, ObservationsSound, ArtifactsSound, BindingsSound, EventsSound, HasEvent, Observed;
  }

  lemma CallOpSound(db: Database, op: Op)
    requires op.AddIntent? || op.AddObservation?
    requires Sound(db) && Apply(db, op).Ok?
    ensures Sound(Apply(db, op).value)
  {
    hide AttemptsSound, TurnsSound, BindingsSound, EventsSound, HasEvent;
  }

  lemma ArtifactOpSound(db: Database, op: Op)
    requires op.AddArtifact?
    requires Sound(db) && Apply(db, op).Ok?
    ensures Sound(Apply(db, op).value)
  {
    hide AttemptsSound, TurnsSound, IntentsSound, ObservationsSound, EventsSound, HasEvent, Observed;
  }

  lemma LogOpSound(db: Database, op: Op)
    requires op.AddBinding? || op.AddEvent?
    requires Sound(db) && Apply(db, op).Ok?
    ensures Sound(Apply(db, op).value)
  {
    hide AttemptsSound, TurnsSound, IntentsSound, ObservationsSound, ArtifactsSound, Observed;
  }

  lemma ApplySound(db: Database, op: Op)
    requires Sound(db) && Apply(db, op).Ok?
    ensures Sound(Apply(db, op).value)
  {
    hide Sound, Apply;
    match op {
      case AddSession(_, _) => AttemptOpSound(db, op);
      case AddAttempt(_, _, _, _) => AttemptOpSound(db, op);
      case Close(_, _) => AttemptOpSound(db, op);
      case AddTurn(_, _, _) => TurnOpSound(db, op);
      case RecordAction(_, _) => TurnOpSound(db, op);
      case AddIntent(_) => CallOpSound(db, op);
      case AddObservation(_) => CallOpSound(db, op);
      case AddArtifact(_) => ArtifactOpSound(db, op);
      case AddBinding(_) => LogOpSound(db, op);
      case AddEvent(_) => LogOpSound(db, op);
    }
  }

  lemma {:induction false} ApplyAllSound(db: Database, ops: seq<Op>)
    requires Sound(db)
    ensures Sound(ApplyAll(db, ops))
  {
    hide Sound, Apply;
    if ops != [] {
      ApplyAllSound(db, ops[..|ops| - 1]);
      var before := ApplyAll(db, ops[..|ops| - 1]);
      if Apply(before, ops[|ops| - 1]).Ok? {
        ApplySound(before, ops[|ops| - 1]);
      }
    }
  }

  /** Whatever is asked of a new store, in whatever order, its references hold. */
  lemma StoreSound(ops: seq<Op>)
    ensures Sound(ApplyAll(EMPTY, ops))
  {
    EmptySound();
    hide Sound, Apply, ApplyAll;
    ApplyAllSound(EMPTY, ops);
  }

  lemma EmptySound()
    ensures Sound(EMPTY)
  {
    hide Apply;
  }

  // ---- Written once ---------------------------------------------------------------------

  predicate Kept<K(!new), V(==)>(before: map<K, V>, after: map<K, V>) {
    forall k :: k in before ==> k in after && after[k] == before[k]
  }

  predicate AttemptsGrow(a: map<Id, Attempt>, b: map<Id, Attempt>) {
    forall k :: k in a ==> k in b && b[k] == a[k].(closing := b[k].closing)
                           && (a[k].closing.Some? ==> b[k].closing == a[k].closing)
  }

  predicate TurnsGrow(a: map<Id, Turn>, b: map<Id, Turn>) {
    forall k :: k in a ==> k in b && b[k] == a[k].(action := b[k].action)
                           && (a[k].action.Some? ==> b[k].action == a[k].action)
  }

  /** Rows stay as they were, except that an attempt may be closed and a turn given its action. */
  ghost predicate Grows(a: Database, b: Database) {
    && Kept(a.sessions, b.sessions) && Kept(a.intents, b.intents) && Kept(a.observations, b.observations)
    && Kept(a.artifacts, b.artifacts) && Kept(a.bindings, b.bindings) && a.events <= b.events
    && AttemptsGrow(a.attempts, b.attempts) && TurnsGrow(a.turns, b.turns)
  }

  lemma GrowsSelf(db: Database)
    ensures Grows(db, db)
  {
  }

  lemma ApplyGrows(db: Database, op: Op)
    requires Apply(db, op).Ok?
    ensures Grows(db, Apply(db, op).value)
  {
    hide Observed, HasEvent;
    GrowsSelf(db);
  }

  lemma GrowsTransitive(a: Database, b: Database, c: Database)
    requires Grows(a, b) && Grows(b, c)
    ensures Grows(a, c)
  {
  }

  lemma {:induction false} StoreGrows(db: Database, ops: seq<Op>)
    ensures Grows(db, ApplyAll(db, ops))
  {
    hide Apply;
    if ops != [] {
      hide Grows;
      StoreGrows(db, ops[..|ops| - 1]);
      var before := ApplyAll(db, ops[..|ops| - 1]);
      if Apply(before, ops[|ops| - 1]).Ok? {
        ApplyGrows(before, ops[|ops| - 1]);
        GrowsTransitive(db, before, ApplyAll(db, ops));
      }
    }
  }

  /** Two operations write the same cell of the store. */
  predicate SameCell(a: Op, b: Op) {
    match (a, b)
    case (AddSession(s, _), AddSession(t, _)) => s == t
    case (AddAttempt(s, t, i, _), AddAttempt(s', t', i', _)) => s == s' && t == t' && i == i'
    case (AddTurn(a, i, _), AddTurn(a', i', _)) => a == a' && i == i'
    case (RecordAction(t, _), RecordAction(t', _)) => t == t'
    case (AddIntent(p), AddIntent(q)) => p.invocation == q.invocation
    case (AddObservation(p), AddObservation(q)) => p.id == q.id
    case (AddArtifact(p), AddArtifact(q)) => p.id == q.id
    case (AddBinding(p), AddBinding(q)) => p.id == q.id
    case (AddEvent(p), AddEvent(q)) => p.id == q.id
    case (Close(a, _), Close(b, _)) => a == b
    case _ => false
  }

  /** They also write the same thing there.  A repeated close may differ in its time. */
  predicate SameContent(a: Op, b: Op) {
    a == b || (a.Close? && b.Close? && a.attempt == b.attempt && a.closing.outcome == b.closing.outcome
               && a.closing.reason == b.closing.reason)
  }

  lemma EventIdIsUnique(db: Database, e: Event, f: Event)
    requires Sound(db) && e in db.events && e.id == f.id
    ensures HasEvent(db.events, f.id)
    ensures f in db.events <==> f == e
  {
    hide AttemptsSound, TurnsSound, IntentsSound, ObservationsSound, ArtifactsSound, BindingsSound;
  }

  /** The numbers in the payload of a budget event. */
  function Amounts(entry: Entry): seq<int> {
    match entry
    case Reserved(p, wall, timeout) => [p.input, p.output, p.total, p.cost, p.retry, wall, timeout]
    case Settled(p, latency) => [p.input, p.output, p.total, p.cost, p.retry, latency]
    case Consumed(_, count) => [count]
  }

  lemma AmountsDecide(entry: Entry)
    ensures entry.NonNegative() <==> forall n :: n in Amounts(entry) ==> n >= 0
  {
    match entry
    case Reserved(p, wall, timeout) =>
      var a := Amounts(entry);
      assert p.input in a && p.output in a && p.total in a && p.cost in a && p.retry in a && wall in a && timeout in a;
    case Settled(p, latency) =>
      var a := Amounts(entry);
      assert p.input in a && p.output in a && p.total in a && p.cost in a && p.retry in a && latency in a;
    case Consumed(_, count) =>
      assert count in Amounts(entry);
  }

  /** The store holds what an accepted operation wrote, and that is well-formed. */
  predicate Holds(db: Database, op: Op) {
    match op
    case AddSession(s, row) => s in db.sessions && db.sessions[s] == row
    case AddAttempt(s, t, i, createdAt) =>
      var id := AttemptId(s, t, i);
      id in db.attempts && db.attempts[id] == Attempt(s, t, i, createdAt, db.attempts[id].closing)
    case AddTurn(a, i, createdAt) =>
      var id := TurnId(a, i);
      id in db.turns && db.turns[id] == Turn(a, i, createdAt, db.turns[id].action)
    case RecordAction(t, action) => t in db.turns && db.turns[t].action == Some(action)
    case AddIntent(p) =>
      && p.invocation in db.intents && db.intents[p.invocation] == p
      && p.reservation.total - p.reservation.input == p.reservation.output
      && p.reservation.wall >= p.reservation.timeout
    case AddObservation(o) =>
      && o.id in db.observations && db.observations[o.id] == o && o.total - o.input == o.output
      && (o.status.Completed? <==> o.classification.None?) && (o.status.Completed? ==> o.available)
    case AddArtifact(a) => Distinct(a.evidence) && a.id in db.artifacts && db.artifacts[a.id] == a
    case AddBinding(b) => b.id in db.bindings && db.bindings[b.id] == b
    case AddEvent(e) => e in db.events && forall n :: n in Amounts(e.entry) ==> n >= 0
    case Close(a, c) =>
      && a in db.attempts && db.attempts[a].closing.Some?
      && db.attempts[a].closing.value.outcome == c.outcome && db.attempts[a].closing.value.reason == c.reason
  }

  lemma AcceptedHolds(db: Database, op: Op)
    requires Apply(db, op).Ok?
    ensures Holds(Apply(db, op).value, op)
  {
    hide Observed, HasEvent, Amounts;
    if op.AddEvent? {
      AmountsDecide(op.event.entry);
    }
  }

  lemma StillHolds(a: Database, b: Database, op: Op)
    requires Holds(a, op) && Grows(a, b)
    ensures Holds(b, op)
  {
  }

  lemma HeldDecides(db: Database, op: Op, again: Op)
    requires Sound(db) && Holds(db, op) && SameCell(op, again)
    ensures if SameContent(op, again) then Apply(db, again) == Ok(db) else Apply(db, again).Refused?
  {
    hide AttemptsSound, TurnsSound, IntentsSound, ObservationsSound, ArtifactsSound, BindingsSound, Observed;
    if op.AddEvent? {
      hide Amounts;
      EventIdIsUnique(db, op.event, again.event);
      AmountsDecide(op.event.entry);
    }
  }

  /** What was once accepted holds its cell for good: at any later time the same content is
      accepted again and changes nothing, and any other content is refused. */
  lemma WrittenOnce(db: Database, op: Op, after: Database, later: seq<Op>, again: Op)
    requires Sound(db) && Apply(db, op) == Ok(after) && SameCell(op, again)
    ensures var now := ApplyAll(after, later);
            && (SameContent(op, again) ==> Apply(now, again) == Ok(now))
            && (!SameContent(op, again) ==> Apply(now, again).Refused?)
  {
    hide Grows, ApplyAll, Apply, Sound, Holds, SameCell, SameContent;
    var now := ApplyAll(after, later);
    ApplySound(db, op);
    StoreGrows(after, later);
    ApplyAllSound(after, later);
    AcceptedHolds(db, op);
    StillHolds(after, now, op);
    HeldDecides(now, op, again);
  }

  // ---- One attempt's budget events --------------------------------------------------------

  function EventsOf(events: seq<Event>, attempt: Id): seq<Event> {
    if events == [] then []
    else
      var rest, last := EventsOf(events[..|events| - 1], attempt), events[|events| - 1];
      if last.attempt == attempt then rest + [last] else rest
  }

  lemma EventsOfAppended(events: seq<Event>, e: Event, attempt: Id)
    ensures EventsOf(events + [e], attempt)
            == if e.attempt == attempt then EventsOf(events, attempt) + [e] else EventsOf(events, attempt)
  {
    assert (events + [e])[..|events|] == events;
  }

  /** No operation but a budget event of the same attempt changes an attempt's budget events. */
  lemma BudgetsAreSeparate(db: Database, op: Op, attempt: Id)
    requires Apply(db, op).Ok?
    ensures var after := Apply(db, op).value;
            EventsOf(after.events, attempt)
            == if op.AddEvent? && op.event.attempt == attempt && !HasEvent(db.events, op.event.id)
               then EventsOf(db.events, attempt) + [op.event]
               else EventsOf(db.events, attempt)
  {
    hide Observed, HasEvent;
    if op.AddEvent? {
      EventsOfAppended(db.events, op.event, attempt);
    }
  }
}
