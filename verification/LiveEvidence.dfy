/** What the store says about the provider calls of one attempt at any instant: which step the
    latest call has reached, and how the budget agrees with the recorded observations. */
module LiveEvidence {
  import opened Common
  import opened LiveTables
  import opened LiveStore
  import opened LiveBudget

  function AttemptEvents(db: Database, attempt: Id): seq<Event> {
    EventsOf(db.events, attempt)
  }

  function BooksAt(db: Database, attempt: Id): Books {
    BooksOf(EventsOf(db.events, attempt))
  }

  /** The calls of the attempt, in the order of their reservations. */
  function CallsOf(db: Database, attempt: Id): seq<Id> {
    BooksAt(db, attempt).order
  }

  predicate CallOf(attempt: Id, id: Id) {
    id.InvocationId? && id.turnId.TurnId? && id.turnId.attempt == attempt
  }

  function RetryOf(id: Id): int {
    if id.InvocationId? then id.sequence - 1 else 0
  }

  function PostingOf(r: Reservation, id: Id): Posting {
    Posting(r.input, r.output, r.total, r.cost, RetryOf(id))
  }

  function UsageOf(o: Observation, id: Id): Posting {
    Posting(o.input, o.output, o.total, o.cost, RetryOf(id))
  }

  /** The recorded usage of a call; nothing while it has no observation. */
  function Used(observations: map<Id, Observation>, id: Id): Posting {
    if ObservationId(id) in observations then UsageOf(observations[ObservationId(id)], id) else NOTHING
  }

  function AllUsed(observations: map<Id, Observation>, ids: seq<Id>): seq<Posting> {
    seq(|ids|, i requires 0 <= i < |ids| => Used(observations, ids[i]))
  }

  /** How far the latest call has got. */
  datatype Phase = Clear | OnlyReserved | Contacting | Unsettled

  /** The call's intent is durable and repeats its reservation. */
  predicate Intended(intents: map<Id, Intent>, b: Books, id: Id) {
    && id.InvocationId? && id in intents && intents[id].turn == id.turnId
    && id in b.reserved && b.reserved[id] == PostingOf(intents[id].reservation, id)
  }

  predicate HasOutcome(observations: map<Id, Observation>, id: Id) {
    ObservationId(id) in observations && observations[ObservationId(id)].invocation == id
  }

  /** The budget counts for the call exactly what was observed. */
  predicate Accounted(intents: map<Id, Intent>, observations: map<Id, Observation>, b: Books, id: Id) {
    Intended(intents, b, id) && HasOutcome(observations, id) && Effective(b, id) == Used(observations, id)
  }

  ghost predicate AllAccounted(intents: map<Id, Intent>, observations: map<Id, Observation>, b: Books, n: int) {
    forall i :: 0 <= i < n && i < |b.order| ==> Accounted(intents, observations, b, b.order[i])
  }

  predicate Latest(intents: map<Id, Intent>, observations: map<Id, Observation>, b: Books, phase: Phase) {
    phase.Clear?
    || (|b.order| > 0
        && var last := b.order[|b.order| - 1];
           && last !in b.settled
           && match phase
              case OnlyReserved => last !in intents
              case Contacting => Intended(intents, b, last) && ObservationId(last) !in observations
              case _ => Intended(intents, b, last) && HasOutcome(observations, last))
  }

  /** No row under an identity of the attempt's calls but those of its reserved calls. */
  ghost predicate ItsCalls(ids: seq<Id>, attempt: Id) {
    forall i :: 0 <= i < |ids| ==> CallOf(attempt, ids[i])
  }

  predicate InAttempt(turns: map<Id, Turn>, intent: Intent, attempt: Id) {
    intent.turn in turns && turns[intent.turn].attempt == attempt
  }

  ghost predicate ItsIntents(turns: map<Id, Turn>, intents: map<Id, Intent>, ids: seq<Id>, attempt: Id) {
    forall k :: k in intents && (CallOf(attempt, k) || InAttempt(turns, intents[k], attempt)) ==> k in ids
  }

  ghost predicate ItsObservations(observations: map<Id, Observation>, attempt: Id) {
    && (forall k :: k in observations && k.ObservationId? && CallOf(attempt, k.invocation) ==>
          observations[k].invocation == k.invocation)
    && (forall k :: k in observations && CallOf(attempt, observations[k].invocation) ==>
          k == ObservationId(observations[k].invocation))
  }

  predicate Standing(attempts: map<Id, Attempt>, attempt: Id, phase: Phase) {
    attempt in attempts && (!phase.Clear? ==> attempts[attempt].closing.None?)
  }

  function Done(b: Books, phase: Phase): int {
    if phase.Clear? then |b.order| else |b.order| - 1
  }

  /** The calls of the attempt as its tables and its books show them. */
  ghost predicate CallsEvident(turns: map<Id, Turn>, intents: map<Id, Intent>, observations: map<Id, Observation>,
                               b: Books, attempt: Id, phase: Phase) {
    && ItsCalls(b.order, attempt) && ItsIntents(turns, intents, b.order, attempt)
    && ItsObservations(observations, attempt)
    && AllAccounted(intents, observations, b, Done(b, phase))
    && Latest(intents, observations, b, phase)
  }

  ghost predicate Evident(db: Database, attempt: Id, phase: Phase) {
    && Sound(db) && InOrder(AttemptEvents(db, attempt))
    && CallsEvident(db.turns, db.intents, db.observations, BooksAt(db, attempt), attempt, phase)
    && Standing(db.attempts, attempt, phase)
  }

  // ---- Each write moves the latest call on ------------------------------------------------------

  lemma EventTouchesOnlyTheLog(db: Database, e: Event)
    requires Apply(db, AddEvent(e)).Ok?
    ensures var db' := Apply(db, AddEvent(e)).value; db' == db.(events := db'.events)
  {
    hide HasEvent;
  }

  /** A reservation starts a call. */
  lemma ReservedMovesOn(db: Database, db': Database, attempt: Id, r: Reservation, createdAt: string)
    requires Evident(db, attempt, Clear) && db.attempts[attempt].closing.None?
    requires CallOf(attempt, r.invocation) && r.invocation !in CallsOf(db, attempt)
    requires AtMost(NOTHING, PostingOf(r, r.invocation))
    requires var e := ReservedEvent(attempt, r, RetryOf(r.invocation), createdAt);
             && Apply(db, AddEvent(e)) == Ok(db')
             && Appended(AttemptEvents(db, attempt), e, AttemptEvents(db', attempt))
    ensures Evident(db', attempt, OnlyReserved)
    ensures CallsOf(db', attempt) == CallsOf(db, attempt) + [r.invocation]
    ensures r.invocation in BooksAt(db', attempt).reserved
    ensures BooksAt(db', attempt).reserved[r.invocation] == PostingOf(r, r.invocation)
    ensures AttemptEvents(db', attempt)
            == AttemptEvents(db, attempt) + [ReservedEvent(attempt, r, RetryOf(r.invocation), createdAt)]
    ensures var c, c' := CountersOf(AttemptEvents(db, attempt)), CountersOf(AttemptEvents(db', attempt));
            c' == c.(calls := c.calls + 1, sum := Plus(c.sum, PostingOf(r, r.invocation)))
    ensures db' == db.(events := db'.events)
  {
    var e := ReservedEvent(attempt, r, RetryOf(r.invocation), createdAt);
    ApplySound(db, AddEvent(e));
    EventTouchesOnlyTheLog(db, e);
    NewlyReserved(AttemptEvents(db, attempt), e, AttemptEvents(db', attempt));
    hide Sound, InOrder, BooksOf, EventsOf, HasEvent, Appended, Apply, CallsEvident;
    CallStarted(db.turns, db.intents, db.observations, BooksAt(db, attempt), BooksAt(db', attempt), attempt,
                r.invocation, PostingOf(r, r.invocation));
  }

  lemma CallStarted(turns: map<Id, Turn>, intents: map<Id, Intent>, observations: map<Id, Observation>,
                    b: Books, b': Books, attempt: Id, id: Id, p: Posting)
    requires CallsEvident(turns, intents, observations, b, attempt, Clear)
    requires CallOf(attempt, id) && id !in b.order && id !in b.reserved && id !in b.settled
    requires b' == b.(order := b.order + [id], reserved := b.reserved[id := p])
    ensures CallsEvident(turns, intents, observations, b', attempt, OnlyReserved)
  {
    hide CallOf, InAttempt, PostingOf, UsageOf, Used, HasOutcome;
  }

  lemma NewlyReserved(before: seq<Event>, e: Event, after: seq<Event>)
    requires InOrder(before) && e.entry.Reserved? && Keyed(e) && e.id == ReservedId(e.invocation.value)
    requires e.invocation.value !in BooksOf(before).order && Appended(before, e, after)
    requires AtMost(NOTHING, e.entry.posting)
    ensures InOrder(after) && after == before + [e]
    ensures var b, b', id := BooksOf(before), BooksOf(after), e.invocation.value;
            && id !in b.settled && id !in b.reserved
            && b' == b.(order := b.order + [id], reserved := b.reserved[id := e.entry.posting])
    ensures var c, c' := CountersOf(before), CountersOf(after);
            c' == c.(calls := c.calls + 1, sum := Plus(c.sum, e.entry.posting))
  {
    hide BooksOf, HasEvent, Sum;
    SumAppended(Effectives(BooksOf(before)), e.entry.posting);
    assert !exists i :: 0 <= i < |before| && before[i] == e by {
      assert forall i :: 0 <= i < |before| ==> Booked(BooksOf(before), before[i]);
    }
    ReservationPosted(before, e);
  }

  lemma IntentTouchesOnlyIntents(db: Database, p: Intent)
    requires Apply(db, AddIntent(p)).Ok? && p.invocation !in db.intents
    ensures Apply(db, AddIntent(p)).value == db.(intents := db.intents[p.invocation := p])
  {
    hide Observed, HasEvent;
  }

  lemma ObservationTouchesOnlyObservations(db: Database, o: Observation)
    requires Apply(db, AddObservation(o)).Ok? && o.id !in db.observations
    ensures Apply(db, AddObservation(o)).value == db.(observations := db.observations[o.id := o])
  {
    hide Observed, HasEvent;
  }

  lemma UnintendedUnobserved(db: Database, attempt: Id, id: Id)
    requires Evident(db, attempt, OnlyReserved)
    requires id == CallsOf(db, attempt)[|CallsOf(db, attempt)| - 1]
    ensures id !in db.intents && ObservationId(id) !in db.observations
  {
    hide BooksOf, EventsOf, InOrder, AttemptsSound, TurnsSound, ArtifactsSound, BindingsSound, EventsSound,
         AllAccounted;
    assert CallOf(attempt, id);
  }

  /** The intent makes the call ready. */
  lemma IntentMovesOn(db: Database, db': Database, attempt: Id, p: Intent)
    requires Evident(db, attempt, OnlyReserved) && Apply(db, AddIntent(p)) == Ok(db')
    requires var b := BooksAt(db, attempt);
             && p.invocation == b.order[|b.order| - 1] && p.invocation.InvocationId?
             && p.turn == p.invocation.turnId && p.invocation in b.reserved
             && b.reserved[p.invocation] == PostingOf(p.reservation, p.invocation)
    ensures Evident(db', attempt, Contacting) && p.invocation !in db.intents
    ensures db'.events == db.events && db'.attempts == db.attempts
    ensures db'.intents == db.intents[p.invocation := p] && db'.observations == db.observations
    ensures db'.turns == db.turns
    ensures ObservationId(p.invocation) !in db.observations
  {
    hide Sound, InOrder, BooksOf, EventsOf, CallsEvident, Apply;
    ApplySound(db, AddIntent(p));
    UnintendedUnobserved(db, attempt, p.invocation);
    IntentTouchesOnlyIntents(db, p);
    CallIntended(db.turns, db.intents, db.observations, BooksAt(db, attempt), attempt, p);
  }

  lemma CallIntended(turns: map<Id, Turn>, intents: map<Id, Intent>, observations: map<Id, Observation>, b: Books,
                     attempt: Id, p: Intent)
    requires CallsEvident(turns, intents, observations, b, attempt, OnlyReserved)
    requires p.invocation == b.order[|b.order| - 1] && p.invocation.InvocationId?
    requires p.turn == p.invocation.turnId && p.invocation in b.reserved
    requires b.reserved[p.invocation] == PostingOf(p.reservation, p.invocation)
    requires ObservationId(p.invocation) !in observations
    ensures CallsEvident(turns, intents[p.invocation := p], observations, b, attempt, Contacting)
  {
    hide CallOf, InAttempt, PostingOf, UsageOf, Used, HasOutcome, Effective;
  }

  lemma LatestContact(db: Database, attempt: Id)
    requires Evident(db, attempt, Contacting)
    ensures var b := BooksAt(db, attempt);
            && |b.order| > 0
            && var k := b.order[|b.order| - 1];
               && Intended(db.intents, b, k) && db.intents[k].Valid() && db.intents[k].invocation == k
               && ObservationId(k) !in db.observations
  {
    hide BooksOf, EventsOf, InOrder, AttemptsSound, TurnsSound, ObservationsSound, ArtifactsSound, BindingsSound,
         EventsSound, ItsCalls, ItsIntents, ItsObservations, AllAccounted;
  }

  /** The observation ends the call; the budget agrees already if all that was reserved was used. */
  lemma ObservationMovesOn(db: Database, db': Database, attempt: Id, o: Observation)
    requires Evident(db, attempt, Contacting) && Apply(db, AddObservation(o)) == Ok(db')
    requires var b := BooksAt(db, attempt);
             o.invocation == b.order[|b.order| - 1] && o.id == ObservationId(o.invocation)
    ensures Evident(db', attempt, Unsettled) && db'.events == db.events && db'.attempts == db.attempts
    ensures db'.intents == db.intents && db'.observations == db.observations[o.id := o]
    ensures db'.turns == db.turns
    ensures Used(db'.observations, o.invocation) == UsageOf(o, o.invocation)
    ensures o.invocation in BooksAt(db, attempt).reserved
    ensures BooksAt(db, attempt).reserved[o.invocation] == UsageOf(o, o.invocation) ==> Evident(db', attempt, Clear)
  {
    hide Sound, InOrder, BooksOf, EventsOf, CallsEvident, Apply;
    LatestContact(db, attempt);
    ApplySound(db, AddObservation(o));
    ObservationTouchesOnlyObservations(db, o);
    CallObserved(db.turns, db.intents, db.observations, BooksAt(db, attempt), attempt, o);
  }

  lemma CallObserved(turns: map<Id, Turn>, intents: map<Id, Intent>, observations: map<Id, Observation>, b: Books,
                     attempt: Id, o: Observation)
    requires CallsEvident(turns, intents, observations, b, attempt, Contacting)
    requires o.invocation == b.order[|b.order| - 1] && o.id == ObservationId(o.invocation)
    ensures var observations' := observations[o.id := o];
            && CallsEvident(turns, intents, observations', b, attempt, Unsettled)
            && o.invocation in b.reserved
            && (b.reserved[o.invocation] == UsageOf(o, o.invocation) ==>
                  CallsEvident(turns, intents, observations', b, attempt, Clear))
  {
    hide CallOf, InAttempt, PostingOf, UsageOf;
  }

  lemma LatestUnsettled(db: Database, attempt: Id)
    requires Evident(db, attempt, Unsettled)
    ensures var b := BooksAt(db, attempt);
            && |b.order| > 0
            && var last := b.order[|b.order| - 1];
               last.InvocationId? && last in b.order && last !in b.settled
  {
    hide Sound, InOrder, BooksOf, EventsOf, AllAccounted, ItsCalls, ItsIntents, ItsObservations, HasOutcome;
  }

  /** The settlement makes the budget agree with the observation. */
  lemma SettlementMovesOn(db: Database, db': Database, attempt: Id, p: Posting, latency: nat, createdAt: string)
    requires Evident(db, attempt, Unsettled) && |CallsOf(db, attempt)| > 0
    requires var b := BooksAt(db, attempt);
             var last := b.order[|b.order| - 1];
             var e := SettledEvent(attempt, last, p, latency, createdAt);
             && p == Used(db.observations, last) && Apply(db, AddEvent(e)) == Ok(db')
             && Appended(AttemptEvents(db, attempt), e, AttemptEvents(db', attempt))
    ensures Evident(db', attempt, Clear) && db' == db.(events := db'.events)
    ensures CallsOf(db', attempt) == CallsOf(db, attempt)
    ensures AttemptEvents(db', attempt)
            == AttemptEvents(db, attempt)
               + [SettledEvent(attempt, CallsOf(db, attempt)[|CallsOf(db, attempt)| - 1], p, latency, createdAt)]
  {
    var b := BooksAt(db, attempt);
    hide Sound, InOrder, BooksOf, EventsOf, HasEvent, Appended, Apply, CallsEvident, Used;
    LatestUnsettled(db, attempt);
    var last := b.order[|b.order| - 1];
    var e := SettledEvent(attempt, last, p, latency, createdAt);
    ApplySound(db, AddEvent(e));
    EventTouchesOnlyTheLog(db, e);
    NewlySettled(AttemptEvents(db, attempt), e, AttemptEvents(db', attempt));
    CallSettled(db.turns, db.intents, db.observations, b, BooksAt(db', attempt), attempt, p);
  }

  lemma CallSettled(turns: map<Id, Turn>, intents: map<Id, Intent>, observations: map<Id, Observation>,
                    b: Books, b': Books, attempt: Id, p: Posting)
    requires CallsEvident(turns, intents, observations, b, attempt, Unsettled)
    requires var last := b.order[|b.order| - 1];
             p == Used(observations, last) && b' == b.(settled := b.settled[last := p])
    requires forall i, j :: 0 <= i < j < |b.order| ==> b.order[i] != b.order[j]
    ensures CallsEvident(turns, intents, observations, b', attempt, Clear)
  {
    hide CallOf, InAttempt, PostingOf, UsageOf, Used, HasOutcome;
  }

  lemma NewlySettled(before: seq<Event>, e: Event, after: seq<Event>)
    requires InOrder(before) && e.entry.Settled? && Keyed(e) && e.id == SettledId(e.invocation.value)
    requires e.invocation.value in BooksOf(before).order && e.invocation.value !in BooksOf(before).settled
    requires Appended(before, e, after)
    ensures InOrder(after) && after == before + [e]
    ensures var b, b' := BooksOf(before), BooksOf(after);
            b' == b.(settled := b.settled[e.invocation.value := e.entry.posting])
    ensures var b := BooksOf(before); forall i, j :: 0 <= i < j < |b.order| ==> b.order[i] != b.order[j]
  {
    hide BooksOf, HasEvent;
    assert !exists i :: 0 <= i < |before| && before[i] == e by {
      assert forall i :: 0 <= i < |before| ==> Booked(BooksOf(before), before[i]);
    }
    var b := BooksOf(before);
    var i :| 0 <= i < |b.order| && b.order[i] == e.invocation.value;
    SettlementPosted(before, e, i);
  }

  /** Turns, actions, drafts, candidates, closings and counters leave the calls alone. */
  lemma CallsLeftAlone(db: Database, db': Database, attempt: Id, phase: Phase)
    requires Evident(db, attempt, phase) && Sound(db') && Grows(db, db')
    requires db'.intents == db.intents && db'.observations == db.observations
    requires InOrder(AttemptEvents(db', attempt))
    requires var b, b' := BooksAt(db, attempt), BooksAt(db', attempt);
             b'.order == b.order && b'.reserved == b.reserved && b'.settled == b.settled
    requires Standing(db'.attempts, attempt, phase)
    ensures Evident(db', attempt, phase)
  {
    hide InOrder, BooksOf, EventsOf, CallOf, AttemptsSound, TurnsSound, ObservationsSound, ArtifactsSound,
         BindingsSound, EventsSound, AttemptsGrow, Accounted, Effective, HasOutcome, Intended;
    var b, b' := BooksAt(db, attempt), BooksAt(db', attempt);
    BooksWithSameCalls(db.intents, db.observations, b, b', Done(b, phase));
  }

  /** A use of something else is counted, and leaves the calls alone. */
  lemma ConsumptionMovesOn(db: Database, db': Database, attempt: Id, what: Consumption, key: Id, createdAt: string)
    requires Evident(db, attempt, Clear)
    requires var e := ConsumedEvent(attempt, what, key, createdAt);
             && !HasEvent(AttemptEvents(db, attempt), e.id) && Apply(db, AddEvent(e)) == Ok(db')
             && Appended(AttemptEvents(db, attempt), e, AttemptEvents(db', attempt))
    ensures Evident(db', attempt, Clear) && db' == db.(events := db'.events)
    ensures CallsOf(db', attempt) == CallsOf(db, attempt)
    ensures AttemptEvents(db', attempt)
            == AttemptEvents(db, attempt) + [ConsumedEvent(attempt, what, key, createdAt)]
    ensures var c, c' := CountersOf(AttemptEvents(db, attempt)), CountersOf(AttemptEvents(db', attempt));
            && c'.calls == c.calls && c'.sum == c.sum
            && forall w :: CountOf(c', w) == CountOf(c, w) + if w == what then 1 else 0
  {
    hide Sound, InOrder, BooksOf, EventsOf, HasEvent, Apply, CallsEvident, Grows, CountersOf;
    var e := ConsumedEvent(attempt, what, key, createdAt);
    ApplySound(db, AddEvent(e));
    ApplyGrows(db, AddEvent(e));
    EventTouchesOnlyTheLog(db, e);
    AbsentFrom(AttemptEvents(db, attempt), e);
    ConsumptionPosted(AttemptEvents(db, attempt), e);
    SumAfterConsumption(AttemptEvents(db, attempt), e);
    CallsLeftAlone(db, db', attempt, Clear);
  }

  /** Turns, actions, drafts and candidates leave the calls and the budget alone. */
  lemma OtherRowsMoveOn(db: Database, db': Database, attempt: Id, op: Op)
    requires op.AddTurn? || op.RecordAction? || op.AddArtifact? || op.AddBinding?
    requires Evident(db, attempt, Clear) && Apply(db, op) == Ok(db')
    ensures Evident(db', attempt, Clear) && db'.attempts == db.attempts && db'.events == db.events
    ensures db'.intents == db.intents && db'.observations == db.observations
    ensures op.AddArtifact? || op.AddBinding? ==> db'.turns == db.turns
  {
    hide BooksOf, EventsOf, InOrder, Observed, HasEvent, CallsEvident, Sound, Grows;
    ApplySound(db, op);
    ApplyGrows(db, op);
    CallsLeftAlone(db, db', attempt, Clear);
  }

  /** Nothing in the store is about the attempt yet, but that it may have been opened. */
  ghost predicate Untouched(db: Database, attempt: Id) {
    && EventsOf(db.events, attempt) == []
    && (attempt in db.attempts ==> db.attempts[attempt].closing.None?)
    && (forall k :: k in db.intents ==> !CallOf(attempt, k) && !InAttempt(db.turns, db.intents[k], attempt))
    && (forall k :: k in db.observations ==> !(k.ObservationId? && CallOf(attempt, k.invocation)))
  }

  lemma AttemptOpened(db: Database, db': Database, session: string, task: string, index: int, createdAt: string)
    requires Sound(db) && Untouched(db, AttemptId(session, task, index))
    requires Apply(db, AddAttempt(session, task, index, createdAt)) == Ok(db')
    ensures var attempt := AttemptId(session, task, index);
            && Evident(db', attempt, Clear) && db'.attempts[attempt].closing.None?
            && AttemptEvents(db', attempt) == [] && CallsOf(db', attempt) == [] && db'.turns == db.turns
  {
    hide Sound, Apply, InOrder, EventsOf;
    ApplySound(db, AddAttempt(session, task, index, createdAt));
    OpeningTouchesOnlyAttempts(db, session, task, index, createdAt);
    NothingPostedInOrder();
    NoCallsYet(db, AttemptId(session, task, index));
  }

  lemma OpeningTouchesOnlyAttempts(db: Database, session: string, task: string, index: int, createdAt: string)
    requires Apply(db, AddAttempt(session, task, index, createdAt)).Ok?
    ensures var id, db' := AttemptId(session, task, index),
                           Apply(db, AddAttempt(session, task, index, createdAt)).value;
            && db' == db.(attempts := db'.attempts) && id in db'.attempts
            && (id in db.attempts ==> db'.attempts == db.attempts)
            && (id !in db.attempts ==> db'.attempts[id].closing.None?)
  {
    hide Observed, HasEvent;
  }

  lemma NoCallsYet(db: Database, attempt: Id)
    requires Sound(db) && Untouched(db, attempt)
    ensures BooksOf([]).order == [] && BooksOf([]).reserved == map[]
    ensures CallsEvident(db.turns, db.intents, db.observations, BooksOf([]), attempt, Clear)
  {
    hide AttemptsSound, TurnsSound, IntentsSound, ArtifactsSound, BindingsSound, EventsSound, EventsOf, CallOf,
         InAttempt;
    assert ItsObservations(db.observations, attempt) by {
      hide BooksOf;
      assert forall k :: k in db.observations ==> db.observations[k].invocation in db.intents;
    }
    hide ItsObservations, Sound;
  }

  lemma AbsentFrom(events: seq<Event>, e: Event)
    requires !HasEvent(events, e.id)
    ensures e !in events
  {
  }

  lemma BooksWithSameCalls(intents: map<Id, Intent>, observations: map<Id, Observation>, b: Books, b': Books, n: int)
    requires AllAccounted(intents, observations, b, n)
    requires b'.order == b.order && b'.reserved == b.reserved && b'.settled == b.settled
    ensures AllAccounted(intents, observations, b', n)
    ensures forall id :: Intended(intents, b', id) <==> Intended(intents, b, id)
  {
    hide HasOutcome, Used;
  }

  // ---- Accounting agreement -----------------------------------------------------------------------

  /** Between calls the budget's sums are those of the recorded observations. */
  lemma BudgetAgrees(db: Database, attempt: Id)
    requires Evident(db, attempt, Clear)
    ensures CountersOf(AttemptEvents(db, attempt)).sum == Sum(AllUsed(db.observations, CallsOf(db, attempt)))
  {
    hide Sound, InOrder, BooksOf, EventsOf, Sum, Effective, Used, Intended, HasOutcome, ItsCalls, ItsIntents,
         ItsObservations;
    var b := BooksAt(db, attempt);
    assert Effectives(b) == AllUsed(db.observations, b.order);
  }

  /** Within a call they are no less, unless its observation outran its reservation and its
      settlement is still to come: then, and only then, the budget counts less than was used. */
  lemma BudgetCovers(db: Database, attempt: Id, phase: Phase)
    requires Evident(db, attempt, phase) && !phase.Clear?
    ensures var b := BooksAt(db, attempt);
            var last := b.order[|b.order| - 1];
            && last in b.reserved
            && (AtMost(Sum(AllUsed(db.observations, b.order)), CountersOf(AttemptEvents(db, attempt)).sum)
                <==> phase.Unsettled? ==> AtMost(Used(db.observations, last), b.reserved[last]))
  {
    hide Sound, InOrder, BooksOf, EventsOf, Sum, Used, ItsIntents, ItsObservations, Intended, HasOutcome;
    var b := BooksAt(db, attempt);
    var n := |b.order| - 1;
    LatestCharge(db, attempt, phase);
    var ledger, used := Effectives(b), AllUsed(db.observations, b.order);
    assert ledger[..n] == used[..n];
    LastDecides(ledger, used);
  }

  lemma LatestCharge(db: Database, attempt: Id, phase: Phase)
    requires Evident(db, attempt, phase) && !phase.Clear?
    ensures var b := BooksAt(db, attempt);
            var last := b.order[|b.order| - 1];
            && last in b.reserved && Effective(b, last) == b.reserved[last] && AtMost(NOTHING, b.reserved[last])
            && (phase != Unsettled ==> Used(db.observations, last) == NOTHING)
  {
    if phase.OnlyReserved? {
      UnintendedUnobserved(db, attempt, CallsOf(db, attempt)[|CallsOf(db, attempt)| - 1]);
    }
    hide Sound, BooksOf, EventsOf, HasEvent, Identified, AllBooked, AllAccounted, ItsIntents, ItsObservations,
         ItsCalls, Intended, HasOutcome;
  }

  lemma LastDecides(a: seq<Posting>, b: seq<Posting>)
    requires |a| == |b| > 0 && a[..|a| - 1] == b[..|b| - 1]
    ensures AtMost(Sum(b), Sum(a)) <==> AtMost(b[|b| - 1], a[|a| - 1])
  {
  }

  /** Such a state is reached from any open attempt: reserve, intend, and observe more tokens
      than were reserved.  Until the settlement the budget counts less than was used. */
  lemma ObservedUsageMayOutrunBudget(db: Database, attempt: Id, r: Reservation, o: Observation, now: string)
    returns (db': Database)
    requires Evident(db, attempt, Clear) && db.attempts[attempt].closing.None?
    requires CallOf(attempt, r.invocation) && r.invocation.turnId in db.turns && r.invocation !in db.intents
    requires r.invocation !in CallsOf(db, attempt) && !HasEvent(db.events, ReservedId(r.invocation))
    requires r.total == r.input + r.output && r.timeout <= r.wall && r.timeout >= 0
    requires AtMost(NOTHING, PostingOf(r, r.invocation)) && RetryOf(r.invocation) >= 0
    requires o.Valid() && o.id == ObservationId(o.invocation) && o.invocation == r.invocation
    requires o.input > r.input
    ensures var e := ReservedEvent(attempt, r, RetryOf(r.invocation), now);
            var p := Intent(r.invocation, r.invocation.turnId, r, "");
            db' == ApplyAll(db, [AddEvent(e), AddIntent(p), AddObservation(o)])
    ensures Evident(db', attempt, Unsettled)
    ensures !AtMost(Sum(AllUsed(db'.observations, CallsOf(db', attempt))), CountersOf(AttemptEvents(db', attempt)).sum)
  {
    hide Evident, BooksOf, EventsOf, Sum, CountersOf, Apply, AllUsed, HasEvent, Observed;
    var e := ReservedEvent(attempt, r, RetryOf(r.invocation), now);
    var p := Intent(r.invocation, r.invocation.turnId, r, "");
    var reserved := db.(events := db.events + [e]);
    var intended := reserved.(intents := db.intents[r.invocation := p]);
    CallMade(db, attempt, r, now);
    NewObservationAccepted(intended, o);
    db' := intended.(observations := db.observations[o.id := o]);
    ObservationMovesOn(intended, db', attempt, o);
    BudgetCovers(db', attempt, Unsettled);
    ThreeApplied(db, reserved, intended, db', AddEvent(e), AddIntent(p), AddObservation(o));
  }

  lemma CallMade(db: Database, attempt: Id, r: Reservation, now: string)
    requires Evident(db, attempt, Clear) && db.attempts[attempt].closing.None?
    requires CallOf(attempt, r.invocation) && r.invocation.turnId in db.turns && r.invocation !in db.intents
    requires r.invocation !in CallsOf(db, attempt) && !HasEvent(db.events, ReservedId(r.invocation))
    requires r.total == r.input + r.output && r.timeout <= r.wall && r.timeout >= 0
    requires AtMost(NOTHING, PostingOf(r, r.invocation)) && RetryOf(r.invocation) >= 0
    ensures var e := ReservedEvent(attempt, r, RetryOf(r.invocation), now);
            var p := Intent(r.invocation, r.invocation.turnId, r, "");
            var reserved := db.(events := db.events + [e]);
            var intended := reserved.(intents := db.intents[r.invocation := p]);
            && Apply(db, AddEvent(e)) == Ok(reserved) && Apply(reserved, AddIntent(p)) == Ok(intended)
            && Evident(intended, attempt, Contacting) && CallsOf(intended, attempt) != []
            && CallsOf(intended, attempt)[|CallsOf(intended, attempt)| - 1] == r.invocation
            && r.invocation in BooksAt(intended, attempt).reserved
            && BooksAt(intended, attempt).reserved[r.invocation] == PostingOf(r, r.invocation)
            && !Observed(intended, r.invocation) && ObservationId(r.invocation) !in intended.observations
  {
    hide Evident, BooksOf, EventsOf, CountersOf, Apply, HasEvent, Observed;
    var e := ReservedEvent(attempt, r, RetryOf(r.invocation), now);
    var p := Intent(r.invocation, r.invocation.turnId, r, "");
    EvidentMeans(db, attempt, Clear);
    EventAccepted(db, attempt, e);
    var reserved := db.(events := db.events + [e]);
    ReservedMovesOn(db, reserved, attempt, r, now);
    IntentAccepted(reserved, p);
    var intended := reserved.(intents := db.intents[r.invocation := p]);
    IntentMovesOn(reserved, intended, attempt, p);
    UnobservedSoFar(intended, attempt, r.invocation);
  }

  lemma EventAccepted(db: Database, attempt: Id, e: Event)
    requires attempt in db.attempts && e.attempt == attempt && e.entry.NonNegative() && !HasEvent(db.events, e.id)
    ensures Apply(db, AddEvent(e)) == Ok(db.(events := db.events + [e]))
    ensures Appended(AttemptEvents(db, attempt), e, EventsOf(db.events + [e], attempt))
  {
    hide HasEvent;
    EventsOfAppended(db.events, e, attempt);
    OnlyEventsOf(db.events, e);
  }

  lemma IntentAccepted(db: Database, p: Intent)
    requires p.Valid() && p.invocation !in db.intents && p.turn in db.turns
    ensures Apply(db, AddIntent(p)) == Ok(db.(intents := db.intents[p.invocation := p]))
  {
    hide HasEvent, Observed;
  }

  lemma UnobservedSoFar(db: Database, attempt: Id, k: Id)
    requires Evident(db, attempt, Contacting) && k in CallsOf(db, attempt) && ObservationId(k) !in db.observations
    ensures !Observed(db, k)
  {
    hide Evident, BooksOf, EventsOf, Observed;
    OutcomeIsObserved(db, attempt, Contacting, k);
  }

  /** And an attempt just opened, with its first turn, is such an attempt. */
  lemma FirstTurnEvident(session: string, row: Session, task: string, index: int, now: string)
    ensures var attempt := AttemptId(session, task, index);
            var db := ApplyAll(EMPTY, [AddSession(session, row), AddAttempt(session, task, index, now),
                                       AddTurn(attempt, 1, now)]);
            && Evident(db, attempt, Clear) && db.attempts[attempt].closing.None?
            && db.turns.Keys == {TurnId(attempt, 1)}
            && CallsOf(db, attempt) == [] && db.intents == map[] && db.events == []
  {
    hide Evident, Sound, Untouched, Apply, BooksOf, EventsOf;
    var attempt := AttemptId(session, task, index);
    var db1 := EMPTY.(sessions := map[session := row]);
    var db2 := db1.(attempts := map[attempt := Attempt(session, task, index, now, None)]);
    var db3 := db2.(turns := map[TurnId(attempt, 1) := Turn(attempt, 1, now, None)]);
    FirstRows(session, row, task, index, now);
    ApplySound(EMPTY, AddSession(session, row));
    AttemptOpened(db1, db2, session, task, index, now);
    OtherRowsMoveOn(db2, db3, attempt, AddTurn(attempt, 1, now));
    ThreeApplied(EMPTY, db1, db2, db3, AddSession(session, row), AddAttempt(session, task, index, now),
                 AddTurn(attempt, 1, now));
  }

  lemma FirstRows(session: string, row: Session, task: string, index: int, now: string)
    ensures var attempt := AttemptId(session, task, index);
            var db1 := EMPTY.(sessions := map[session := row]);
            var db2 := db1.(attempts := map[attempt := Attempt(session, task, index, now, None)]);
            var db3 := db2.(turns := map[TurnId(attempt, 1) := Turn(attempt, 1, now, None)]);
            && Sound(EMPTY) && Untouched(db1, attempt)
            && Apply(EMPTY, AddSession(session, row)) == Ok(db1)
            && Apply(db1, AddAttempt(session, task, index, now)) == Ok(db2)
            && Apply(db2, AddTurn(attempt, 1, now)) == Ok(db3)
  {
    hide HasEvent, Observed;
  }

  lemma ThreeApplied(db: Database, db1: Database, db2: Database, db3: Database, a: Op, b: Op, c: Op)
    requires Apply(db, a) == Ok(db1) && Apply(db1, b) == Ok(db2) && Apply(db2, c) == Ok(db3)
    ensures ApplyAll(db, [a, b, c]) == db3
  {
    hide Apply;
    assert [a, b, c][..2] == [a, b] && [a, b][..1] == [a] && [a][..0] == [];
    assert ApplyAll(db, [a]) == db1;
    assert ApplyAll(db, [a, b]) == db2;
  }

  /** The calls summed over are those of all observations of the attempt, each once. */
  lemma EveryObservationCounted(db: Database, attempt: Id, phase: Phase, k: Id)
    requires Evident(db, attempt, phase) && k in db.observations
    requires BelongsTo(db, db.observations[k].invocation, attempt)
    ensures db.observations[k].invocation in CallsOf(db, attempt)
    ensures Used(db.observations, db.observations[k].invocation)
            == UsageOf(db.observations[k], db.observations[k].invocation)
    ensures forall i, j :: 0 <= i < j < |CallsOf(db, attempt)| ==> CallsOf(db, attempt)[i] != CallsOf(db, attempt)[j]
  {
    hide BooksOf, EventsOf, Sound, AllAccounted, Latest;
  }

  /** A call that was intended once, asked for again by a later run: the store lets it through to
      the provider if and only if reservation and intent are what they were, elapsed time and all;
      whatever differs is refused before. */
  lemma RepeatedCall(db: Database, attempt: Id, phase: Phase, k: Id, r: Reservation, retry: nat, now: string, p: Intent)
    requires Evident(db, attempt, phase) && k in CallsOf(db, attempt) && k in db.intents
    requires r.invocation == k && p.invocation == k && p.Valid()
    requires ReservedEvent(attempt, r, retry, now).entry.NonNegative()
    ensures var e := ReservedEvent(attempt, r, retry, now);
            Apply(db, AddEvent(e)) == if e in db.events then Ok(db) else Refused(Conflict)
    ensures Apply(db, AddIntent(p)) == if p == db.intents[k] then Ok(db) else Refused(Conflict)
  {
    hide BooksOf, EventsOf, Sound, AllBooked, CallsEvident, Standing, HasEvent;
    OnlyEventsOf(db.events, ReservedEvent(attempt, r, retry, now));
    assert k in BooksAt(db, attempt).reserved;
  }

  // ---- Recovery -----------------------------------------------------------------------------------

  /** Only the latest call can be without an outcome, and then the attempt is still open. */
  lemma OnlyTheLatestDangles(db: Database, attempt: Id, phase: Phase, k: Id)
    requires Evident(db, attempt, phase)
    ensures Dangling(db, attempt, k)
            <==> phase.Contacting? && k == CallsOf(db, attempt)[|CallsOf(db, attempt)| - 1]
  {
    hide BooksOf, EventsOf, InOrder, Observed, Sound, CallOf, HasOutcome, Effective, PostingOf, Used;
    var b := BooksAt(db, attempt);
    if k in b.order {
      var i :| 0 <= i < |b.order| && b.order[i] == k;
      OutcomeIsObserved(db, attempt, phase, k);
      if phase.OnlyReserved? && i == |b.order| - 1 {
        assert k !in db.intents;
      } else {
        assert Accounted(db.intents, db.observations, b, k) || (!phase.Clear? && i == |b.order| - 1);
        TurnsOfCalls(db, attempt, phase, k);
        assert InAttempt(db.turns, db.intents[k], attempt);
        DistinctCalls(db, attempt);
      }
    }
  }

  lemma EvidentMeans(db: Database, attempt: Id, phase: Phase)
    requires Evident(db, attempt, phase)
    ensures Sound(db) && InOrder(AttemptEvents(db, attempt)) && attempt in db.attempts
    ensures !phase.Clear? ==> |CallsOf(db, attempt)| > 0 && db.attempts[attempt].closing.None?
  {
    hide BooksOf, EventsOf, Sound, InOrder;
  }

  lemma DistinctCalls(db: Database, attempt: Id)
    requires InOrder(AttemptEvents(db, attempt))
    ensures forall i, j :: 0 <= i < j < |CallsOf(db, attempt)| ==> CallsOf(db, attempt)[i] != CallsOf(db, attempt)[j]
  {
    hide BooksOf, EventsOf;
  }

  lemma OutcomeIsObserved(db: Database, attempt: Id, phase: Phase, k: Id)
    requires Evident(db, attempt, phase) && k in CallsOf(db, attempt)
    ensures Observed(db, k) <==> HasOutcome(db.observations, k)
    ensures ObservationId(k) !in db.observations ==> !Observed(db, k)
  {
    hide BooksOf, EventsOf, InOrder, Sound, AllAccounted, Latest, ItsIntents;
    assert CallOf(attempt, k);
  }

  lemma TurnsOfCalls(db: Database, attempt: Id, phase: Phase, k: Id)
    requires Evident(db, attempt, phase) && k in CallsOf(db, attempt)
    requires k.InvocationId? && k in db.intents && db.intents[k].turn == k.turnId
    ensures BelongsTo(db, k, attempt)
  {
    hide BooksOf, EventsOf, InOrder, AllAccounted, Latest, ItsIntents, ItsObservations, ObservationsSound,
         ArtifactsSound, BindingsSound, EventsSound, AttemptsSound;
    assert CallOf(attempt, k);
  }

  /** Recovery of a call without an outcome is never refused: it records the reservation as used
      and closes the attempt, unless it is stopped in between; the budget stays as it was and now
      agrees, and no call dangles. */
  lemma RecoveryDrains(db: Database, db': Database, attempt: Id, phase: Phase, k: Id, observedAt: string, r: Recovery)
    requires Evident(db, attempt, phase) && Dangling(db, attempt, k)
    requires ClosesUnknown(db, attempt, k, observedAt, db', r)
    ensures r in {Interrupted(1), Interrupted(2), ClosedUnknown(UnknownOutcome(db.intents[k], observedAt))}
    ensures Used(db'.observations, k) == BooksAt(db, attempt).reserved[k]
    ensures Evident(db', attempt, Clear) && AttemptEvents(db', attempt) == AttemptEvents(db, attempt)
    ensures db'.attempts[attempt].closing
            == if r == Interrupted(1) then None else Some(UnknownClosing(observedAt))
    ensures forall j :: !Dangling(db', attempt, j)
  {
    hide BooksOf, EventsOf, InOrder, Sound, Dangling, Apply, CallsEvident;
    OnlyTheLatestDangles(db, attempt, phase, k);
    UnknownRecorded(db, attempt, k, observedAt);
    var o := UnknownOutcome(db.intents[k], observedAt);
    var db1 := Apply(db, AddObservation(o)).value;
    ClosedEvident(db1, attempt, UnknownClosing(observedAt));
    forall j
      ensures !Dangling(db', attempt, j)
    {
      OnlyTheLatestDangles(db', attempt, Clear, j);
    }
  }

  lemma UnknownRecorded(db: Database, attempt: Id, k: Id, observedAt: string)
    requires Evident(db, attempt, Contacting) && k == CallsOf(db, attempt)[|CallsOf(db, attempt)| - 1]
    ensures k in db.intents && k in BooksAt(db, attempt).reserved
    ensures var o := UnknownOutcome(db.intents[k], observedAt);
            && Apply(db, AddObservation(o)).Ok?
            && var db' := Apply(db, AddObservation(o)).value;
               && Evident(db', attempt, Clear) && db'.events == db.events && db'.attempts == db.attempts
               && Used(db'.observations, k) == BooksAt(db, attempt).reserved[k]
  {
    hide BooksOf, EventsOf, InOrder, Observed, CallsEvident, Sound, Apply;
    LatestContact(db, attempt);
    var o := UnknownOutcome(db.intents[k], observedAt);
    OutcomeIsObserved(db, attempt, Contacting, k);
    NewObservationAccepted(db, o);
    ObservationMovesOn(db, Apply(db, AddObservation(o)).value, attempt, o);
  }

  lemma NewObservationAccepted(db: Database, o: Observation)
    requires o.Valid() && o.id !in db.observations && o.invocation in db.intents && !Observed(db, o.invocation)
    ensures Apply(db, AddObservation(o)) == Ok(db.(observations := db.observations[o.id := o]))
  {
    hide Observed;
  }

  lemma ClosedEvident(db: Database, attempt: Id, closing: Closing)
    requires Evident(db, attempt, Clear) && db.attempts[attempt].closing.None?
    ensures var op := Close(attempt, closing);
            && Apply(db, op).Ok?
            && var db' := Apply(db, op).value;
               && Evident(db', attempt, Clear) && db'.events == db.events && Grows(db, db')
               && attempt in db'.attempts && db'.attempts[attempt].closing == Some(closing)
               && db' == db.(attempts := db'.attempts)
  {
    hide BooksOf, EventsOf, InOrder, Observed, HasEvent, CallsEvident, Sound, Grows;
    var op := Close(attempt, closing);
    ApplySound(db, op);
    ApplyGrows(db, op);
    CallsLeftAlone(db, Apply(db, op).value, attempt, Clear);
  }
}
